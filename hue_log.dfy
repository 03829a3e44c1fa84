/** The logging projection of the Hue bridge API: `extract_relevant_data`
    keeps the bridge clock (`config.UTC`, `config.localtime`,
    `config.timezone`) and the whole `lights` section, and drops the rest. */
module HueLog {
  import opened Json

  /** The four subscript chains the extractor evaluates, in the order Python
      evaluates them while building the dictionary literal. */
  const UtcPath: seq<string> := ["config", "UTC"]
  const LocaltimePath: seq<string> := ["config", "localtime"]
  const TimezonePath: seq<string> := ["config", "timezone"]
  const LightsPath: seq<string> := ["lights"]

  /** The three clock reads succeed on `api`. */
  predicate HasConfigFields(api: Json)
  {
    && Lookup(api, UtcPath).Ok?
    && Lookup(api, LocaltimePath).Ok?
    && Lookup(api, TimezonePath).Ok?
  }

  /** Every read the extractor performs succeeds on `api`. */
  predicate HasRelevantFields(api: Json)
  {
    HasConfigFields(api) && Lookup(api, LightsPath).Ok?
  }

  /** `a` and `b` give the same outcome on every read the extractor performs. */
  predicate AgreeOnReadPaths(a: Json, b: Json)
  {
    && Lookup(a, UtcPath) == Lookup(b, UtcPath)
    && Lookup(a, LocaltimePath) == Lookup(b, LocaltimePath)
    && Lookup(a, TimezonePath) == Lookup(b, TimezonePath)
    && Lookup(a, LightsPath) == Lookup(b, LightsPath)
  }

  /** The shape of a logged record: an object with exactly `config` and
      `lights`, whose `config` is an object with exactly the three clock keys. */
  predicate IsRelevantShape(r: Json)
  {
    && r.JObj?
    && r.fields.Keys == {"config", "lights"}
    && r.fields["config"].JObj?
    && r.fields["config"].fields.Keys == {"UTC", "localtime", "timezone"}
  }

  /** `extract_relevant_data(api)`: a fresh dictionary built from five
      distinct reads of `api`; the first subscript that raises decides the
      exception and no partial result is returned. */
  function ExtractRelevantData(api: Json): (r: Result<Json>)
    ensures r.Ok? <==> HasRelevantFields(api)
    ensures r.Ok? ==> IsRelevantShape(r.value)
    ensures r.Err? ==>
      r.error in {TypeError, KeyError("config"), KeyError("UTC"),
                  KeyError("localtime"), KeyError("timezone"), KeyError("lights")}
  {
    var config :- Subscript(api, "config");
    var utc :- Subscript(config, "UTC");
    var localtime :- Subscript(config, "localtime");
    var timezone :- Subscript(config, "timezone");
    var lights :- Subscript(api, "lights");
    Ok(JObj(map[
      "config" := JObj(map["UTC" := utc, "localtime" := localtime, "timezone" := timezone]),
      "lights" := lights]))
  }

  /** Each clock field of the result is the same-named field of the input's `config`. */
  lemma ConfigFieldsCopied(api: Json)
    requires ExtractRelevantData(api).Ok?
    ensures var r := ExtractRelevantData(api).value;
      && Lookup(r, UtcPath) == Lookup(api, UtcPath)
      && Lookup(r, LocaltimePath) == Lookup(api, LocaltimePath)
      && Lookup(r, TimezonePath) == Lookup(api, TimezonePath)
  {
  }

  /** The result's `lights` is the input's `lights`, whatever it holds. */
  lemma LightsPassedThrough(api: Json)
    requires ExtractRelevantData(api).Ok?
    ensures api.JObj? && "lights" in api.fields
    ensures ExtractRelevantData(api).value.fields["lights"] == api.fields["lights"]
  {
  }

  /** Which exception is raised: the first failing read in evaluation order. */
  lemma FailsAtFirstFailingRead(api: Json)
    ensures !api.JObj? ==> ExtractRelevantData(api) == Err(TypeError)
    ensures api.JObj? && "config" !in api.fields ==>
      ExtractRelevantData(api) == Err(KeyError("config"))
    ensures api.JObj? && "config" in api.fields && !api.fields["config"].JObj? ==>
      ExtractRelevantData(api) == Err(TypeError)
    ensures Lookup(api, ["config"]).Ok? && Lookup(api, UtcPath) == Err(KeyError("UTC")) ==>
      ExtractRelevantData(api) == Err(KeyError("UTC"))
    ensures Lookup(api, UtcPath).Ok? && Lookup(api, LocaltimePath).Err? ==>
      ExtractRelevantData(api) == Err(KeyError("localtime"))
    ensures Lookup(api, UtcPath).Ok? && Lookup(api, LocaltimePath).Ok? && Lookup(api, TimezonePath).Err? ==>
      ExtractRelevantData(api) == Err(KeyError("timezone"))
    ensures HasConfigFields(api) && Lookup(api, LightsPath).Err? ==>
      ExtractRelevantData(api) == Err(KeyError("lights"))
  {
  }

  /** Everything outside the four read paths is discarded: inputs that agree
      on them give identical outcomes, success or exception. */
  lemma DependsOnlyOnReadPaths(a: Json, b: Json)
    requires AgreeOnReadPaths(a, b)
    ensures ExtractRelevantData(a) == ExtractRelevantData(b)
  {
  }

  /** Adding or changing a top-level field other than `config` and `lights`
      leaves the outcome unchanged. */
  lemma OtherTopLevelFieldsIgnored(fields: map<string, Json>, k: string, v: Json)
    requires k != "config" && k != "lights"
    ensures ExtractRelevantData(JObj(fields[k := v])) == ExtractRelevantData(JObj(fields))
  {
  }

  /** Adding or changing a `config` field other than the three clock fields
      leaves the outcome unchanged. */
  lemma OtherConfigFieldsIgnored(fields: map<string, Json>, config: map<string, Json>, k: string, v: Json)
    requires k != "UTC" && k != "localtime" && k != "timezone"
    ensures ExtractRelevantData(JObj(fields["config" := JObj(config[k := v])])) ==
            ExtractRelevantData(JObj(fields["config" := JObj(config)]))
  {
  }

  /** Extracting from a logged record gives back that same record. */
  lemma Idempotent(api: Json)
    requires ExtractRelevantData(api).Ok?
    ensures ExtractRelevantData(ExtractRelevantData(api).value) == ExtractRelevantData(api)
  {
  }

  /** Extraction is stateless: after `lights` is replaced in the input, the
      result carries the new `lights` and the same clock fields. */
  lemma ReflectsReplacedLights(fields: map<string, Json>, lights: Json)
    requires ExtractRelevantData(JObj(fields)).Ok?
    ensures
      var r := ExtractRelevantData(JObj(fields)).value;
      ExtractRelevantData(JObj(fields["lights" := lights])) == Ok(JObj(r.fields["lights" := lights]))
  {
    var r := ExtractRelevantData(JObj(fields)).value;
    var r' := ExtractRelevantData(JObj(fields["lights" := lights])).value;
    assert r'.fields == r.fields["lights" := lights];
  }
}
