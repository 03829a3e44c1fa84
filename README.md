# hue-log: the logging projection of the bridge API

`hue_log` connects to a Philips Hue bridge, fetches its full API dictionary
once, reduces it with `extract_relevant_data` to the part worth logging and
writes that as one JSON line to standard output. This project models the
reduction. `extract_relevant_data` builds a new dictionary
`{"config": {"UTC", "localtime", "timezone"}, "lights": ...}` from five
distinct reads of its argument, and it raises instead of returning when a read fails.

- `json.dfy` (module `Json`): decoded JSON values (`Json`), the two exceptions a
  Python string subscript can raise (`KeyError(key)` on a dict without the key,
  `TypeError` on anything that is not a dict), a `Result` carrying a value or
  the exception, `Subscript` for `v[key]` and `Lookup` for a chain
  `v[k1][k2]...`. `Subscript` is the model of Python's subscript on decoded
  JSON: a dict holding `key` gives its entry, a dict without it raises
  `KeyError(key)`, and a list, string, number, boolean or null raises
  `TypeError`.
- `hue_log.dfy` (module `HueLog`): `ExtractRelevantData` and the lemmas that
  say what it keeps, what it copies, when it fails and with which exception,
  and what it ignores.

The extractor is written in the order Python evaluates the dictionary literal:
`config.UTC`, `config.localtime`, `config.timezone`, then `lights`. The first
read that raises decides the exception, and there is no partial result. The
source reads `api['config']` three times. The model reads it once, which gives
the same value because nothing changes `api` in between.

The program fetches once and writes once (hue_log/__main__.py:73-77). It has
no polling, retry or change detection.

## Model

| member | source | states |
|---|---|---|
| `Json.LookupAppend` | hue_log/__main__.py:64-66 | reading a chained subscript path `p + q` is reading `p` and then `q` from what was found, and an exception on `p` stops the chain |
| `Json.LookupTwo` | hue_log/__main__.py:64-66 | `api[k1][k2]` as a path read equals a subscript of a subscript, with the first exception propagated |
| `HueLog.ExtractRelevantData` | hue_log/__main__.py:52-70 | succeeds exactly when all four read paths succeed. On success the result is an object with key set exactly {config, lights}, and its config has key set exactly {UTC, localtime, timezone}. On failure the exception is `TypeError` or a `KeyError` for one of the five keys read |
| `HueLog.ConfigFieldsCopied` | hue_log/__main__.py:63-67 | on success, each of the result's `config.UTC`, `config.localtime` and `config.timezone` equals the same-named field of the input's `config` |
| `HueLog.LightsPassedThrough` | hue_log/__main__.py:68 | on success, the result's `lights` equals the input's `lights` unchanged, whatever it contains |
| `HueLog.FailsAtFirstFailingRead` | hue_log/__main__.py:62-68 | gives the exact exception: `TypeError` when `api` or its `config` is not a dict, and `KeyError` for `config`, `UTC`, `localtime`, `timezone` or `lights`, whichever read fails first in evaluation order |
| `HueLog.DependsOnlyOnReadPaths` | hue_log/__main__.py:55-69 | two inputs that give the same outcome on the four read paths give the same outcome, whatever else they carry |
| `HueLog.OtherTopLevelFieldsIgnored` | hue_log/__main__.py:62-69 | adding or changing any top-level field other than `config` and `lights` leaves the outcome unchanged |
| `HueLog.OtherConfigFieldsIgnored` | hue_log/__main__.py:63-67 | adding or changing any `config` field other than the three clock fields leaves the outcome unchanged |
| `HueLog.Idempotent` | hue_log/__main__.py:62-70 | extracting from a successful result succeeds and returns that same result |
| `HueLog.ReflectsReplacedLights` | hue_log/__main__.py:62-70 | extraction keeps no state. After the input's `lights` is replaced, the result holds the new `lights` and the same clock fields |

## Left out

- `get_bridge` (hue_log/__main__.py:30-49) is left out. It reads the `BRIDGE_IP` environment variable, pairs with the bridge through the `phue` library, writes to standard error and exits. All of this is I/O and foreign code.
- The module-level script (hue_log/__main__.py:73-77) is left out. `bridge.get_api()` is a network call into `phue`, `json.dumps` is library serialisation with no key-ordering promise, and the write to standard output is plain output.
- JSON numbers are opaque payload (`JNum` keeps the literal text). The extractor never computes with them, so floating-point values in light states are not modelled.
- Aliasing is not modelled. In Python the result's `lights` is the same object as the input's `lights`, so a later in-place mutation of one shows in the other. Dafny values are immutable, so the model can state only that the input is unchanged and that the result depends on nothing but the argument. Both hold by construction.
- Non-string dictionary keys are not modelled. Decoded JSON objects have string keys only.
