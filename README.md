# scarf-java telemetry client, modelled in Dafny

This project models the core of `scarf-java`, a small Java client that sends telemetry events to Scarf. The core has two parts:

- **`JsonUtil`**: a minimal JSON encoder.
  - `toJsonProperties` writes a flat, ordered property map as a JSON object. Every non-null value becomes the JSON string of its `String.valueOf` text, and null stays `null`.
  - `toJson` is a general recursive encoder. It handles null, strings, numbers (non-finite `Double`/`Float` become `null`), booleans, maps (non-string keys are skipped), lists, arrays, and any other object as its quoted text.
  - Both encoders share `quote`, which escapes strings for JSON.
- **`ScarfEventLogger`**: the dispatch logic.
  - The constructor validates the endpoint, clamps the timeout, copies the environment, reads the `SCARF_VERBOSE` switch and builds the `User-Agent` once.
  - `logEvent` honours the `DO_NOT_TRACK` / `SCARF_NO_ANALYTICS` opt-outs. Otherwise it encodes the properties, builds a POST request, sends it, and reduces the outcome to a boolean: true exactly on a 2xx status.
  - In verbose mode, `logEvent` writes diagnostic lines to standard error.

Modules:

- `Wrappers`: `Option`, standing in for Java's nullable references.
- `Text`: the string operations of the JDK that the core relies on. These are `String.trim`, `isBlank` and `contains`, `toLowerCase(Locale.ROOT)` on ASCII, decimal printing of an `int`, and lower-case hex. `StartsWith` is not called by the core; the contracts use it to state prefixes, such as the user agent's `scarf-java/`.
- `Json`: the encoder.
  - The recursive definitions `Quote`, `PropertiesJson` and `ToJson` are functions.
  - The Java `StringBuilder` loops are methods (`QuoteString`, `ToJsonProperties`, `MapToJson`, `ListToJson`, `ArrayToJson`). Each is proved equal to the function that specifies it.
- `JsonReader`: the partner of the encoder.
  - A small JSON reader and the meaning `Decoded(v)` of each value.
  - Round-trip lemmas prove that reading back what the encoder writes gives that meaning and stops exactly where the value ends.
  - From the round trips follow injectivity of `quote` and of `toJson` up to meaning.
- `JsonExamples`: the encoder's documented behaviour on simple property maps.
- `EventLogger`: the switches, the timeout clamp, the user agent, and the `ScarfEventLogger` class.
  - The class has the constructor, the construction failures, and the `logEvent` overloads.
  - The request-sending body is modelled twice: once as written (`DispatchAsWritten`) and once corrected (`Dispatch`, used by `LogEvent` and `LogEventWithTimeout`); see Findings.

The JDK and the outside world are inputs:

- `System.getenv()` and the injected environment are a `map<string, string>`.
- `System.getProperty` and the package's implementation version are a `Host`. A `SysProp` is unset, set, or refused by a security manager.
- What the HTTP client does is a `Network`: whether the request builder accepts the endpoint URI, the message of a builder's exception, and the `Outcome` of `send`.
- What a call writes to standard error, the request it sends and whether it re-sets the thread's interrupt flag are returned as a `Trace`.

Two details of the code that are easy to misread:

- The last field of the user agent is `java=<version>`.
- A zero timeout is not an immediate deadline: the JDK builders reject it with an exception (see Findings).

## Model

| member | source | states |
|---|---|---|
| `Json.Escape` | src/main/java/sh/scarf/JsonUtil.java:102-117 | a char is copied alone exactly when it is not a control char, quote or backslash; otherwise it becomes an escape starting with a backslash; no escape contains a raw control char |
| `Json.EscapeTable` | src/main/java/sh/scarf/JsonUtil.java:103-116 | which escape each special char gets: `\\` for a backslash, `\"` for a quote, `\b`, `\f`, `\n`, `\r`, `\t` for the five named controls, and `\u00` with two lower-case hex digits of the code for every other char below U+0020 |
| `Json.Quote` | src/main/java/sh/scarf/JsonUtil.java:98-121 | the result is delimited by double quotes and holds no raw control char |
| `Json.QuoteString` | src/main/java/sh/scarf/JsonUtil.java:98-121 | the `StringBuilder` loop with its `switch` computes exactly `Quote(s)` |
| `Json.EscapeAllNoRawControl` | src/main/java/sh/scarf/JsonUtil.java:111-116 | escaping leaves no char below U+0020 in the output, whatever the input holds |
| `Json.EscapeAllPlain` | src/main/java/sh/scarf/JsonUtil.java:111-116 | a text without quote, backslash or control chars is copied unchanged |
| `Json.ValueText` | src/main/java/sh/scarf/JsonUtil.java:36-41 | a null, boolean or finite number's text is what `toJson` writes for it, and a string's or other object's text is what `toJson` then quotes |
| `Json.PropertiesJson` | src/main/java/sh/scarf/JsonUtil.java:27-45 | the object is delimited by braces, and it is `{}` exactly when the property map is empty |
| `Json.ToJsonProperties` | src/main/java/sh/scarf/JsonUtil.java:27-45 | the loop with its `first` flag writes exactly the comma-joined member texts in braces, `PropertiesJson(props)` |
| `Json.NumberToJson` | src/main/java/sh/scarf/JsonUtil.java:47-57 | NaN or infinite `Double`/`Float` give `null`; every other number gives its `toString` text |
| `Json.TextEntries` | src/main/java/sh/scarf/JsonUtil.java:63-64 | keeps exactly the entries with a string key: none is invented, every string-keyed entry is kept, and a map whose keys are all strings is kept whole |
| `Json.TextEntriesSnoc` | src/main/java/sh/scarf/JsonUtil.java:62-69 | iteration order is preserved: an entry appended to the map is appended to the kept entries exactly when its key is a string |
| `Json.ToJson` | src/main/java/sh/scarf/JsonUtil.java:11-21 | a map encodes in braces, `{}` when it has no string key; a list or array encodes in brackets, `[]` when empty; a string or other object encodes as a double-quoted literal |
| `Json.MapToJson` | src/main/java/sh/scarf/JsonUtil.java:59-73 | the loop that skips non-string keys and writes commas only between written members equals `ToJson(Obj(entries))` |
| `Json.ElementsToJson` | src/main/java/sh/scarf/JsonUtil.java:75-96 | the indexed loop writes the elements' encodings in index order, comma-separated, in brackets |
| `Json.ListToJson` | src/main/java/sh/scarf/JsonUtil.java:75-84 | `listToJson` equals `ToJson(Lst(items))` |
| `Json.ArrayToJson` | src/main/java/sh/scarf/JsonUtil.java:86-96 | `arrayToJson` equals `ToJson(Arr(items))` and an array encodes exactly as the list of its elements |
| `JsonReader.ReadQuoted` | src/main/java/sh/scarf/JsonUtil.java:98-121 | reading back `quote(s)` followed by anything gives the string `s` and stops right after the closing quote |
| `JsonReader.ReadEscaped` | src/main/java/sh/scarf/JsonUtil.java:101-118 | the escaped body of a string literal reads back as the original chars, up to the closing quote |
| `JsonReader.QuoteInjective` | src/main/java/sh/scarf/JsonUtil.java:98-121 | different strings never get the same JSON literal |
| `JsonReader.ReadToJson` | src/main/java/sh/scarf/JsonUtil.java:11-21 | reading back `toJson(v)` gives `Decoded(v)`: null and non-finite numbers as `null`, maps as objects of their string-keyed entries in order, lists and arrays as arrays, other objects as their text; reading stops at the delimiter after the value |
| `JsonReader.ReadEntries` | src/main/java/sh/scarf/JsonUtil.java:59-73 | a map's encoding reads back as the object of its string-keyed entries, in iteration order |
| `JsonReader.ReadItems` | src/main/java/sh/scarf/JsonUtil.java:75-96 | a list's or an array's encoding reads back as the array of its elements' meanings |
| `JsonReader.ReadScalar` | src/main/java/sh/scarf/JsonUtil.java:12-15 | null, booleans and numbers read back as the literal or number token they stand for |
| `JsonReader.ReadObject` | src/main/java/sh/scarf/JsonUtil.java:59-73 | braces around comma-joined `"key":value` members read back as the object of those keys and values, in order |
| `JsonReader.ReadArray` | src/main/java/sh/scarf/JsonUtil.java:75-84 | brackets around comma-joined values read back as the array of those values, in order |
| `JsonReader.ReadPropertiesJson` | src/main/java/sh/scarf/JsonUtil.java:27-45 | the output of `toJsonProperties` reads back as an object with the property names in map order, each value `null` or the value's text as a JSON string |
| `JsonReader.ToJsonDetermines` | src/main/java/sh/scarf/JsonUtil.java:11-21 | two values that `toJson` writes the same way have the same JSON meaning |
| `JsonExamples.EmptyProperties` | src/test/java/com/scarf/JsonUtilTest.java:11-14 | an empty property map is written `{}` |
| `JsonExamples.QuotePlainText` | src/main/java/sh/scarf/JsonUtil.java:98-121 | a text with no quote, backslash or control char is quoted as itself between double quotes |
| `JsonExamples.PlainProperties` | src/test/java/com/scarf/JsonUtilTest.java:17-33 | with plain names and value texts and no null, each property is written `"name":"text"` in map order, numbers and booleans included as quoted text |
| `JsonExamples.PlainMember` | src/main/java/sh/scarf/JsonUtil.java:34-40 | a property with a plain name and a plain non-null value text is written `"name":"text"` |
| `JsonExamples.OneProperty` | src/main/java/sh/scarf/JsonUtil.java:27-45 | a one-property map is written as its quoted name, a colon and its quoted text, in braces, with no comma |
| `JsonExamples.ToStringConversion` | src/test/java/com/scarf/JsonUtilTest.java:26-33 | the map `a=1, b=true, c=12.5` is written `{"a":"1","b":"true","c":"12.5"}` |
| `JsonExamples.StringEscaping` | src/test/java/com/scarf/JsonUtilTest.java:36-41 | the map from `s` to `a"b\c` plus a newline is written `{"s":"a\"b\\c\n"}`: quote, backslash and newline escaped, exactly as the test expects |
| `JsonExamples.UnitSeparatorEscape` | src/main/java/sh/scarf/JsonUtil.java:112-113 | U+001F, a control char with no named escape, is written `\u001f` |
| `EventLogger.IsTruthy` | src/main/java/sh/scarf/ScarfEventLogger.java:121-125 | only a set, non-blank value can be truthy |
| `EventLogger.Disabled` | src/main/java/sh/scarf/ScarfEventLogger.java:117-119 | sending is disabled only when `DO_NOT_TRACK` or `SCARF_NO_ANALYTICS` is set |
| `EventLogger.Verbose` | src/main/java/sh/scarf/ScarfEventLogger.java:48 | verbose mode is on only when `SCARF_VERBOSE` is set |
| `EventLogger.IsTruthyIgnoresPadding` | src/main/java/sh/scarf/ScarfEventLogger.java:121-125 | chars up to U+0020 around a value never change whether it is truthy |
| `EventLogger.IsTruthyIgnoresCase` | src/main/java/sh/scarf/ScarfEventLogger.java:121-125 | letter case never changes whether a value is truthy |
| `EventLogger.TruthyExamples` | src/main/java/sh/scarf/ScarfEventLogger.java:121-125 | `"1"` and `" Yes\n"` are truthy |
| `EventLogger.UntruthyExamples` | src/main/java/sh/scarf/ScarfEventLogger.java:121-125 | an unset variable, `"0"` and `"false"` are not truthy |
| `EventLogger.DoNotTrackDisables` | src/main/java/sh/scarf/ScarfEventLogger.java:117-119 | a truthy `DO_NOT_TRACK` disables sending whatever else is set |
| `EventLogger.SwitchesAreIndependent` | src/main/java/sh/scarf/ScarfEventLogger.java:48 | `SCARF_VERBOSE` does not affect the opt-out, and no other variable affects verbosity |
| `EventLogger.ClampMillis` | src/main/java/sh/scarf/ScarfEventLogger.java:46 | the clamped timeout is never negative and is either 0 or the input |
| `EventLogger.ClampMillisProperties` | src/main/java/sh/scarf/ScarfEventLogger.java:64 | clamping keeps non-negative timeouts, sends the rest to 0, and is idempotent and monotone |
| `EventLogger.OrUnknown` | src/main/java/sh/scarf/ScarfEventLogger.java:152-156 | a blank architecture or Java version becomes exactly `unknown`, a non-blank one is kept as it is, and the result is never blank |
| `EventLogger.Platform` | src/main/java/sh/scarf/ScarfEventLogger.java:139-150 | the platform name is `macOS`, `linux`, `windows`, `unknown` or the lower-cased OS name, and is never blank |
| `EventLogger.UserAgent` | src/main/java/sh/scarf/ScarfEventLogger.java:127-164 | the user agent starts with `scarf-java/`; when any system property is refused, it is just `scarf-java/` and the version (`dev` when absent) |
| `EventLogger.PlatformTag` | src/main/java/sh/scarf/ScarfEventLogger.java:158-163 | whatever precedes it and whatever details follow, the opened parenthesis contains `(platform=` |
| `EventLogger.BuildUserAgent` | src/main/java/sh/scarf/ScarfEventLogger.java:127-164 | the method with its reassigned locals computes `UserAgent(host)` |
| `EventLogger.UserAgentPrefix` | src/main/java/sh/scarf/ScarfEventLogger.java:128-135 | the user agent starts with `scarf-java/` and the version, `scarf-java/dev` when the package has none |
| `EventLogger.UserAgentNamesPlatform` | src/main/java/sh/scarf/ScarfEventLogger.java:137-163 | when the system properties can be read, the user agent contains `(platform=` |
| `EventLogger.PlatformIsNormal` | src/main/java/sh/scarf/ScarfEventLogger.java:139-150 | the platform name has no upper-case letter unless it is `macOS` |
| `EventLogger.PlatformIgnoresCase` | src/main/java/sh/scarf/ScarfEventLogger.java:141 | the platform name does not depend on the OS name's letter case |
| `EventLogger.PlatformIdempotent` | src/main/java/sh/scarf/ScarfEventLogger.java:139-150 | normalising a platform name a second time changes nothing |
| `EventLogger.PlatformOfMacOS` | src/main/java/sh/scarf/ScarfEventLogger.java:142-143 | `macOS` normalises to itself |
| `EventLogger.PlatformOfLinux` | src/main/java/sh/scarf/ScarfEventLogger.java:144-145 | `linux` normalises to itself |
| `EventLogger.PlatformOfWindows` | src/main/java/sh/scarf/ScarfEventLogger.java:146-147 | `windows` normalises to itself |
| `EventLogger.PlatformOfUnknown` | src/main/java/sh/scarf/ScarfEventLogger.java:148-149 | `unknown` normalises to itself |
| `EventLogger.ScarfEventLogger.constructor` | src/main/java/sh/scarf/ScarfEventLogger.java:42-50 | a valid endpoint is kept; the timeout is clamped; a null environment becomes the empty map and any other is copied; verbosity comes from `SCARF_VERBOSE`; the user agent is `UserAgent(host)` |
| `EventLogger.ScarfEventLogger.Create` | src/main/java/sh/scarf/ScarfEventLogger.java:42-50 | construction fails exactly for a null endpoint (`NullEndpoint`) or a blank one (`BlankEndpoint`); otherwise it gives a fresh logger with those fields |
| `EventLogger.ScarfEventLogger.CreateDefault` | src/main/java/sh/scarf/ScarfEventLogger.java:28-30 | the one-argument constructor fails with `NullEndpoint` or `BlankEndpoint` exactly as `Create` does; otherwise it gives a fresh logger that keeps the endpoint, uses a 3000 ms timeout and the process environment, and has the user agent `UserAgent(host)` |
| `EventLogger.ScarfEventLogger.Deliver` | src/main/java/sh/scarf/ScarfEventLogger.java:93-114 | a sent request succeeds exactly on a 2xx status; verbose mode adds one line for the status and body or for the failure message; the interrupt flag is re-set exactly on `InterruptedException` |
| `EventLogger.OutcomeNoteKind` | src/main/java/sh/scarf/ScarfEventLogger.java:97-112 | the verbose outcome line starts with `Scarf response status=` exactly for a response, with `Scarf request failed: ` for an `IOException` or `InterruptedException`, and with `Scarf request error: ` for a `RuntimeException` |
| `EventLogger.ScarfEventLogger.DispatchAsWritten` | src/main/java/sh/scarf/ScarfEventLogger.java:68-115 | as written: disabled gives false and sends nothing; with tracking enabled, a zero timeout or a rejected URI throws out of `logEvent` before anything is sent; otherwise the result is the 2xx test of the answer to the request built from the endpoint, the timeout, the JSON content type, the user agent and `PropertiesJson(props)`; the interrupt flag is re-set only on interruption; no diagnostics unless verbose; in verbose mode the disabled notice, or the payload and user-agent lines (written before a builder can throw) followed, when the request was sent, by the outcome line |
| `EventLogger.ScarfEventLogger.Dispatch` | src/main/java/sh/scarf/ScarfEventLogger.java:68-115 | on a logger whose fields agree with its environment: never throws; true exactly when tracking is enabled, the request can be built and the status is 2xx; the exact request sent; the interrupt flag re-set only on interruption; no diagnostics unless `SCARF_VERBOSE` is truthy; in verbose mode the disabled notice, or the payload, user-agent and outcome lines in that order |
| `EventLogger.ScarfEventLogger.LogEvent` | src/main/java/sh/scarf/ScarfEventLogger.java:56-58 | sends with the default timeout: true exactly when tracking is enabled, the timeout is positive, the endpoint is accepted and the status is 2xx; a request is sent exactly when tracking is enabled and it can be built, and it is the POST to the endpoint with the default timeout, the JSON content type, the user agent and `toJsonProperties` of the properties (a null map written as `{}`); the interrupt flag is re-set only on interruption; no diagnostics unless `SCARF_VERBOSE` is truthy; in verbose mode the disabled notice, or the payload, user-agent and outcome lines in that order |
| `EventLogger.ScarfEventLogger.LogEventWithTimeout` | src/main/java/sh/scarf/ScarfEventLogger.java:63-66 | the same promises as `LogEvent`, with the per-call timeout clamped at 0 in place of the default one: a timeout of 0 or less sends nothing and gives false |
| `EventLogger.ScarfEventLogger.LogEventAsWritten` | src/main/java/sh/scarf/ScarfEventLogger.java:56-58 | as written, with the default timeout: disabled gives false and sends nothing; a zero timeout or a rejected endpoint throws `IllegalArgumentException` and sends nothing; otherwise it sends the POST to the endpoint with the default timeout, the JSON content type, the user agent and `toJsonProperties` of the properties, and is true exactly on a 2xx answer; the interrupt flag and the verbose lines are as in `DispatchAsWritten` |
| `EventLogger.ScarfEventLogger.LogEventWithTimeoutAsWritten` | src/main/java/sh/scarf/ScarfEventLogger.java:63-66 | as written, with a per-call timeout: disabled gives false and sends nothing; a timeout of 0 or less or a rejected endpoint throws and sends nothing; otherwise it sends the request with that timeout and the properties\' JSON, and is true exactly on a 2xx answer; the interrupt flag and the verbose lines are as in `DispatchAsWritten` |

## Left out

- Conversion of seconds to milliseconds: `(long) (seconds * 1000)` on a `double` is not modelled. The timeout enters the model as the already truncated millisecond count (an `int`). Floating point, NaN and the `long` saturation of that cast are not covered.
- The HTTP client, `URI.create` and the request builders are an input (`Network`). The model does not cover socket behaviour, the actual effect of the connect and request deadlines, or header validation by the JDK.
- Standard error is modelled as the returned list of diagnostic lines, and the thread's interrupt flag as a returned boolean. Concurrency between callers is not modelled. Every field is immutable after construction.
- `System.getenv`, `System.getProperty` and `Package.getImplementationVersion` are inputs (`Host`). A `Throwable` from reading the version is folded into an absent version. A `SecurityException` from any system property is `Denied` and drops the whole parenthesised part.
- `Number.toString` and `String.valueOf` are not modelled. A number carries its own `toString` text. The text of maps, lists, arrays and other objects is a caller-supplied `Display` function.
- Arrays of any component type, read through reflection, are modelled as sequences of values. Primitive boxing is not distinguished.
- Maps are sequences of entries in iteration order. Key uniqueness is not enforced. Null keys and null values in the environment map are not modelled.
- `toLowerCase(Locale.ROOT)` is modelled on ASCII letters only. Non-ASCII OS names and environment values may lower-case differently in Java.
- Chars are Unicode scalar values; UTF-16 surrogate code units are not modelled separately.
- `JsonReader` accepts only the compact form the encoder writes, and takes a number to be the longest run of number chars.
- `JsonReader.ReadToJson` requires that every finite number's `toString` text is made of digits, signs, points and exponent marks (`NumbersWellFormed`). Numbers such as `BigDecimal` text always are; a user-defined `Number` subclass need not be.
- `Json.MapToJson`, `Json.ListToJson` and `Json.ArrayToJson` encode nested values with the `ToJson` function rather than by calling back into a method.
- The `simpleMap` test of `JsonUtilTest` is covered by `JsonExamples.PlainProperties` for all plain inputs, not as its literal instance. The other three tests are proved as literal instances (`EmptyProperties`, `ToStringConversion`, `StringEscaping`).
- Null keys in a property map: `quote(null)` dereferences the null key inside `toJsonProperties` and throws, and since that call precedes the `try` of `logEvent`, the exception escapes it. A `Property` name is always a string, so the model has no such input.
- Self-containing maps and lists: `toJson` on a map or list that contains itself recurses until `StackOverflowError`. `Value` is an inductive datatype, so every modelled value is finite and acyclic.
- EventLogger.ScarfEventLogger.LogEvent: models the corrected dispatch, so a zero timeout or an endpoint the request builder rejects gives false where the source throws `IllegalArgumentException`; the behaviour as written is `LogEventAsWritten` (see Findings).
- EventLogger.ScarfEventLogger.LogEventWithTimeout: models the corrected dispatch in the same way; the behaviour as written is `LogEventWithTimeoutAsWritten`.

## Findings

| source | as written | input that shows it | evidently intended | confidence | as-written member | corrected member |
|---|---|---|---|---|---|---|
| src/main/java/sh/scarf/ScarfEventLogger.java:46-91 | the timeout is clamped with `Math.max(0, …)`, so it can be zero. `HttpClient.Builder.connectTimeout` and `HttpRequest.Builder.timeout` reject a non-positive duration with `IllegalArgumentException`, and both builders run before the `try`, so `logEvent` throws | `new ScarfEventLogger(url, 0.0, emptyMap)` then `logEvent(props)`, or `logEvent(props, 0.0)`, or any timeout below 0.001 s, with no opt-out variable set | `logEvent` reports every failure as `false` and never throws (its handlers and its boolean result say so) | high, not executed | `EventLogger.ScarfEventLogger.DispatchAsWritten` | `EventLogger.ScarfEventLogger.Dispatch` |
| src/main/java/sh/scarf/ScarfEventLogger.java:85-86 | the constructor accepts any non-blank endpoint. `URI.create` and `HttpRequest.Builder.uri` throw `IllegalArgumentException` for a malformed URI or a scheme other than http/https, again before the `try` | `new ScarfEventLogger("not a url")` or `new ScarfEventLogger("ftp://host/")`, then `logEvent(props)` with no opt-out variable set | either the constructor rejects such an endpoint, or `logEvent` returns `false` for it | medium, not executed | `EventLogger.ScarfEventLogger.DispatchAsWritten` | `EventLogger.ScarfEventLogger.Dispatch` |
