/**
 * The dispatch logic of the telemetry client (`ScarfEventLogger`): endpoint
 * validation, timeout clamping, the opt-out and verbosity switches read from
 * the environment, the user agent, and how one event is sent and how its
 * outcome becomes the boolean result.
 *
 * Everything the JDK supplies is an input here: the environment map, the
 * system properties and package version (`Host`), and what the HTTP client
 * and the remote end do with the request (`Network`). Lines written to
 * standard error are returned as a list of diagnostics.
 */
module EventLogger {
  import opened Wrappers
  import opened Text
  import opened Json

  // ---------------------------------------------------------------------------
  // Environment switches

  /** `env.get(name)`: the value, or none when the variable is not set. */
  function Lookup(env: map<string, string>, name: string): (r: Option<string>)
    ensures r.Some? <==> name in env
    ensures r.Some? ==> r.value == env[name]
  {
    if name in env then Some(env[name]) else None
  }

  /** The words that switch a flag on, once trimmed and lower-cased. */
  predicate IsTruthyWord(s: string)
  {
    s == "1" || s == "true" || s == "yes" || s == "on"
  }

  /**
   * `isTruthy`: an unset variable is false; a set one is true when its trimmed,
   * lower-cased value is a truthy word. A truthy value is never blank.
   */
  predicate IsTruthy(v: Option<string>)
    ensures IsTruthy(v) ==> v.Some? && !IsBlank(v.value)
  {
    v.Some? && IsTruthyWord(AsciiLower(Trim(v.value)))
  }

  /** `isDisabled`: either opt-out variable is truthy; an environment setting neither never disables. */
  predicate Disabled(env: map<string, string>)
    ensures Disabled(env) ==> "DO_NOT_TRACK" in env || "SCARF_NO_ANALYTICS" in env
  {
    IsTruthy(Lookup(env, "DO_NOT_TRACK")) || IsTruthy(Lookup(env, "SCARF_NO_ANALYTICS"))
  }

  /** The `verbose` field: `SCARF_VERBOSE` is truthy; an environment without it is quiet. */
  predicate Verbose(env: map<string, string>)
    ensures Verbose(env) ==> "SCARF_VERBOSE" in env
  {
    IsTruthy(Lookup(env, "SCARF_VERBOSE"))
  }

  /** Padding up to U+0020 around a value never changes whether it is truthy. */
  lemma IsTruthyIgnoresPadding(pre: string, s: string, post: string)
    requires AllTrimmable(pre) && AllTrimmable(post)
    ensures IsTruthy(Some(pre + s + post)) == IsTruthy(Some(s))
  {
    TrimIgnoresPadding(pre, s, post);
  }

  /** Letter case never changes whether a value is truthy. */
  lemma IsTruthyIgnoresCase(s: string)
    ensures IsTruthy(Some(AsciiLower(s))) == IsTruthy(Some(s))
  {
    TrimLowerCommute(s);
    AsciiLowerIsLower(Trim(s));
  }

  /** `"1"` is truthy; so is `" Yes\n"`, whatever the padding and case. */
  lemma TruthyExamples()
    ensures IsTruthy(Some("1"))
    ensures IsTruthy(Some(" Yes\n"))
  {
    TrimUnpadded("1");
    assert AsciiLower("1") == "1";
    TrimUnpadded("Yes");
    assert AsciiLower("Yes") == "yes";
    assert " " + "Yes" + "\n" == " Yes\n";
    IsTruthyIgnoresPadding(" ", "Yes", "\n");
  }

  /** An unset variable is not truthy, and neither are `"0"` and `"false"`. */
  lemma UntruthyExamples()
    ensures !IsTruthy(None)
    ensures !IsTruthy(Some("0")) && !IsTruthy(Some("false"))
  {
    TrimUnpadded("0");
    assert AsciiLower("0") == "0";
    TrimUnpadded("false");
    assert AsciiLower("false") == "false";
  }

  /** Setting `DO_NOT_TRACK` to a truthy value disables sending, whatever else is set. */
  lemma DoNotTrackDisables(env: map<string, string>, v: string)
    requires IsTruthy(Some(v))
    ensures Disabled(env["DO_NOT_TRACK" := v])
  {
  }

  /** The opt-out ignores `SCARF_VERBOSE`, and verbosity reads nothing else. */
  lemma SwitchesAreIndependent(env: map<string, string>, name: string, v: string)
    ensures Disabled(env["SCARF_VERBOSE" := v]) == Disabled(env)
    ensures name != "SCARF_VERBOSE" ==> Verbose(env[name := v]) == Verbose(env)
  {
    assert Lookup(env["SCARF_VERBOSE" := v], "DO_NOT_TRACK") == Lookup(env, "DO_NOT_TRACK");
    assert Lookup(env["SCARF_VERBOSE" := v], "SCARF_NO_ANALYTICS") == Lookup(env, "SCARF_NO_ANALYTICS");
    if name != "SCARF_VERBOSE" {
      assert Lookup(env[name := v], "SCARF_VERBOSE") == Lookup(env, "SCARF_VERBOSE");
    }
  }

  // ---------------------------------------------------------------------------
  // Timeouts

  /** `Math.max(0, ms)`: the timeout in milliseconds, never negative. */
  function ClampMillis(ms: int): (r: nat)
    ensures r >= ms
    ensures r == 0 || r == ms
  {
    if ms < 0 then 0 else ms
  }

  /** Clamping keeps every non-negative timeout, sends every other one to 0, and is idempotent and monotone. */
  lemma ClampMillisProperties(a: int, b: int)
    ensures a >= 0 ==> ClampMillis(a) == a
    ensures a <= 0 ==> ClampMillis(a) == 0
    ensures ClampMillis(ClampMillis(a)) == ClampMillis(a)
    ensures a <= b ==> ClampMillis(a) <= ClampMillis(b)
  {
  }

  // ---------------------------------------------------------------------------
  // User agent

  /** A system property as `System.getProperty` sees it: unset, set, or refused by a security manager. */
  datatype SysProp = Unset | Set(value: string) | Denied

  /** What `buildUserAgent` reads from the running JVM. */
  datatype Host = Host(version: Option<string>, osName: SysProp, osArch: SysProp, javaVersion: SysProp)

  /** `System.getProperty(name, "unknown")` for a property that was readable. */
  function PropertyOrUnknown(p: SysProp): string
    requires !p.Denied?
  {
    if p.Set? then p.value else "unknown"
  }

  /** A blank text replaced by `"unknown"`. */
  function OrUnknown(s: string): (r: string)
    ensures !IsBlank(r)
    ensures IsBlank(s) ==> r == "unknown"
    ensures !IsBlank(s) ==> r == s
  {
    if IsBlank(s) then (assert !IsJavaWhitespace("unknown"[0]); "unknown") else s
  }

  /** The platform name: the first of `mac`, `linux`, `windows` found in the lower-cased OS name, else that name, else `unknown`. */
  function Platform(osName: string): (r: string)
    ensures r == "macOS" || r == "linux" || r == "windows" || r == "unknown" || r == AsciiLower(osName)
    ensures !IsBlank(r)
  {
    var lower := AsciiLower(osName);
    assert !IsJavaWhitespace("macOS"[0]) && !IsJavaWhitespace("linux"[0]) && !IsJavaWhitespace("windows"[0]);
    if Contains(lower, "mac") then "macOS"
    else if Contains(lower, "linux") then "linux"
    else if Contains(lower, "windows") then "windows"
    else OrUnknown(lower)
  }

  /** The part in parentheses, absent when a system property could not be read. */
  function Extra(host: Host): string
  {
    if host.osName.Denied? || host.osArch.Denied? || host.javaVersion.Denied? then ""
    else " (platform=" + HostDetails(host)
  }

  /** What follows `platform=`: the platform, the architecture and the Java version, closed by `)`. */
  function HostDetails(host: Host): string
    requires !host.osName.Denied? && !host.osArch.Denied? && !host.javaVersion.Denied?
  {
    Platform(PropertyOrUnknown(host.osName))
    + "; arch=" + OrUnknown(PropertyOrUnknown(host.osArch))
    + ", java=" + OrUnknown(PropertyOrUnknown(host.javaVersion)) + ")"
  }

  /**
   * The `User-Agent` header value: `scarf-java/` and the version, then the
   * parenthesised details unless a system property could not be read.
   */
  function UserAgent(host: Host): (r: string)
    ensures StartsWith(r, "scarf-java/")
    ensures host.osName.Denied? || host.osArch.Denied? || host.javaVersion.Denied?
            ==> r == "scarf-java/" + host.version.GetOr("dev")
  {
    "scarf-java/" + host.version.GetOr("dev") + Extra(host)
  }

  /** `buildUserAgent`, with its locals reassigned as the Java code does. */
  method BuildUserAgent(host: Host) returns (ua: string)
    ensures ua == UserAgent(host)
  {
    var baseVersion := "dev";
    if host.version.Some? {
      baseVersion := host.version.value;
    }
    var extra := "";
    if !host.osName.Denied? && !host.osArch.Denied? && !host.javaVersion.Denied? {
      var lower := AsciiLower(PropertyOrUnknown(host.osName));
      var platformName;
      if Contains(lower, "mac") {
        platformName := "macOS";
      } else if Contains(lower, "linux") {
        platformName := "linux";
      } else if Contains(lower, "windows") {
        platformName := "windows";
      } else {
        platformName := if IsBlank(lower) then "unknown" else lower;
      }
      var arch := PropertyOrUnknown(host.osArch);
      if IsBlank(arch) {
        arch := "unknown";
      }
      var jver := PropertyOrUnknown(host.javaVersion);
      if IsBlank(jver) {
        jver := "unknown";
      }
      assert platformName == Platform(PropertyOrUnknown(host.osName));
      extra := " (platform=" + (platformName + "; arch=" + arch + ", java=" + jver + ")");
    }
    ua := "scarf-java/" + baseVersion + extra;
  }

  /** The user agent always starts with `scarf-java/` and the version, `dev` when the package has none. */
  lemma UserAgentPrefix(host: Host)
    ensures StartsWith(UserAgent(host), "scarf-java/" + host.version.GetOr("dev"))
    ensures host.version.None? ==> StartsWith(UserAgent(host), "scarf-java/dev")
  {
    var base := "scarf-java/" + host.version.GetOr("dev");
    assert UserAgent(host) == base + Extra(host);
    assert (base + Extra(host))[..|base|] == base;
  }

  /** Whenever the system properties could be read, the user agent carries `(platform=`. */
  lemma UserAgentNamesPlatform(host: Host)
    requires !host.osName.Denied? && !host.osArch.Denied? && !host.javaVersion.Denied?
    ensures Contains(UserAgent(host), "(platform=")
  {
    var base := "scarf-java/" + host.version.GetOr("dev");
    assert UserAgent(host) == base + (" (platform=" + HostDetails(host));
    PlatformTag(base, HostDetails(host));
  }

  /** The `(platform=` tag is found after any base text. */
  lemma PlatformTag(base: string, details: string)
    ensures Contains(base + (" (platform=" + details), "(platform=")
  {
    assert " (platform=" == " " + "(platform=";
    AppendAssoc(" ", "(platform=", details);
    AppendAssoc(base, " ", "(platform=" + details);
    AppendAssoc(base + " ", "(platform=", details);
    ContainsMiddle(base + " ", "(platform=", details);
  }

  /** The platform name is lower-case unless it is `macOS`. */
  lemma PlatformIsNormal(osName: string)
    ensures Platform(osName) != "macOS" ==> forall i :: 0 <= i < |Platform(osName)| ==> !IsUpperAscii(Platform(osName)[i])
  {
    var lower := AsciiLower(osName);
    AsciiLowerIsLower(osName);
  }

  lemma PlatformOfMacOS()
    ensures Platform("macOS") == "macOS"
  {
    assert AsciiLower("macOS") == "macos";
    ContainsAt("macos", "mac", 0);
  }

  lemma PlatformOfLinux()
    ensures Platform("linux") == "linux"
  {
    assert AsciiLower("linux") == "linux";
    NotContains("linux", "mac");
    ContainsAt("linux", "linux", 0);
  }

  lemma PlatformOfWindows()
    ensures Platform("windows") == "windows"
  {
    assert AsciiLower("windows") == "windows";
    NotContains("windows", "mac");
    NotContains("windows", "linux");
    ContainsAt("windows", "windows", 0);
  }

  lemma PlatformOfUnknown()
    ensures Platform("unknown") == "unknown"
  {
    assert AsciiLower("unknown") == "unknown";
    NotContains("unknown", "mac");
    NotContains("unknown", "linux");
    NotContains("unknown", "windows");
    assert !IsJavaWhitespace("unknown"[0]);
  }

  /** The platform name ignores letter case. */
  lemma PlatformIgnoresCase(osName: string)
    ensures Platform(AsciiLower(osName)) == Platform(osName)
  {
    AsciiLowerIsLower(osName);
  }

  /** Normalising a platform name a second time changes nothing. */
  lemma PlatformIdempotent(osName: string)
    ensures Platform(Platform(osName)) == Platform(osName)
  {
    var lower := AsciiLower(osName);
    if Contains(lower, "mac") {
      PlatformOfMacOS();
    } else if Contains(lower, "linux") {
      PlatformOfLinux();
    } else if Contains(lower, "windows") {
      PlatformOfWindows();
    } else if IsBlank(lower) {
      PlatformOfUnknown();
    } else {
      AsciiLowerIsLower(osName);
      assert Platform(osName) == lower;
    }
  }

  // ---------------------------------------------------------------------------
  // Sending one event

  /** What the HTTP client reported for a request it sent. */
  datatype Outcome =
    | Response(code: int, body: Option<string>)  // a status line arrived; the body may be null
    | IOFailure(message: Option<string>)         // `IOException`, with its message
    | Interrupted(message: Option<string>)       // `InterruptedException`, with its message
    | RuntimeFailure(message: Option<string>)    // any `RuntimeException` thrown by `send`

  /**
   * What the JDK does with this event: whether the request builder accepts the
   * endpoint as a URI, the message of the exception a builder throws when it
   * rejects the request, and what sending the request would lead to.
   */
  datatype Network = Network(uriAccepted: bool, rejection: Option<string>, answer: Outcome)

  /** The one request `logEvent` sends. */
  datatype Request = Request(uri: string, timeoutMillis: nat, contentType: string, userAgent: string, body: string)

  /** What a call did besides returning: the request it sent, the lines it wrote to standard error, and whether it re-set the interrupt flag. */
  datatype Trace = Trace(sent: Option<Request>, diagnostics: seq<string>, reinterrupted: bool)

  /** Why a request builder threw, in the code as written. */
  datatype Rejection = NonPositiveTimeout | RejectedUri

  /** How a call to `logEvent` ends in the code as written: a result, or an exception from building the request. */
  datatype Ending = Returned(ok: bool) | Threw(reason: Rejection)

  /** Why construction fails: `requireNonNull` or the blank check. */
  datatype ConstructionError = NullEndpoint | BlankEndpoint

  const DisabledNotice := "Scarf analytics disabled via environment variable."

  /** `"" + message` for a possibly null exception message. */
  function MessageText(m: Option<string>): string
  {
    m.GetOr("null")
  }

  /** A status in the 2xx range: the only answer counted as success. */
  predicate IsSuccess(answer: Outcome)
  {
    answer.Response? && 200 <= answer.code < 300
  }

  /** The line verbose mode writes for what the client reported. */
  function OutcomeNote(answer: Outcome): string
  {
    match answer
    case Response(code, body) => "Scarf response status=" + DecimalString(code) + ", body=" + body.GetOr("")
    case IOFailure(m) => "Scarf request failed: " + MessageText(m)
    case Interrupted(m) => "Scarf request failed: " + MessageText(m)
    case RuntimeFailure(m) => "Scarf request error: " + MessageText(m)
  }

  /** A response gets a status line and nothing else does; the two failure kinds get their own lines. */
  lemma OutcomeNoteKind(answer: Outcome)
    ensures StartsWith(OutcomeNote(answer), "Scarf response status=") <==> answer.Response?
    ensures answer.IOFailure? || answer.Interrupted? ==> StartsWith(OutcomeNote(answer), "Scarf request failed: ")
    ensures answer.RuntimeFailure? ==> StartsWith(OutcomeNote(answer), "Scarf request error: ")
  {
    if !answer.Response? {
      DiffersFrom(OutcomeNote(answer), "Scarf response status=", 8);
    }
  }

  class ScarfEventLogger {
    const endpointUrl: string
    const defaultTimeoutMillis: nat
    const env: map<string, string>
    const verbose: bool
    const userAgent: string

    /** The fields as the constructor leaves them. */
    ghost predicate Valid()
    {
      !IsBlank(endpointUrl) && verbose == Verbose(env)
    }

    /** The constructor once the endpoint has passed validation: clamp the timeout, copy the environment, read verbosity, build the user agent. */
    constructor (endpointUrl: string, timeoutMillis: int, environment: Option<map<string, string>>, host: Host)
      requires !IsBlank(endpointUrl)
      ensures Valid()
      ensures this.endpointUrl == endpointUrl
      ensures defaultTimeoutMillis == ClampMillis(timeoutMillis)
      ensures env == environment.GetOr(map[])
      ensures userAgent == UserAgent(host)
    {
      this.endpointUrl := endpointUrl;
      defaultTimeoutMillis := ClampMillis(timeoutMillis);
      var copy := environment.GetOr(map[]);
      env := copy;
      verbose := IsTruthy(Lookup(copy, "SCARF_VERBOSE"));
      var ua := BuildUserAgent(host);
      userAgent := ua;
    }

    /** The three-argument constructor: a null endpoint and a blank one are rejected, any other is accepted. */
    static method Create(endpointUrl: Option<string>, timeoutMillis: int, environment: Option<map<string, string>>, host: Host)
      returns (r: Option<ScarfEventLogger>, error: Option<ConstructionError>)
      ensures r.None? <==> endpointUrl.None? || IsBlank(endpointUrl.value)
      ensures endpointUrl.None? ==> error == Some(NullEndpoint)
      ensures endpointUrl.Some? && IsBlank(endpointUrl.value) ==> error == Some(BlankEndpoint)
      ensures r.Some? ==> error.None? && fresh(r.value) && r.value.Valid()
      ensures r.Some? ==> (r.value.endpointUrl == endpointUrl.value
                        && r.value.defaultTimeoutMillis == ClampMillis(timeoutMillis)
                        && r.value.env == environment.GetOr(map[])
                        && r.value.userAgent == UserAgent(host))
    {
      if endpointUrl.None? {
        return None, Some(NullEndpoint);
      }
      if IsBlank(endpointUrl.value) {
        return None, Some(BlankEndpoint);
      }
      var logger := new ScarfEventLogger(endpointUrl.value, timeoutMillis, environment, host);
      return Some(logger), None;
    }

    /** The one-argument constructor: a 3-second default timeout and the process environment. */
    static method CreateDefault(endpointUrl: Option<string>, systemEnv: map<string, string>, host: Host)
      returns (r: Option<ScarfEventLogger>, error: Option<ConstructionError>)
      ensures r.None? <==> endpointUrl.None? || IsBlank(endpointUrl.value)
      ensures endpointUrl.None? ==> error == Some(NullEndpoint)
      ensures endpointUrl.Some? && IsBlank(endpointUrl.value) ==> error == Some(BlankEndpoint)
      ensures r.Some? ==> error.None? && fresh(r.value) && r.value.Valid()
      ensures r.Some? ==> (r.value.endpointUrl == endpointUrl.value
                        && r.value.defaultTimeoutMillis == 3000
                        && r.value.env == systemEnv
                        && r.value.userAgent == UserAgent(host))
    {
      r, error := Create(endpointUrl, 3000, Some(systemEnv), host);
    }

    /** The lines verbose mode writes before sending: the payload, then the user agent. */
    function Preamble(body: string): seq<string>
    {
      if verbose then ["Scarf payload: " + body, "Scarf user-agent: " + userAgent] else []
    }

    /** The `try` block and its handlers: send the request and classify what came back. */
    method Deliver(request: Request, answer: Outcome, notes: seq<string>) returns (ok: bool, trace: Trace)
      ensures ok <==> IsSuccess(answer)
      ensures trace.sent == Some(request)
      ensures trace.diagnostics == notes + (if verbose then [OutcomeNote(answer)] else [])
      ensures trace.reinterrupted <==> answer.Interrupted?
    {
      var out := notes;
      match answer {
        case Response(code, body) =>
          ok := code >= 200 && code < 300;
          if verbose {
            out := out + ["Scarf response status=" + DecimalString(code) + ", body=" + body.GetOr("")];
          }
        case IOFailure(m) =>
          ok := false;
          if verbose {
            out := out + ["Scarf request failed: " + MessageText(m)];
          }
        case Interrupted(m) =>
          ok := false;
          if verbose {
            out := out + ["Scarf request failed: " + MessageText(m)];
          }
        case RuntimeFailure(m) =>
          ok := false;
          if verbose {
            out := out + ["Scarf request error: " + MessageText(m)];
          }
      }
      trace := Trace(Some(request), out, answer.Interrupted?);
    }

    /**
     * The private `logEvent(properties, timeout)` as written: the HTTP client
     * and the request are built before the `try`, so a builder that rejects
     * the zero timeout or the endpoint throws out of `logEvent`.
     */
    method DispatchAsWritten(props: Option<seq<Property>>, timeoutMillis: nat, display: Display, network: Network)
      returns (ending: Ending, trace: Trace)
      ensures Disabled(env) ==> ending == Returned(false) && trace.sent.None?
      ensures !Disabled(env) && timeoutMillis == 0 ==> ending == Threw(NonPositiveTimeout) && trace.sent.None?
      ensures !Disabled(env) && timeoutMillis > 0 && !network.uriAccepted ==> ending == Threw(RejectedUri) && trace.sent.None?
      ensures !Disabled(env) && timeoutMillis > 0 && network.uriAccepted
              ==> (ending == Returned(IsSuccess(network.answer))
                   && trace.sent == Some(Request(endpointUrl, timeoutMillis, "application/json", userAgent,
                                                 PropertiesJson(props.GetOr([]), display))))
      ensures trace.reinterrupted <==> trace.sent.Some? && network.answer.Interrupted?
      ensures !verbose ==> trace.diagnostics == []
      ensures verbose && Disabled(env) ==> trace.diagnostics == [DisabledNotice]
      ensures verbose && !Disabled(env) ==>
                |trace.diagnostics| == (if ending.Threw? then 2 else 3)
                && trace.diagnostics[0] == "Scarf payload: " + PropertiesJson(props.GetOr([]), display)
                && trace.diagnostics[1] == "Scarf user-agent: " + userAgent
                && (ending.Returned? ==> trace.diagnostics[2] == OutcomeNote(network.answer))
    {
      if Disabled(env) {
        return Returned(false), Trace(None, if verbose then [DisabledNotice] else [], false);
      }
      var body := ToJsonProperties(props.GetOr([]), display);
      var notes := Preamble(body);
      assert verbose ==> |notes| == 2 && notes[0] == "Scarf payload: " + body && notes[1] == "Scarf user-agent: " + userAgent;
      assert !verbose ==> notes == [];
      if timeoutMillis == 0 {
        return Threw(NonPositiveTimeout), Trace(None, notes, false);
      }
      if !network.uriAccepted {
        return Threw(RejectedUri), Trace(None, notes, false);
      }
      var request := Request(endpointUrl, timeoutMillis, "application/json", userAgent, body);
      var ok;
      ok, trace := Deliver(request, network.answer, notes);
      ending := Returned(ok);
    }

    /**
     * The private `logEvent(properties, timeout)` with the request built inside
     * the `try`, so that a builder's `IllegalArgumentException` reaches the
     * `RuntimeException` handler: it never throws, and it is true exactly when
     * sending is enabled, the request could be built, and the answer is 2xx.
     */
    method Dispatch(props: Option<seq<Property>>, timeoutMillis: nat, display: Display, network: Network)
      returns (ok: bool, trace: Trace)
      requires Valid()
      ensures ok <==> !Disabled(env) && timeoutMillis > 0 && network.uriAccepted && IsSuccess(network.answer)
      ensures trace.sent.Some? <==> !Disabled(env) && timeoutMillis > 0 && network.uriAccepted
      ensures trace.sent.Some? ==> trace.sent.value == Request(endpointUrl, timeoutMillis, "application/json", userAgent,
                                                               PropertiesJson(props.GetOr([]), display))
      ensures trace.reinterrupted <==> trace.sent.Some? && network.answer.Interrupted?
      ensures !Verbose(env) ==> trace.diagnostics == []
      ensures verbose && Disabled(env) ==> trace.diagnostics == [DisabledNotice]
      ensures verbose && !Disabled(env) ==>
                |trace.diagnostics| == 3
                && trace.diagnostics[0] == "Scarf payload: " + PropertiesJson(props.GetOr([]), display)
                && trace.diagnostics[1] == "Scarf user-agent: " + userAgent
                && trace.diagnostics[2] == (if trace.sent.Some? then OutcomeNote(network.answer)
                                            else "Scarf request error: " + MessageText(network.rejection))
    {
      if Disabled(env) {
        return false, Trace(None, if verbose then [DisabledNotice] else [], false);
      }
      var body := ToJsonProperties(props.GetOr([]), display);
      var notes := Preamble(body);
      assert verbose ==> |notes| == 2 && notes[0] == "Scarf payload: " + body && notes[1] == "Scarf user-agent: " + userAgent;
      assert !verbose ==> notes == [];
      if timeoutMillis == 0 || !network.uriAccepted {
        if verbose {
          notes := notes + ["Scarf request error: " + MessageText(network.rejection)];
        }
        return false, Trace(None, notes, false);
      }
      var request := Request(endpointUrl, timeoutMillis, "application/json", userAgent, body);
      ok, trace := Deliver(request, network.answer, notes);
    }

    /** `logEvent(properties)`: send with the default timeout. */
    method LogEvent(props: Option<seq<Property>>, display: Display, network: Network) returns (ok: bool, trace: Trace)
      requires Valid()
      ensures ok <==> !Disabled(env) && defaultTimeoutMillis > 0 && network.uriAccepted && IsSuccess(network.answer)
      ensures trace.sent.Some? <==> !Disabled(env) && defaultTimeoutMillis > 0 && network.uriAccepted
      ensures trace.sent.Some? ==> trace.sent.value == Request(endpointUrl, defaultTimeoutMillis, "application/json", userAgent,
                                                               PropertiesJson(props.GetOr([]), display))
      ensures trace.reinterrupted <==> trace.sent.Some? && network.answer.Interrupted?
      ensures !Verbose(env) ==> trace.diagnostics == []
      ensures verbose && Disabled(env) ==> trace.diagnostics == [DisabledNotice]
      ensures verbose && !Disabled(env) ==>
                |trace.diagnostics| == 3
                && trace.diagnostics[0] == "Scarf payload: " + PropertiesJson(props.GetOr([]), display)
                && trace.diagnostics[1] == "Scarf user-agent: " + userAgent
                && trace.diagnostics[2] == (if trace.sent.Some? then OutcomeNote(network.answer)
                                            else "Scarf request error: " + MessageText(network.rejection))
    {
      ok, trace := Dispatch(props, defaultTimeoutMillis, display, network);
    }

    /** `logEvent(properties, timeoutSeconds)`: send with a per-call timeout, clamped like the default one. */
    method LogEventWithTimeout(props: Option<seq<Property>>, timeoutMillis: int, display: Display, network: Network)
      returns (ok: bool, trace: Trace)
      requires Valid()
      ensures ok <==> !Disabled(env) && timeoutMillis > 0 && network.uriAccepted && IsSuccess(network.answer)
      ensures trace.sent.Some? <==> !Disabled(env) && timeoutMillis > 0 && network.uriAccepted
      ensures trace.sent.Some? ==> trace.sent.value == Request(endpointUrl, ClampMillis(timeoutMillis), "application/json", userAgent,
                                                               PropertiesJson(props.GetOr([]), display))
      ensures trace.reinterrupted <==> trace.sent.Some? && network.answer.Interrupted?
      ensures !Verbose(env) ==> trace.diagnostics == []
      ensures verbose && Disabled(env) ==> trace.diagnostics == [DisabledNotice]
      ensures verbose && !Disabled(env) ==>
                |trace.diagnostics| == 3
                && trace.diagnostics[0] == "Scarf payload: " + PropertiesJson(props.GetOr([]), display)
                && trace.diagnostics[1] == "Scarf user-agent: " + userAgent
                && trace.diagnostics[2] == (if trace.sent.Some? then OutcomeNote(network.answer)
                                            else "Scarf request error: " + MessageText(network.rejection))
    {
      ok, trace := Dispatch(props, ClampMillis(timeoutMillis), display, network);
    }

    /** `logEvent(properties)` as written: a zero default timeout or a rejected endpoint throws unless sending is disabled. */
    method LogEventAsWritten(props: Option<seq<Property>>, display: Display, network: Network)
      returns (ending: Ending, trace: Trace)
      ensures Disabled(env) ==> ending == Returned(false) && trace.sent.None?
      ensures !Disabled(env) && defaultTimeoutMillis == 0 ==> ending == Threw(NonPositiveTimeout) && trace.sent.None?
      ensures !Disabled(env) && defaultTimeoutMillis > 0 && !network.uriAccepted ==> ending == Threw(RejectedUri) && trace.sent.None?
      ensures !Disabled(env) && defaultTimeoutMillis > 0 && network.uriAccepted
              ==> (ending == Returned(IsSuccess(network.answer))
                   && trace.sent == Some(Request(endpointUrl, defaultTimeoutMillis, "application/json", userAgent,
                                                 PropertiesJson(props.GetOr([]), display))))
      ensures trace.reinterrupted <==> trace.sent.Some? && network.answer.Interrupted?
      ensures !verbose ==> trace.diagnostics == []
      ensures verbose && Disabled(env) ==> trace.diagnostics == [DisabledNotice]
      ensures verbose && !Disabled(env) ==>
                |trace.diagnostics| == (if ending.Threw? then 2 else 3)
                && trace.diagnostics[0] == "Scarf payload: " + PropertiesJson(props.GetOr([]), display)
                && trace.diagnostics[1] == "Scarf user-agent: " + userAgent
                && (ending.Returned? ==> trace.diagnostics[2] == OutcomeNote(network.answer))
    {
      ending, trace := DispatchAsWritten(props, defaultTimeoutMillis, display, network);
    }

    /** `logEvent(properties, timeoutSeconds)` as written: every timeout below one millisecond throws unless sending is disabled. */
    method LogEventWithTimeoutAsWritten(props: Option<seq<Property>>, timeoutMillis: int, display: Display, network: Network)
      returns (ending: Ending, trace: Trace)
      ensures Disabled(env) ==> ending == Returned(false) && trace.sent.None?
      ensures !Disabled(env) && timeoutMillis <= 0 ==> ending == Threw(NonPositiveTimeout) && trace.sent.None?
      ensures !Disabled(env) && timeoutMillis > 0 && !network.uriAccepted ==> ending == Threw(RejectedUri) && trace.sent.None?
      ensures !Disabled(env) && timeoutMillis > 0 && network.uriAccepted
              ==> (ending == Returned(IsSuccess(network.answer))
                   && trace.sent == Some(Request(endpointUrl, ClampMillis(timeoutMillis), "application/json", userAgent,
                                                 PropertiesJson(props.GetOr([]), display))))
      ensures trace.reinterrupted <==> trace.sent.Some? && network.answer.Interrupted?
      ensures !verbose ==> trace.diagnostics == []
      ensures verbose && Disabled(env) ==> trace.diagnostics == [DisabledNotice]
      ensures verbose && !Disabled(env) ==>
                |trace.diagnostics| == (if ending.Threw? then 2 else 3)
                && trace.diagnostics[0] == "Scarf payload: " + PropertiesJson(props.GetOr([]), display)
                && trace.diagnostics[1] == "Scarf user-agent: " + userAgent
                && (ending.Returned? ==> trace.diagnostics[2] == OutcomeNote(network.answer))
    {
      ending, trace := DispatchAsWritten(props, ClampMillis(timeoutMillis), display, network);
    }
  }
}
