/**
 * `ServerArgs`: the arguments a launcher hands to the Elasticsearch server process, and their
 * positional wire format. Field order on the wire: daemonize, quiet, pidFile (optional), the secure
 * settings' class name followed by the secure settings themselves, the node settings, configDir, logsDir.
 */
module Bootstrap {
  import opened Wrappers
  import opened Paths
  import opened Streams
  import opened CommonSettings

  /** A record value as built by the canonical constructor; `None` stands for a null pid file. */
  datatype ServerArgs = ServerArgs(
    daemonize: bool,
    quiet: bool,
    pidFile: Option<Path>,
    secrets: SecureSettings,
    nodeSettings: Settings,
    configDir: Path,
    logsDir: Path)
  {
    /** The canonical constructor's first assertion: no pid file, or an absolute one. */
    predicate Valid() {
      pidFile.Some? ==> IsAbsolute(pidFile.value)
    }

    /** `pidFile == null ? null : pidFile.toString()`. */
    function PidFileText(): Option<string> {
      if pidFile.None? then None else Some(pidFile.value)
    }

    /** Everything `writeTo` appends, in order. */
    function Encode(): seq<Token> {
      [BoolToken(daemonize), BoolToken(quiet), OptionalStringToken(PidFileText()), StringToken(secrets.className)]
      + SecretsWire(secrets)
      + SettingsWire(nodeSettings)
      + [StringToken(configDir), StringToken(logsDir)]
    }

    /** `writeTo(out)`: appends the fields one write at a time and does nothing else. */
    method WriteTo(out: StreamOutput)
      modifies out
      ensures out.tokens == old(out.tokens) + Encode()
    {
      out.WriteBoolean(daemonize);
      out.WriteBoolean(quiet);
      out.WriteOptionalString(PidFileText());
      out.WriteString(secrets.className);
      WriteSecrets(secrets, out);
      WriteSettings(nodeSettings, out);
      out.WriteString(configDir);
      out.WriteString(logsDir);
    }
  }

  /**
   * The canonical constructor. `secrets` is `None` for a null reference. Its two assertions are taken
   * as enabled: a relative pid file or missing secrets end construction with an AssertionError.
   */
  function New(daemonize: bool, quiet: bool, pidFile: Option<Path>, secrets: Option<SecureSettings>,
               nodeSettings: Settings, configDir: Path, logsDir: Path): (r: Result<ServerArgs, Error>)
    ensures r.Success? <==> (pidFile.None? || IsAbsolute(pidFile.value)) && secrets.Some?
    ensures r.Failure? ==> r.error == AssertionFailed
    ensures r.Success? ==> r.value.Valid()
    ensures r.Success? ==> r.value.daemonize == daemonize && r.value.quiet == quiet && r.value.pidFile == pidFile
                           && Some(r.value.secrets) == secrets && r.value.nodeSettings == nodeSettings
                           && r.value.configDir == configDir && r.value.logsDir == logsDir
  {
    if !(pidFile.None? || IsAbsolute(pidFile.value)) then Failure(AssertionFailed)
    else if secrets.None? then Failure(AssertionFailed)
    else Success(ServerArgs(daemonize, quiet, pidFile, secrets.value, nodeSettings, configDir, logsDir))
  }

  /** Every valid record is one the canonical constructor builds, from its own fields. */
  lemma NewBuildsEveryValid(a: ServerArgs)
    requires a.Valid()
    ensures New(a.daemonize, a.quiet, a.pidFile, Some(a.secrets), a.nodeSettings, a.configDir, a.logsDir) == Success(a)
  {
  }

  /** `resolvePath(path)`: text to path, with no file-system access. */
  function ResolvePath(path: string): (p: Path)
    ensures IsAbsolute(p) <==> IsAbsolute(path)
    ensures IsNormal(path) ==> p == path
  {
    GetKeepsAbsolute(path);
    if IsNormal(path) then GetOfNormal(path); Get(path) else Get(path)
  }

  /** `readPidFile(in)` at `pos`. */
  function PidFileAt(ts: seq<Token>, pos: nat): (r: Read<Option<Path>>)
    ensures r.Success? ==> pos < r.value.1 <= |ts|
    ensures r.Success? ==> (r.value.0.None? <==> ts[pos] == OptionalStringToken(None))
  {
    var s :- OptionalStringAt(ts, pos);
    Success((if s.0.None? then None else Some(ResolvePath(s.0.value)), s.1))
  }

  /** The message of the IllegalArgumentException thrown for an unusable secure-settings class. */
  function InvalidSecretsMessage(className: string): string {
    "Invalid secrets implementation [" + className + "]"
  }

  /** The message names the class: two different names never give the same message. */
  lemma InvalidSecretsMessageNamesClass(a: string, b: string)
    requires InvalidSecretsMessage(a) == InvalidSecretsMessage(b)
    ensures a == b
  {
    var m := InvalidSecretsMessage(a);
    var k := |"Invalid secrets implementation ["|;
    assert a == m[k..|m| - 1];
    assert b == InvalidSecretsMessage(b)[k..|m| - 1];
  }

  /**
   * The error `readSecureSettingsFromStream` ends with once it has read `className`: a ClassCastException
   * escapes its catch clause; everything else it catches becomes an IllegalArgumentException.
   */
  function SecretsError(reg: Registry, className: string): Error {
    if className in reg.classes && reg.classes[className] == NotSecureSettings then ClassCast(className)
    else IllegalArgument(InvalidSecretsMessage(className))
  }

  /** `readSecureSettingsFromStream(in)` at `pos`. */
  function SecretsAt(reg: Registry, ts: seq<Token>, pos: nat): (r: Read<SecureSettings>)
    ensures r.Success? ==> pos < r.value.1 <= |ts|
    ensures r.Success? ==> ts[pos] == StringToken(r.value.0.className) && Loadable(reg, r.value.0.className)
    ensures r.Failure? && pos < |ts| && ts[pos].StringToken? ==> r.error == SecretsError(reg, ts[pos].text)
    ensures pos < |ts| && ts[pos].StringToken? ==>
              (r.Success? <==> Loadable(reg, ts[pos].text) && SecretsPayloadAt(ts[pos].text, ts, pos + 1).Success?)
    ensures r.Success? ==> r == SecretsPayloadAt(r.value.0.className, ts, pos + 1)
  {
    var name :- StringAt(ts, pos);
    var className := name.0;
    if className !in reg.classes then
      Failure(IllegalArgument(InvalidSecretsMessage(className)))  // ClassNotFoundException
    else match reg.classes[className]
      case NoStreamConstructor => Failure(IllegalArgument(InvalidSecretsMessage(className)))
      case NotSecureSettings => Failure(ClassCast(className))
      case SecureSettingsClass =>
        match SecretsPayloadAt(className, ts, name.1)
        case Success(v) => Success(v)
        case Failure(_) => Failure(IllegalArgument(InvalidSecretsMessage(className)))  // InvocationTargetException
  }

  /** The decoding constructor `ServerArgs(in)` at `pos`: reads the fields in order, then runs the canonical constructor. */
  function DecodeAt(reg: Registry, ts: seq<Token>, pos: nat): (r: Read<ServerArgs>)
    ensures r.Success? ==> pos < r.value.1 <= |ts|
    ensures r.Success? ==> r.value.0.Valid()
  {
    var daemonize :- BoolAt(ts, pos);
    var quiet :- BoolAt(ts, daemonize.1);
    var pidFile :- PidFileAt(ts, quiet.1);
    var secrets :- SecretsAt(reg, ts, pidFile.1);
    var nodeSettings :- SettingsAt(ts, secrets.1);
    var configDir :- StringAt(ts, nodeSettings.1);
    var logsDir :- StringAt(ts, configDir.1);
    var args :- New(daemonize.0, quiet.0, pidFile.0, Some(secrets.0), nodeSettings.0,
                    ResolvePath(configDir.0), ResolvePath(logsDir.0));
    Success((args, logsDir.1))
  }

  /** `readPidFile(in)`. */
  method ReadPidFile(input: StreamInput) returns (r: Result<Option<Path>, Error>)
    modifies input
    ensures input.Follows(r, PidFileAt(input.tokens, old(input.pos)))
  {
    var pidFile :- input.ReadOptionalString();
    r := Success(if pidFile.None? then None else Some(ResolvePath(pidFile.value)));
  }

  /** `readSecureSettingsFromStream(in)`: the registry lookup stands in for reflection. */
  method ReadSecureSettingsFromStream(reg: Registry, input: StreamInput) returns (r: Result<SecureSettings, Error>)
    modifies input
    ensures input.Follows(r, SecretsAt(reg, input.tokens, old(input.pos)))
  {
    var className :- input.ReadString();
    if className !in reg.classes || reg.classes[className] == NoStreamConstructor {
      return Failure(IllegalArgument(InvalidSecretsMessage(className)));
    }
    if reg.classes[className] == NotSecureSettings {
      return Failure(ClassCast(className));
    }
    var secrets := NewSecretsFromStream(className, input);
    if secrets.Failure? {
      return Failure(IllegalArgument(InvalidSecretsMessage(className)));
    }
    r := secrets;
  }

  /** The decoding constructor `ServerArgs(in)`. */
  method ReadServerArgs(reg: Registry, input: StreamInput) returns (r: Result<ServerArgs, Error>)
    modifies input
    ensures input.Follows(r, DecodeAt(reg, input.tokens, old(input.pos)))
  {
    var daemonize :- input.ReadBoolean();
    var quiet :- input.ReadBoolean();
    var pidFile :- ReadPidFile(input);
    var secrets :- ReadSecureSettingsFromStream(reg, input);
    var nodeSettings :- ReadSettingsFromStream(input);
    var configDir :- input.ReadString();
    var logsDir :- input.ReadString();
    r := New(daemonize, quiet, pidFile, Some(secrets), nodeSettings, ResolvePath(configDir), ResolvePath(logsDir));
  }

  /** A present pid file comes back as the same path; an absent one as absent, never as an empty path. */
  lemma PidFileFidelity(p: Option<Path>, ts: seq<Token>, pos: nat)
    requires pos < |ts| && ts[pos] == OptionalStringToken(if p.None? then None else Some(p.value))
    ensures PidFileAt(ts, pos) == Success((p, pos + 1))
  {
  }

  /** The tokens of `writeTo`'s output, found at their offsets wherever that output sits in a stream. */
  lemma EncodedAt(a: ServerArgs, prefix: seq<Token>, suffix: seq<Token>)
    ensures var ts, pos := prefix + a.Encode() + suffix, |prefix|;
      |ts| >= pos + 8 &&
      ts[pos] == BoolToken(a.daemonize) && ts[pos + 1] == BoolToken(a.quiet) &&
      ts[pos + 2] == OptionalStringToken(a.PidFileText()) && ts[pos + 3] == StringToken(a.secrets.className) &&
      ts[pos + 4] == SecretsBlob(a.secrets.entries) && ts[pos + 5] == SettingsBlob(a.nodeSettings.entries) &&
      ts[pos + 6] == StringToken(a.configDir) && ts[pos + 7] == StringToken(a.logsDir)
  {
    var e := a.Encode();
    assert |e| == 8;
    var ts := prefix + e + suffix;
    forall k | 0 <= k < 8
      ensures ts[|prefix| + k] == e[k]
    {
    }
  }

  /** Each reader, run over `writeTo`'s output, gets its field back. */
  lemma FieldsReadBack(reg: Registry, a: ServerArgs, prefix: seq<Token>, suffix: seq<Token>)
    ensures var ts, pos := prefix + a.Encode() + suffix, |prefix|;
      BoolAt(ts, pos) == Success((a.daemonize, pos + 1)) &&
      BoolAt(ts, pos + 1) == Success((a.quiet, pos + 2)) &&
      PidFileAt(ts, pos + 2) == Success((a.pidFile, pos + 3)) &&
      SecretsAt(reg, ts, pos + 3) == (if Loadable(reg, a.secrets.className) then Success((a.secrets, pos + 5))
                                      else Failure(SecretsError(reg, a.secrets.className))) &&
      SettingsAt(ts, pos + 5) == Success((a.nodeSettings, pos + 6)) &&
      StringAt(ts, pos + 6) == Success((a.configDir, pos + 7)) &&
      StringAt(ts, pos + 7) == Success((a.logsDir, pos + 8))
  {
    var ts, pos := prefix + a.Encode() + suffix, |prefix|;
    EncodedAt(a, prefix, suffix);
    PidFileFidelity(a.pidFile, ts, pos + 2);
  }

  /** Decoding what `writeTo` wrote, wherever it sits in the stream, gives the record back and stops right after it. */
  lemma RoundTrip(reg: Registry, a: ServerArgs, prefix: seq<Token>, suffix: seq<Token>)
    requires a.Valid() && Loadable(reg, a.secrets.className)
    ensures DecodeAt(reg, prefix + a.Encode() + suffix, |prefix|) == Success((a, |prefix| + |a.Encode()|))
  {
    var ts, pos := prefix + a.Encode() + suffix, |prefix|;
    FieldsReadBack(reg, a, prefix, suffix);
    NewBuildsEveryValid(a);
  }

  /**
   * A receiver that cannot build the sender's secure-settings class rejects the whole record with the
   * error naming that class; no record is returned.
   */
  lemma UnloadableSecretsRejected(reg: Registry, a: ServerArgs, prefix: seq<Token>, suffix: seq<Token>)
    requires !Loadable(reg, a.secrets.className)
    ensures DecodeAt(reg, prefix + a.Encode() + suffix, |prefix|) == Failure(SecretsError(reg, a.secrets.className))
  {
    FieldsReadBack(reg, a, prefix, suffix);
  }

  /**
   * A receivable secure-settings class whose stream constructor fails (here: its payload is missing) makes
   * decoding fail with the error naming the class; no record is returned.
   */
  lemma FailingSecretsConstructorRejected(reg: Registry, a: ServerArgs)
    requires Loadable(reg, a.secrets.className)
    ensures DecodeAt(reg, a.Encode()[..4], 0) == Failure(IllegalArgument(InvalidSecretsMessage(a.secrets.className)))
  {
    var ts := a.Encode()[..4];
    EncodedAt(a, [], []);
    assert [] + a.Encode() + [] == a.Encode();
    PidFileFidelity(a.pidFile, ts, 2);
  }

  /**
   * A record written with a relative pid file (only possible where assertions are off on the sending
   * side) is refused by the receiving side's canonical constructor.
   */
  lemma RelativePidFileRejected(reg: Registry, a: ServerArgs, prefix: seq<Token>, suffix: seq<Token>)
    requires !a.Valid() && Loadable(reg, a.secrets.className)
    ensures DecodeAt(reg, prefix + a.Encode() + suffix, |prefix|) == Failure(AssertionFailed)
  {
    FieldsReadBack(reg, a, prefix, suffix);
  }

  /** A successful decode depends only on the tokens it consumed: whatever else the stream holds does not matter. */
  lemma DecodeIsLocal(reg: Registry, ts: seq<Token>, other: seq<Token>, pos: nat)
    requires DecodeAt(reg, ts, pos).Success?
    requires DecodeAt(reg, ts, pos).value.1 <= |other|
    requires forall k :: pos <= k < DecodeAt(reg, ts, pos).value.1 ==> other[k] == ts[k]
    ensures DecodeAt(reg, other, pos) == DecodeAt(reg, ts, pos)
  {
    var n := DecodeAt(reg, ts, pos).value.1;
    var daemonize := BoolAt(ts, pos).value;
    var quiet := BoolAt(ts, daemonize.1).value;
    var pidFile := PidFileAt(ts, quiet.1).value;
    var secrets := SecretsAt(reg, ts, pidFile.1).value;
    var nodeSettings := SettingsAt(ts, secrets.1).value;
    var configDir := StringAt(ts, nodeSettings.1).value;
    var logsDir := StringAt(ts, configDir.1).value;
    assert logsDir.1 == n;
    assert BoolAt(other, pos) == BoolAt(ts, pos);
    assert BoolAt(other, daemonize.1) == BoolAt(ts, daemonize.1);
    assert PidFileAt(other, quiet.1) == PidFileAt(ts, quiet.1);
    assert other[pidFile.1] == ts[pidFile.1] && other[pidFile.1 + 1] == ts[pidFile.1 + 1];
    assert SecretsAt(reg, other, pidFile.1) == SecretsAt(reg, ts, pidFile.1);
    assert SettingsAt(other, secrets.1) == SettingsAt(ts, secrets.1);
    assert StringAt(other, nodeSettings.1) == StringAt(ts, nodeSettings.1);
    assert StringAt(other, configDir.1) == StringAt(ts, configDir.1);
  }

  /** Cutting `writeTo`'s output short anywhere makes decoding fail: no field is ever defaulted. */
  lemma TruncatedFails(reg: Registry, a: ServerArgs, n: nat)
    requires n < |a.Encode()|
    ensures DecodeAt(reg, a.Encode()[..n], 0).Failure?
  {
    var e := a.Encode();
    var cut := e[..n];
    if DecodeAt(reg, cut, 0).Success? {
      DecodeIsLocal(reg, cut, e, 0);
      assert [] + e + [] == e;
      if !Loadable(reg, a.secrets.className) {
        UnloadableSecretsRejected(reg, a, [], []);
      } else if !a.Valid() {
        RelativePidFileRejected(reg, a, [], []);
      } else {
        RoundTrip(reg, a, [], []);
      }
      assert false;
    }
  }

  /**
   * The launcher writes the record into a fresh stream and the server reads it back: the server gets
   * the record the launcher had.
   */
  method HandOff(reg: Registry, a: ServerArgs) returns (r: Result<ServerArgs, Error>)
    requires a.Valid() && Loadable(reg, a.secrets.className)
    ensures r == Success(a)
  {
    var out := new StreamOutput();
    a.WriteTo(out);
    var input := new StreamInput(out.tokens);
    RoundTrip(reg, a, [], []);
    assert [] + a.Encode() + [] == out.tokens;
    r := ReadServerArgs(reg, input);
  }
}
