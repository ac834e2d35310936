/**
 * The two nested `Writeable`s that a `ServerArgs` carries, `Settings` and `SecureSettings`, and the
 * registry of secure-settings classes that stands in for looking a class up by name
 * (`Class.forName(name).getConstructor(StreamInput.class)`). Their own wire formats are not part of
 * this model: each writes one opaque blob token, and its reader is the exact inverse of its writer.
 */
module CommonSettings {
  import opened Wrappers
  import opened Streams

  /** The node settings: keys to values. */
  datatype Settings = Settings(entries: map<string, string>)

  /** What `Settings.writeTo(out)` appends. */
  function SettingsWire(s: Settings): seq<Token> {
    [SettingsBlob(s.entries)]
  }

  /** `Settings.readSettingsFromStream(in)` at `pos`. */
  function SettingsAt(ts: seq<Token>, pos: nat): (r: Read<Settings>)
    ensures r.Success? ==> pos < r.value.1 <= |ts|
  {
    if pos >= |ts| then Failure(EndOfStream)
    else if ts[pos].SettingsBlob? then Success((Settings(ts[pos].settings), pos + 1))
    else Failure(Malformed(pos))
  }

  /** The settings reader reads back exactly what the settings writer wrote, and nothing after it. */
  lemma SettingsRoundTrip(s: Settings, ts: seq<Token>, pos: nat)
    requires pos + |SettingsWire(s)| <= |ts| && ts[pos..pos + |SettingsWire(s)|] == SettingsWire(s)
    ensures SettingsAt(ts, pos) == Success((s, pos + |SettingsWire(s)|))
  {
    assert ts[pos] == ts[pos..pos + 1][0];
  }

  /** `Settings.writeTo(out)`. */
  method WriteSettings(s: Settings, out: StreamOutput)
    modifies out
    ensures out.tokens == old(out.tokens) + SettingsWire(s)
  {
    out.WriteBlob(SettingsBlob(s.entries));
  }

  /** `Settings.readSettingsFromStream(in)`. */
  method ReadSettingsFromStream(input: StreamInput) returns (r: Result<Settings, Error>)
    modifies input
    ensures input.Follows(r, SettingsAt(input.tokens, old(input.pos)))
  {
    var t := input.ReadToken();
    if t.Failure? {
      return Failure(t.error);
    }
    match t.value
    case SettingsBlob(entries) =>
      r := Success(Settings(entries));
    case _ =>
      r := Failure(Malformed(input.pos - 1));
  }

  /** A secure-settings object: the name of its concrete class and its secret entries. */
  datatype SecureSettings = SecureSettings(className: string, entries: map<string, seq<bv8>>)

  /** What `secrets.writeTo(out)` appends. */
  function SecretsWire(s: SecureSettings): seq<Token> {
    [SecretsBlob(s.entries)]
  }

  /** The `(StreamInput)` constructor of the secure-settings class `className`, reading at `pos`. */
  function SecretsPayloadAt(className: string, ts: seq<Token>, pos: nat): (r: Read<SecureSettings>)
    ensures r.Success? ==> pos < r.value.1 <= |ts| && r.value.0.className == className
  {
    if pos >= |ts| then Failure(EndOfStream)
    else if ts[pos].SecretsBlob? then Success((SecureSettings(className, ts[pos].secrets), pos + 1))
    else Failure(Malformed(pos))
  }

  /** Reading a secure-settings object back with its own class gives that object, and nothing after it is read. */
  lemma SecretsRoundTrip(s: SecureSettings, ts: seq<Token>, pos: nat)
    requires pos + |SecretsWire(s)| <= |ts| && ts[pos..pos + |SecretsWire(s)|] == SecretsWire(s)
    ensures SecretsPayloadAt(s.className, ts, pos) == Success((s, pos + |SecretsWire(s)|))
  {
    assert ts[pos] == ts[pos..pos + 1][0];
  }

  /** `secrets.writeTo(out)`. */
  method WriteSecrets(s: SecureSettings, out: StreamOutput)
    modifies out
    ensures out.tokens == old(out.tokens) + SecretsWire(s)
  {
    out.WriteBlob(SecretsBlob(s.entries));
  }

  /** `newInstance(in)` on the stream constructor of the secure-settings class `className`. */
  method NewSecretsFromStream(className: string, input: StreamInput) returns (r: Result<SecureSettings, Error>)
    modifies input
    ensures input.Follows(r, SecretsPayloadAt(className, input.tokens, old(input.pos)))
  {
    var t := input.ReadToken();
    if t.Failure? {
      return Failure(t.error);
    }
    match t.value
    case SecretsBlob(entries) =>
      r := Success(SecureSettings(className, entries));
    case _ =>
      r := Failure(Malformed(input.pos - 1));
  }

  /** What looking a class name up finds on the receiving side. */
  datatype ClassEntry =
    | SecureSettingsClass   // implements SecureSettings and has a public (StreamInput) constructor
    | NoStreamConstructor   // no public (StreamInput) constructor, or abstract: cannot be instantiated
    | NotSecureSettings     // instantiable from a stream, but not a SecureSettings

  /** The classes the receiving process can load, by fully qualified name; an absent name is ClassNotFound. */
  datatype Registry = Registry(classes: map<string, ClassEntry>)

  /** `className` names a secure-settings class the receiver can build from a stream. */
  predicate Loadable(reg: Registry, className: string) {
    className in reg.classes && reg.classes[className] == SecureSettingsClass
  }
}
