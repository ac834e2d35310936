/**
 * The `StreamOutput` / `StreamInput` pair used by `Writeable` classes, modelled one level above the
 * bytes: a stream is a sequence of typed tokens. A boolean, an optional string (presence flag plus
 * text) and a plain string are one token each; what `Settings` and a secure-settings class write of
 * themselves is one opaque blob token each.
 */
module Streams {
  import opened Wrappers

  datatype Token =
    | BoolToken(b: bool)
    | OptionalStringToken(opt: Option<string>)
    | StringToken(text: string)
    | SettingsBlob(settings: map<string, string>)
    | SecretsBlob(secrets: map<string, seq<bv8>>)

  /** The exceptions that can end a read. */
  datatype Error =
    | EndOfStream                       // EOFException: the stream ended early
    | Malformed(pos: nat)               // the data at `pos` is not the kind of value being read
    | IllegalArgument(message: string)  // IllegalArgumentException
    | ClassCast(className: string)      // ClassCastException
    | AssertionFailed                   // AssertionError from a constructor's `assert`

  /** What reading from `pos` gives: the value and where the next read starts. */
  type Read<T> = Result<(T, nat), Error>

  /** `readBoolean()` at `pos`. */
  function BoolAt(ts: seq<Token>, pos: nat): (r: Read<bool>)
    ensures r.Success? ==> pos < r.value.1 <= |ts|
  {
    if pos >= |ts| then Failure(EndOfStream)
    else if ts[pos].BoolToken? then Success((ts[pos].b, pos + 1))
    else Failure(Malformed(pos))
  }

  /** `readOptionalString()` at `pos`: `None` stands for Java's null. */
  function OptionalStringAt(ts: seq<Token>, pos: nat): (r: Read<Option<string>>)
    ensures r.Success? ==> pos < r.value.1 <= |ts|
  {
    if pos >= |ts| then Failure(EndOfStream)
    else if ts[pos].OptionalStringToken? then Success((ts[pos].opt, pos + 1))
    else Failure(Malformed(pos))
  }

  /** `readString()` at `pos`. */
  function StringAt(ts: seq<Token>, pos: nat): (r: Read<string>)
    ensures r.Success? ==> pos < r.value.1 <= |ts|
  {
    if pos >= |ts| then Failure(EndOfStream)
    else if ts[pos].StringToken? then Success((ts[pos].text, pos + 1))
    else Failure(Malformed(pos))
  }

  /** The sending end: writes only ever append. */
  class StreamOutput {
    var tokens: seq<Token>

    constructor ()
      ensures tokens == []
    {
      tokens := [];
    }

    method WriteBoolean(b: bool)
      modifies this
      ensures tokens == old(tokens) + [BoolToken(b)]
    {
      tokens := tokens + [BoolToken(b)];
    }

    method WriteOptionalString(s: Option<string>)
      modifies this
      ensures tokens == old(tokens) + [OptionalStringToken(s)]
    {
      tokens := tokens + [OptionalStringToken(s)];
    }

    method WriteString(s: string)
      modifies this
      ensures tokens == old(tokens) + [StringToken(s)]
    {
      tokens := tokens + [StringToken(s)];
    }

    /** The bytes a nested `Writeable` writes of itself. */
    method WriteBlob(t: Token)
      requires t.SettingsBlob? || t.SecretsBlob?
      modifies this
      ensures tokens == old(tokens) + [t]
    {
      tokens := tokens + [t];
    }
  }

  /** The receiving end: a fixed sequence of tokens and a read cursor. */
  class StreamInput {
    const tokens: seq<Token>
    var pos: nat

    constructor (ts: seq<Token>)
      ensures tokens == ts && pos == 0
    {
      tokens := ts;
      pos := 0;
    }

    /**
     * A read method returned `r` as the pure reader `spec` prescribes: on success the value, with the
     * cursor just past what was consumed; on failure the same exception, with the cursor undefined.
     */
    ghost predicate Follows<T>(r: Result<T, Error>, spec: Read<T>)
      reads this
    {
      match spec
      case Success((v, next)) => r == Success(v) && pos == next
      case Failure(e) => r == Failure(e)
    }

    method ReadBoolean() returns (r: Result<bool, Error>)
      modifies this
      ensures Follows(r, BoolAt(tokens, old(pos)))
    {
      if pos >= |tokens| {
        return Failure(EndOfStream);
      }
      match tokens[pos]
      case BoolToken(b) =>
        r := Success(b);
        pos := pos + 1;
      case _ =>
        r := Failure(Malformed(pos));
    }

    method ReadOptionalString() returns (r: Result<Option<string>, Error>)
      modifies this
      ensures Follows(r, OptionalStringAt(tokens, old(pos)))
    {
      if pos >= |tokens| {
        return Failure(EndOfStream);
      }
      match tokens[pos]
      case OptionalStringToken(s) =>
        r := Success(s);
        pos := pos + 1;
      case _ =>
        r := Failure(Malformed(pos));
    }

    method ReadString() returns (r: Result<string, Error>)
      modifies this
      ensures Follows(r, StringAt(tokens, old(pos)))
    {
      if pos >= |tokens| {
        return Failure(EndOfStream);
      }
      match tokens[pos]
      case StringToken(s) =>
        r := Success(s);
        pos := pos + 1;
      case _ =>
        r := Failure(Malformed(pos));
    }

    /** Takes the next token whatever it is: how a nested reader gets at its own bytes. */
    method ReadToken() returns (r: Result<Token, Error>)
      modifies this
      ensures r == if old(pos) < |tokens| then Success(tokens[old(pos)]) else Failure(EndOfStream)
      ensures r.Success? ==> pos == old(pos) + 1
    {
      if pos >= |tokens| {
        return Failure(EndOfStream);
      }
      r := Success(tokens[pos]);
      pos := pos + 1;
    }
  }
}
