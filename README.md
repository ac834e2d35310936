# ServerArgs wire codec

`ServerArgs` is the record that the Elasticsearch launcher hands to the server process at start-up. It holds:

- whether to daemonize;
- whether to stay quiet on the console;
- an optional absolute pid file;
- the secure settings (a keystore or another `SecureSettings` class);
- the node settings;
- the config and logs directories.

The launcher writes the record to a binary stream (`writeTo`) and the server reads it back (`ServerArgs(StreamInput)`). The format is positional: there are no field tags, so the reader must read the fields in exactly the writer's order. The one dynamic step is the secure settings. The writer puts the concrete class name before the object's own bytes. The reader looks that name up and runs the class's stream constructor on the bytes that follow.

The project models:

- the record's canonical constructor and its two assertions;
- `writeTo`;
- the decoding constructor and its helpers `readPidFile`, `resolvePath` and `readSecureSettingsFromStream`.

It proves these properties:

- the round trip;
- the rejection of a secure-settings class that the receiver cannot build, with an error that names the class;
- the rejection of a secure-settings class whose stream constructor fails, with the same named error;
- the rejection of a relative pid file on the receiving side;
- that an absent pid file never comes back as an empty path;
- that a decode depends only on the tokens it consumed, so any truncation of the output fails.

Files and modules:

- `wrappers.dfy` (`Wrappers`): `Option` stands for a nullable reference. `Result` stands for a value or the exception that ended the computation, and works with `:-` the way Java's `throws` does.
- `paths.dfy` (`Paths`): a `Path` is the text of a normalised Unix path. `Get` is `PathUtils.get` on a Unix file system: it collapses each run of `/` and drops a trailing `/` but keeps the root. `IsAbsolute` means the path starts with `/`.
- `streams.dfy` (`Streams`): the stream is a sequence of typed tokens. A boolean, an optional string and a string are one token each. `StreamOutput` is a class whose writes only append. `StreamInput` is a class with a fixed token sequence and a read cursor. Each read method is proved against a pure reader function (`BoolAt`, `OptionalStringAt`, `StringAt`) through `StreamInput.Follows`. On failure the model leaves the cursor unspecified.
- `settings.dfy` (`CommonSettings`): `Settings` and `SecureSettings`, their writers and readers, and the `Registry`. The registry is a closed map from class name to what the receiving process finds for that name. It stands in for `Class.forName(name).getConstructor(StreamInput.class)`.
- `server_args.dfy` (`Bootstrap`): the record, its canonical constructor `New`, `WriteTo`, the decoders, and the laws that connect them.

Each state-changing operation is a method on the stream classes. It is tied to a pure function: `Encode` for `WriteTo`, and `PidFileAt`, `SecretsAt` and `DecodeAt` for the readers. The laws are proved about those functions.

## Model

| member | source | states |
|---|---|---|
| `Bootstrap.New` | server/src/main/java/org/elasticsearch/bootstrap/ServerArgs.java:56-59 | Construction succeeds exactly when the pid file is absent or absolute and the secrets are non-null. The pid file may be null but the secrets may not. A successful result is a valid record holding exactly the given fields. Every failure is an AssertionError. |
| `Bootstrap.NewBuildsEveryValid` | server/src/main/java/org/elasticsearch/bootstrap/ServerArgs.java:56-59 | The canonical constructor accepts every record that meets its invariant and returns that same record. |
| `Bootstrap.ResolvePath` | server/src/main/java/org/elasticsearch/bootstrap/ServerArgs.java:94-96 | Turning text into a path is a pure function with no file-system access. The path is absolute exactly when the text is. The text of an existing path (its `toString()`) resolves back to that same path. |
| `Paths.Collapse` | server/src/main/java/org/elasticsearch/bootstrap/ServerArgs.java:95 | The slash-collapsing step of Unix path normalisation. Its result has no "//", keeps the first and last characters, and leaves text that already has no "//" unchanged. |
| `Paths.CollapseDoubleSlash` | server/src/main/java/org/elasticsearch/bootstrap/ServerArgs.java:95 | Collapsing removes only repeated '/': a doubled '/' anywhere in the text gives the same result as a single one. With the fixed-point clause of `Collapse`, this determines the result. |
| `Paths.GetKeepsAbsolute` | server/src/main/java/org/elasticsearch/bootstrap/ServerArgs.java:95 | Normalising never changes whether a path is absolute. |
| `Paths.GetOfNormal` | server/src/main/java/org/elasticsearch/bootstrap/ServerArgs.java:95 | Normalising already-normal text returns it unchanged, so `get(p.toString())` is `p`. |
| `Bootstrap.ServerArgs.WriteTo` | server/src/main/java/org/elasticsearch/bootstrap/ServerArgs.java:99-108 | The output stream gains exactly the record's encoding appended after what it already held. The record is an immutable value and is not changed. |
| `Bootstrap.EncodedAt` | server/src/main/java/org/elasticsearch/bootstrap/ServerArgs.java:99-108 | Wherever the written output sits in a stream, its tokens appear in this fixed order: daemonize, quiet, optional pid-file text, secrets class name, secrets payload, settings payload, config dir, logs dir. |
| `Bootstrap.PidFileAt` | server/src/main/java/org/elasticsearch/bootstrap/ServerArgs.java:88-91 | Reading the pid file consumes its token. The result is absent exactly when the token is the "no value" optional string. Present text, even empty text, becomes a path. |
| `Bootstrap.ReadPidFile` | server/src/main/java/org/elasticsearch/bootstrap/ServerArgs.java:88-91 | The stream method returns what `PidFileAt` prescribes and leaves the cursor after the token. |
| `Bootstrap.PidFileFidelity` | server/src/main/java/org/elasticsearch/bootstrap/ServerArgs.java:102 | A null pid file, written as the absent optional string, reads back as null. A present pid file, written as its text, reads back as that same path. |
| `Bootstrap.SecretsAt` | server/src/main/java/org/elasticsearch/bootstrap/ServerArgs.java:110-118 | Once the class name has been read, the read succeeds exactly when the receiver can build that class and the class's stream constructor succeeds on the tokens after the name. A success is what that constructor returned, ending after its payload. Every failure is the error for that name: ClassCastException for a class that is not a SecureSettings, otherwise IllegalArgumentException "Invalid secrets implementation [name]". This includes a class whose stream constructor fails. |
| `Bootstrap.ReadSecureSettingsFromStream` | server/src/main/java/org/elasticsearch/bootstrap/ServerArgs.java:110-118 | The stream method returns what `SecretsAt` prescribes. The registry lookup takes the place of reflection. |
| `Bootstrap.InvalidSecretsMessageNamesClass` | server/src/main/java/org/elasticsearch/bootstrap/ServerArgs.java:116 | The error message determines the class name: different names never give the same message. |
| `Bootstrap.DecodeAt` | server/src/main/java/org/elasticsearch/bootstrap/ServerArgs.java:64-74 | A successful decode consumes at least one token and stays inside the stream. Every record it returns satisfies the canonical constructor's invariant. |
| `Bootstrap.ReadServerArgs` | server/src/main/java/org/elasticsearch/bootstrap/ServerArgs.java:64-74 | The decoding constructor reads the fields one call at a time and returns what `DecodeAt` prescribes. On success the cursor is just past the record. On failure it returns the same exception and no record. |
| `Bootstrap.FieldsReadBack` | server/src/main/java/org/elasticsearch/bootstrap/ServerArgs.java:64-73 | Over the writer's output, each reader finds its own field at the position where the writer put it, in the writer's order. The secrets reader fails with the named error when the receiver cannot build the class. |
| `Bootstrap.RoundTrip` | server/src/main/java/org/elasticsearch/bootstrap/ServerArgs.java:64-74 | Take a valid record whose secrets class the receiver can build, wherever its output sits in a stream. Decoding that output gives back the same record field for field and stops exactly at its end. |
| `Bootstrap.UnloadableSecretsRejected` | server/src/main/java/org/elasticsearch/bootstrap/ServerArgs.java:110-117 | If the receiver cannot build the writer's secrets class, decoding fails with the error naming that class and returns no record. The class may be missing, lack a stream constructor, or not be a SecureSettings. |
| `Bootstrap.FailingSecretsConstructorRejected` | server/src/main/java/org/elasticsearch/bootstrap/ServerArgs.java:113-116 | A receivable secrets class whose stream constructor fails (its payload is missing) makes the whole decode fail with IllegalArgumentException naming the class, and no record is returned. |
| `Bootstrap.RelativePidFileRejected` | server/src/main/java/org/elasticsearch/bootstrap/ServerArgs.java:57 | A record carrying a relative pid file decodes to an AssertionError from the receiving side's canonical constructor, never to a record. |
| `Bootstrap.DecodeIsLocal` | server/src/main/java/org/elasticsearch/bootstrap/ServerArgs.java:64-74 | A successful decode depends only on the tokens it consumed. Any stream that agrees on those tokens decodes to the same record and end position. |
| `Bootstrap.TruncatedFails` | server/src/main/java/org/elasticsearch/bootstrap/ServerArgs.java:64-74 | Decoding any proper prefix of a record's written output fails. No missing field is defaulted. |
| `Bootstrap.HandOff` | server/src/main/java/org/elasticsearch/bootstrap/ServerArgs.java:99-108 | The launcher writes a valid record to a fresh stream and the server reads that stream with a registry that knows the secrets class. The server gets exactly the launcher's record. |
| `CommonSettings.WriteSettings` | server/src/main/java/org/elasticsearch/bootstrap/ServerArgs.java:105 | Writing the node settings only appends their own payload. |
| `CommonSettings.ReadSettingsFromStream` | server/src/main/java/org/elasticsearch/bootstrap/ServerArgs.java:70 | Reading the node settings returns what `SettingsAt` prescribes. A missing or mismatched payload is a stream error that propagates unwrapped. |
| `CommonSettings.SettingsRoundTrip` | server/src/main/java/org/elasticsearch/bootstrap/ServerArgs.java:105 | The settings reader returns exactly what the settings writer wrote and reads nothing after it. |
| `CommonSettings.WriteSecrets` | server/src/main/java/org/elasticsearch/bootstrap/ServerArgs.java:104 | Writing the secure settings only appends their own payload. |
| `CommonSettings.SecretsPayloadAt` | server/src/main/java/org/elasticsearch/bootstrap/ServerArgs.java:113 | A secure-settings stream constructor consumes only its own payload, and the object it builds belongs to the class it was looked up by. |
| `CommonSettings.NewSecretsFromStream` | server/src/main/java/org/elasticsearch/bootstrap/ServerArgs.java:113 | The stream constructor invoked by `newInstance(in)` returns what `SecretsPayloadAt` prescribes. |
| `CommonSettings.SecretsRoundTrip` | server/src/main/java/org/elasticsearch/bootstrap/ServerArgs.java:104 | A secure-settings object read back through its own class's stream constructor is the object that was written. |

## Left out

- The no-argument constructor `ServerArgs()` (lines 76-86) is not modelled. It hard-codes machine-specific paths and reads default settings from disk. It also passes null secrets, so it can never satisfy `Bootstrap.New`'s secrets assertion.
- `emptySettings()` (lines 120-122) is a constant accessor and is not modelled.
- Bootstrap.New: models Java assertions as enabled, as the project's tests run them. With assertions disabled, the JVM would build a record with a relative pid file or null secrets.
- Java reflection is replaced by the closed `Registry`. The registry records whether each class name is missing, is a usable SecureSettings class, cannot be instantiated from a stream, or is not a SecureSettings. A class that is not a SecureSettings is taken to fail with the ClassCastException straight away. What its own stream constructor would read first is not modelled. Errors raised while a class is initialised are not modelled.
- The byte-level framing of `StreamInput` and `StreamOutput` is not modelled: the boolean byte, the presence flag of an optional string and the length prefix of a string. Each is one token.
- The internal wire formats of `Settings` and `SecureSettings` are not modelled. Each writes one opaque blob token, and its reader is that writer's exact inverse.
- The underlying stream's I/O failures are left out. The only stream errors are reading past the end and finding a token of the wrong kind.
- `Path` follows the Unix file system only. Windows path syntax is left out, and so is the InvalidPathException that Unix `PathUtils.get` throws for text containing a NUL character.
- Null `nodeSettings`, `configDir` and `logsDir` are not modelled: those fields are never null in the model. The Java canonical constructor accepts them as null, and `writeTo` would then throw a NullPointerException at lines 105-107.
- The cause of the IllegalArgumentException is not modelled. At line 116 the exception wraps the caught reflection exception; `IllegalArgument` carries only the message.
- Record equality is field-by-field value equality. The Java `equals` of a concrete secure-settings class is not modelled.
