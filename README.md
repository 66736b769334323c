# Feodosiya.Lib core, modelled in Dafny

This project models the parts of the Feodosiya.Lib class library that have
logic of their own, and proves properties of them:

- `NamedPipeListener<T>`: the accept / decode / dispatch cycle of the named-pipe
  listener. The listener holds at most one server endpoint. It tags every
  failure with a `NamedPipeListenerErrorType` and listens again only after it
  has released its endpoint. `SendMessage` is the fixed client sequence.
- `Log`: a log kept in a text file or in memory. The model covers the line
  format, the message-type tag, the `MaxLogLength` clamp and the auto-compress
  trigger. It also covers the class's error policy: every caught exception
  raises `ExceptionThrownEvent` and is rethrown only when `EnableThrows` is
  set.
- `Pbkdf2Cryptography`:
  - the `iterations:salt:hash` password-hash string and its parsing;
  - the constant-time `SlowEquals`;
  - the salt ‖ IV ‖ ciphertext framing of `Encrypt` / `Decrypt`;
  - the lower-case hex rendering of MD5 digests.
- `DebugHelper`: the level gate in front of `ConsoleWriteLine`.
- `AppHelper`: the GUID format switch and the registry layout written by
  `AssociateExtensionWithApp`.

How the source's own forms are kept:

- Classes that update fields in place are Dafny classes whose methods are
  proved against specification functions or state their whole new state:
  - `NamedPipeListener`;
  - `Log`;
  - `DebugHelper`'s static field;
  - the registry hive `AssociateExtensionWithApp` writes into.
- The two loops of `Pbkdf2Cryptography` are methods with loop invariants:
  - `SlowEquals` is proved equal to sequence equality;
  - the hex rendering of `GetMD5Hash` is proved equal to a recursive
    rendering that parses back to the digest.
- The rest are functions with lemmas.
- Some long method bodies are split into methods, each proved on its own:
  - `Write`: past the line formatting, its try block is `Log.AppendLine`;
  - `_CheckAutoCompress`: past the size test, its try block is `Log.Archive`;
  - these parts share the catch block of the method they come from, so each
    one reports as that method does;
  - the nested `using` blocks of `AssociateExtensionWithApp` become
    `WriteProgId`, `WriteShell` and `WriteOpenVerb`.

Outside calls are not modelled, but their outcomes are inputs:

- the pipe transport, `BinaryFormatter`;
- the file system, the clock;
- the random number generator;
- the cryptographic primitives.

In detail:

- A listener method takes the success or failure of each transport call, and
  the decoded message.
- A `Log` method takes a `FileEnv`. It says:
  - whether the append, the delete and the compression succeed;
  - how long the file is;
  - what the current time renders to.
- The crypto functions take a `Primitives` value. Their lemmas assume only the
  properties named in `Pbkdf2Cryptography.Sound`:
  - Base64 text has no ':' and decodes back to its bytes;
  - PBKDF2 returns the requested length, for any length a `byte[]` can have;
  - decryption undoes encryption, and PKCS7 padding adds 1 to 32 bytes, for
    any plaintext whose ciphertext still fits in a `byte[]`;
  - MD5 gives 16 bytes.
- `Pbkdf2Cryptography.SoundPrimitivesExist` shows that these properties can
  all hold at once, so the lemmas that assume them are not vacuous.

Behaviour of the source worth noting:

- `End` keeps its endpoint reference when Close or Dispose throws.
- `End` with no endpoint is not a silent success. The null dereference is
  caught, so it reports `CloseAndDisposePipe` (4) and returns false.
- A failure inside `PipeConnectionCallback` returns without calling `End`, so
  the endpoint stays referenced, and it is reused by the next `Start`.
- `IDisposable.Dispose` closes the endpoint but does not clear `pipeServer`.
- In Memory mode, an auto-compression triggered by `SaveFromMemory` does two
  things:
  - it archives the file on disk;
  - it then calls `Delete`, which clears the in-memory buffer and leaves the
    file in place.
- A failed length probe inside `Write` with `EnableThrows` set is reported
  three times, once by each enclosing catch block: `LogLength`,
  `_CheckAutoCompress`, then `Write`.
- `DebugHelper.ConsoleWriteLine` refuses only odd combined levels. An even
  combination such as Information|Warning (6) is accepted. Since
  `Enum.GetName` has no name for it, the line prints as `"[] " + text`.

## Model

| member | source | states |
|---|---|---|
| NamedPipes.Code | Feodosiya.Lib/IO/Pipes/NamedPipeListener.cs:54-69 | the byte values of the error types lie in 1..5 |
| NamedPipes.CodesDistinct | Feodosiya.Lib/IO/Pipes/NamedPipeListener.cs:54-69 | the five error types have five distinct codes |
| NamedPipes.GetPipeSecurityObject | Feodosiya.Lib/IO/Pipes/NamedPipeListener.cs:114-125 | no policy exactly for NullSid; otherwise exactly one rule, which allows that SID ReadWrite |
| NamedPipes.SecurityGrantsOnlyItsSid | Feodosiya.Lib/IO/Pipes/NamedPipeListener.cs:119-122 | the policy grants read-write access to its own SID and to no other |
| NamedPipes.DefaultPipeName | Feodosiya.Lib/IO/Pipes/NamedPipeListener.cs:82 | the full name of NamedPipeListener`1 closed over the argument: the generic prefix, the argument's name, then "]]", so the argument reads back from the name |
| NamedPipes.DefaultPipeNameInjective | Feodosiya.Lib/IO/Pipes/NamedPipeListener.cs:82 | the default pipe name, the full name of the closed generic type, is distinct for distinct type arguments |
| NamedPipes.EndCalls | Feodosiya.Lib/IO/Pipes/NamedPipeListener.cs:173-176 | End calls Close, then Dispose only if Close returned, and makes no call without an endpoint |
| NamedPipes.CycleErrors | Feodosiya.Lib/IO/Pipes/NamedPipeListener.cs:141-170 | one callback reports at most one error |
| NamedPipes.CycleDelivered | Feodosiya.Lib/IO/Pipes/NamedPipeListener.cs:150-160 | one callback delivers at most one message |
| NamedPipes.CycleErrorTags | Feodosiya.Lib/IO/Pipes/NamedPipeListener.cs:142-169 | accept, decode, dispatch and release failures are tagged 2, 3, 5 and 4 exactly when that phase fails; a restart reports only its own BeginWaitForConnection (1) failure |
| NamedPipes.DeliveredIffDecoded | Feodosiya.Lib/IO/Pipes/NamedPipeListener.cs:150-160 | MessageReceived is raised exactly when the accept and the decoding succeed, and it carries the decoded message |
| NamedPipes.NoCallAfterFailure | Feodosiya.Lib/IO/Pipes/NamedPipeListener.cs:141-170 | after a failed phase no later phase runs; the endpoint is listened on again only after it was closed and disposed, and only if the new endpoint was created |
| NamedPipes.NamedPipeListener.constructor | Feodosiya.Lib/IO/Pipes/NamedPipeListener.cs:91-93 | stores the pipe name and SID type; no endpoint is held and every log is empty |
| NamedPipes.NamedPipeListener.Named | Feodosiya.Lib/IO/Pipes/NamedPipeListener.cs:97-99 | stores the pipe name; SidType keeps its default NullSid |
| NamedPipes.NamedPipeListener.Default | Feodosiya.Lib/IO/Pipes/NamedPipeListener.cs:103-104 | the pipe name is the default pipe name of the type |
| NamedPipes.NamedPipeListener.Start | Feodosiya.Lib/IO/Pipes/NamedPipeListener.cs:128-139 | creates an endpoint, with the listener's name and access policy, only when none is held; a construction failure escapes and changes nothing; one BeginWait on the held endpoint; exactly one BeginWaitForConnection error iff that call fails, which does not escape; keeps the no-leak invariant |
| NamedPipes.NamedPipeListener.End | Feodosiya.Lib/IO/Pipes/NamedPipeListener.cs:172-184 | true iff an endpoint is held and Close and Dispose both succeed, and then the reference is cleared and the endpoint released; otherwise one CloseAndDisposePipe error and the reference is kept, including when none is held |
| NamedPipes.NamedPipeListener.PipeConnectionCallback | Feodosiya.Lib/IO/Pipes/NamedPipeListener.cs:141-170 | the new error log, delivered-message log and call trace of one callback; a failed phase leaves the endpoint, counters and released set unchanged; after a clean dispatch End runs, and Start runs iff End returned true |
| NamedPipes.NamedPipeListener.Dispose | Feodosiya.Lib/IO/Pipes/NamedPipeListener.cs:210-221 | Disconnect, Close and Dispose are each attempted when an endpoint is held and nothing when none is; no error is reported or thrown, and nothing else changes |
| NamedPipes.Attempted | Feodosiya.Lib/IO/Pipes/NamedPipeListener.cs:233-241 | the steps performed are a prefix of the sequence: all of them without a failure, and up to and including the first failing one otherwise |
| NamedPipes.StepIndex | Feodosiya.Lib/IO/Pipes/NamedPipeListener.cs:233-241 | each client step has one position in the fixed sequence |
| NamedPipes.AttemptedSendPhases | Feodosiya.Lib/IO/Pipes/NamedPipeListener.cs:233-241 | SendMessage performs exactly the steps up to and including the one that throws |
| NamedPipes.SendMessage | Feodosiya.Lib/IO/Pipes/NamedPipeListener.cs:232-242 | the message goes to the given pipe; the steps performed are the client sequence up to and including the first that fails, or all five; that failure escapes uncaught; the client is disposed exactly when it was constructed |
| NamedPipes.SendFailFast | Feodosiya.Lib/IO/Pipes/NamedPipeListener.cs:233-241 | connect, serialize, flush, drain, close in that order; a failing step is the last one performed |
| NamedPipes.DrainBeforeClose | Feodosiya.Lib/IO/Pipes/NamedPipeListener.cs:239-240 | the client is closed only after the pipe was drained |
| NamedPipes.ConnectBeforeSerialize | Feodosiya.Lib/IO/Pipes/NamedPipeListener.cs:234-236 | the message is written only after the client connected |
| NamedPipes.DefaultNameShared | Feodosiya.Lib/IO/Pipes/NamedPipeListener.cs:225-227 | the default sender uses the same pipe name as the default listener |
| Logging.MessageTag | Feodosiya.Lib/Logs/Log.cs:86-90 | the tag is empty exactly for None |
| Logging.TagShape | Feodosiya.Lib/Logs/Log.cs:86-90 | any other tag is the type name, upper-cased, between brackets, and holds no lower-case letter |
| Logging.TagInformation | Feodosiya.Lib/Logs/Log.cs:86-90 | the Information tag is "[INFORMATION]" |
| Logging.TagWarning | Feodosiya.Lib/Logs/Log.cs:86-90 | the Warning tag is "[WARNING]" |
| Logging.TagError | Feodosiya.Lib/Logs/Log.cs:86-90 | the Error tag is "[ERROR]" |
| Logging.TagDebug | Feodosiya.Lib/Logs/Log.cs:86-90 | the Debug tag is "[DEBUG]" |
| Logging.MessageTags | Feodosiya.Lib/Logs/Log.cs:86-90 | the tag of every message type, "" for None |
| Logging.DatePart | Feodosiya.Lib/Logs/Log.cs:269 | empty without InsertDate; otherwise the date stamp between '[' and ']' |
| Logging.Line | Feodosiya.Lib/Logs/Log.cs:270 | the line starts with the date part and ends in CRLF, and is four characters longer than its date, tag and text |
| Logging.FormatLine | Feodosiya.Lib/Logs/Log.cs:269-270 | the message type's tag and the text sit at fixed offsets after the date part, and CRLF follows the text |
| Logging.LineLayout | Feodosiya.Lib/Logs/Log.cs:269-270 | a line is the date part, a space, the tag, a space, the text and CRLF |
| Logging.SingleLine | Feodosiya.Lib/Logs/Log.cs:269-270 | a line ends in CRLF and has no line feed before it when neither the date nor the text has one |
| Logging.ClampMaxLogLength | Feodosiya.Lib/Logs/Log.cs:215-222 | the stored maximum is max(1024, value): at least 1024 and at least the value, and equal to one of them |
| Logging.ClampProperties | Feodosiya.Lib/Logs/Log.cs:71-72 | clamping is idempotent and monotone, and keeps the default 512000 |
| Logging.Log.constructor | Feodosiya.Lib/Logs/Log.cs:95-102 | empty path and date format, Text type, an empty buffer, the default settings, and nothing reported or written |
| Logging.Log.WithPath | Feodosiya.Lib/Logs/Log.cs:108-110 | the same, with the given path |
| Logging.Log.WithPathAndType | Feodosiya.Lib/Logs/Log.cs:117-120 | the same, with the given path and type, and a buffer in place |
| Logging.Log.CheckType | Feodosiya.Lib/Logs/Log.cs:78-84 | a Memory log always has a buffer afterwards; an existing buffer is kept |
| Logging.Log.SetLogPath | Feodosiya.Lib/Logs/Log.cs:125-131 | stores the path, then applies the buffer check |
| Logging.Log.SetInsertDate | Feodosiya.Lib/Logs/Log.cs:136-141 | stores the flag |
| Logging.Log.SetAutoCompress | Feodosiya.Lib/Logs/Log.cs:203-210 | stores the flag |
| Logging.Log.SetEnableThrows | Feodosiya.Lib/Logs/Log.cs:227-234 | stores the flag |
| Logging.Log.SetMaxLogLength | Feodosiya.Lib/Logs/Log.cs:215-222 | stores the clamped value, which keeps the object valid |
| Logging.Log.Report | Feodosiya.Lib/Logs/Log.cs:282-287 | the event is raised with the exception, and it is rethrown iff EnableThrows is set |
| Logging.Log.Caught | Feodosiya.Lib/Logs/Log.cs:282-287 | a catch block lets the exception escape iff EnableThrows is set |
| Logging.Log.GetDateFormat | Feodosiya.Lib/Logs/Log.cs:148-157 | while InsertDate is false, the event is raised and the exception is rethrown iff EnableThrows; otherwise the stored format is returned |
| Logging.Log.SetDateFormat | Feodosiya.Lib/Logs/Log.cs:158-167 | while InsertDate is false, the event is raised; the value is stored unless the exception was rethrown |
| Logging.Log.ReadLogLength | Feodosiya.Lib/Logs/Log.cs:180-198 | the probed length, or, after a reported failure, an exception rethrown iff EnableThrows and 0 otherwise |
| Logging.Log.Delete | Feodosiya.Lib/Logs/Log.cs:427-449 | the new state is DeleteEffect: in Text mode, an empty path is reported and an existing file deleted; in Memory mode the buffer is cleared |
| Logging.Log.CheckAutoCompress | Feodosiya.Lib/Logs/Log.cs:237-250 | the new state is AutoCompressEffect: archive under the time-stamped name and then Delete, only when AutoCompress is set and the length reached the maximum |
| Logging.ArchiveName | Feodosiya.Lib/Logs/Log.cs:240 | the archive name is the log path, '_', the time stamp, then ".gz" |
| Logging.Log.Archive | Feodosiya.Lib/Logs/Log.cs:240-249 | the new state is ArchiveEffect: the file is compressed under the time-stamped name and then Delete runs; a failure of either is reported by the catch block of _CheckAutoCompress |
| Logging.Log.Write | Feodosiya.Lib/Logs/Log.cs:267-288 | the new state is WriteEffect: a missing date stamp is reported as a format error; otherwise the formatted line goes to AppendLine |
| Logging.Log.AppendLine | Feodosiya.Lib/Logs/Log.cs:272-287 | the new state is AppendLineEffect: in Text mode the line is appended to the file and the auto-compress check follows; in Memory mode it is appended to the buffer; failures are reported by Write's catch block |
| Logging.Log.SaveFromMemory | Feodosiya.Lib/Logs/Log.cs:334-354 | the new state is SaveEffect: the type and path guards, then the buffer is appended to the file, followed by the auto-compress check |
| Logging.Log.ExceptionsEscapeOnlyWhenEnabled | Feodosiya.Lib/Logs/Log.cs:282-287 | in every operation an exception escapes iff EnableThrows is set and something was reported, and it is the exception reported last |
| Logging.Log.BufferKept | Feodosiya.Lib/Logs/Log.cs:440 | no operation loses the in-memory buffer |
| Logging.Log.TextWriteCompressesWhenDue | Feodosiya.Lib/Logs/Log.cs:237-242 | a Text-mode Write appends its line, then archives and deletes exactly when AutoCompress is set, the length reached MaxLogLength and the archive can be written; when nothing is reported |
| Logging.Log.LengthFailureReports | Feodosiya.Lib/Logs/Log.cs:180-198 | a failed length probe inside Write is reported three times and escapes when EnableThrows is set; otherwise it is reported once and counts as an empty file |
| Logging.Log.MemoryWriteAppends | Feodosiya.Lib/Logs/Log.cs:278-280 | in Memory mode Write only appends the formatted line to the buffer: no file access, no report, no auto-compress check |
| Logging.Log.MemorySaveClearsBuffer | Feodosiya.Lib/Logs/Log.cs:334-346 | saving a Memory log when the archive is due appends the buffer to the file and archives it; Delete then clears the buffer and leaves the file |
| Logging.Log.SaveRefusals | Feodosiya.Lib/Logs/Log.cs:336-341 | a Text log is refused with InvalidOperation and a log without a path with ArgumentNull, writing nothing |
| Logging.Log.TextDelete | Feodosiya.Lib/Logs/Log.cs:429-437 | a Text-mode Delete deletes the file exactly when there is a path and the file exists and can be deleted, and reports otherwise except for a missing file |
| Pbkdf2Cryptography.SoundPrimitivesExist | Feodosiya.Lib/Security/Pbkdf2Cryptography.cs:97-146 | some primitives meet every property Sound asks, so the lemmas that assume it apply to something |
| Pbkdf2Cryptography.RandomBytes | Feodosiya.Lib/Security/Pbkdf2Cryptography.cs:108-113 | the generator fills an array of the requested size |
| Pbkdf2Cryptography.GetPbkdf2Bytes | Feodosiya.Lib/Security/Pbkdf2Cryptography.cs:97-102 | succeeds iff the salt has at least 8 bytes and the count and length are positive; otherwise the exception the library throws (ArgumentException for a short salt, else ArgumentOutOfRangeException); with sound primitives a success gives the requested length |
| Pbkdf2Cryptography.PasswordSalt | Feodosiya.Lib/Security/Pbkdf2Cryptography.cs:48-50 | the salt has 24 bytes |
| Pbkdf2Cryptography.PasswordHash | Feodosiya.Lib/Security/Pbkdf2Cryptography.cs:52 | with sound primitives the hash has 20 bytes |
| Pbkdf2Cryptography.HashPassword | Feodosiya.Lib/Security/Pbkdf2Cryptography.cs:47-56 | with sound primitives the stored string splits at ':' into exactly "1000", the Base64 salt and the Base64 hash |
| Pbkdf2Cryptography.HashFields | Feodosiya.Lib/Security/Pbkdf2Cryptography.cs:53-55 | "1000:" + salt + ":" + hash splits into those three fields when neither holds ':' |
| Pbkdf2Cryptography.ParseStoredHash | Feodosiya.Lib/Security/Pbkdf2Cryptography.cs:65-69 | splits at ':' and reads fields 0, 1 and 2 in the source's order; it succeeds only when there are at least three fields |
| Pbkdf2Cryptography.ParseHashPassword | Feodosiya.Lib/Security/Pbkdf2Cryptography.cs:53-55 | with sound primitives the string HashPassword makes parses back to (1000, salt, hash) |
| Pbkdf2Cryptography.FieldsAfterThirdUnread | Feodosiya.Lib/Security/Pbkdf2Cryptography.cs:67-69 | appending fields after the third does not change what the reads of fields 0, 1 and 2 give |
| Pbkdf2Cryptography.ExtraFieldsIgnored | Feodosiya.Lib/Security/Pbkdf2Cryptography.cs:66-69 | fields after the third do not change what is read |
| Pbkdf2Cryptography.HashThenValidate | Feodosiya.Lib/Security/Pbkdf2Cryptography.cs:64-73 | with sound primitives a password validates against its own hash |
| Pbkdf2Cryptography.ValidateOtherPassword | Feodosiya.Lib/Security/Pbkdf2Cryptography.cs:71-72 | with sound primitives another password validates exactly when PBKDF2 gives it the same hash, derived with the stored hash's length, under that salt |
| Pbkdf2Cryptography.SlowEquals | Feodosiya.Lib/Security/Pbkdf2Cryptography.cs:81-87 | true iff the arrays have the same length and the same bytes |
| Pbkdf2Cryptography.ValidatePassword | Feodosiya.Lib/Security/Pbkdf2Cryptography.cs:64-73 | returns or throws what Validation says, which HashThenValidate and ValidateOtherPassword characterise |
| Pbkdf2Cryptography.SplitFrame | Feodosiya.Lib/Security/Pbkdf2Cryptography.cs:192-194 | the three slices concatenate back to the input; the salt and IV have 32 bytes when the input has 64 |
| Pbkdf2Cryptography.Encrypt | Feodosiya.Lib/Security/Pbkdf2Cryptography.cs:154-181 | with sound primitives and a plaintext that fits, the text decodes to a frame that SplitFrame cuts into the random salt, the random IV and the ciphertext under the derived key |
| Pbkdf2Cryptography.SplitFrameOfConcat | Feodosiya.Lib/Security/Pbkdf2Cryptography.cs:169-171 | cutting salt ++ IV ++ ciphertext gives back the three parts |
| Pbkdf2Cryptography.ReadInto | Feodosiya.Lib/Security/Pbkdf2Cryptography.cs:205-206 | a buffer of the ciphertext's size, holding the plaintext first and zeros after it |
| Pbkdf2Cryptography.Decrypt | Feodosiya.Lib/Security/Pbkdf2Cryptography.cs:190-216 | text that is not Base64 is a FormatException; on success the buffer has the ciphertext's length, the decrypted count lies within it, and the buffer is zero after the count |
| Pbkdf2Cryptography.ShortInputRejected | Feodosiya.Lib/Security/Pbkdf2Cryptography.cs:192-202 | input shorter than salt and IV together never decrypts |
| Pbkdf2Cryptography.DecryptEncrypt | Feodosiya.Lib/Security/Pbkdf2Cryptography.cs:154-216 | with sound primitives, decrypting what Encrypt made of a plaintext that fits gives the plaintext, its length as the count, and zeros after it |
| Pbkdf2Cryptography.HexDigit | Feodosiya.Lib/Security/Pbkdf2Cryptography.cs:126 | digits are lower-case hex |
| Pbkdf2Cryptography.ByteHex | Feodosiya.Lib/Security/Pbkdf2Cryptography.cs:126 | a byte renders as two digits |
| Pbkdf2Cryptography.LowerHex | Feodosiya.Lib/Security/Pbkdf2Cryptography.cs:125-127 | the rendering is twice as long as the digest |
| Pbkdf2Cryptography.LowerHexAt | Feodosiya.Lib/Security/Pbkdf2Cryptography.cs:125-127 | byte i is rendered at characters 2i and 2i+1 |
| Pbkdf2Cryptography.ParseLowerHex | Feodosiya.Lib/Security/Pbkdf2Cryptography.cs:125-127 | the rendering parses back to the digest |
| Pbkdf2Cryptography.HexDigitValue | Feodosiya.Lib/Security/Pbkdf2Cryptography.cs:126 | each digit reads back as its value |
| Pbkdf2Cryptography.HexDigest | Feodosiya.Lib/Security/Pbkdf2Cryptography.cs:122-129 | the loop builds exactly the lower-case rendering of the digest |
| Pbkdf2Cryptography.GetMD5HashOfString | Feodosiya.Lib/Security/Pbkdf2Cryptography.cs:121-130 | LowerHex of the digest of the encoded text, the rendering ParseLowerHex reads back to the digest; 32 characters long with sound primitives |
| Pbkdf2Cryptography.GetMD5HashOfBytes | Feodosiya.Lib/Security/Pbkdf2Cryptography.cs:137-146 | LowerHex of the digest of the bytes, the rendering ParseLowerHex reads back to the digest; 32 characters long with sound primitives |
| DotNet.Split | Feodosiya.Lib/Security/Pbkdf2Cryptography.cs:65-66 | at least one piece, and no piece holds the delimiter |
| DotNet.SplitNoDelimiter | Feodosiya.Lib/Security/Pbkdf2Cryptography.cs:66 | text without the delimiter is one piece |
| DotNet.SplitAtDelimiter | Feodosiya.Lib/Security/Pbkdf2Cryptography.cs:66 | the piece before the first delimiter comes first |
| DotNet.SplitJoin | Feodosiya.Lib/Security/Pbkdf2Cryptography.cs:53-55 | splitting fields joined by ':' gives the fields back when none holds ':' |
| DotNet.JoinAppend | Feodosiya.Lib/Security/Pbkdf2Cryptography.cs:53-55 | joining two lists of fields is joining their joins, with one delimiter between them |
| DotNet.SplitAppend | Feodosiya.Lib/Security/Pbkdf2Cryptography.cs:66 | splitting two texts joined by the delimiter gives the pieces of the first followed by the pieces of the second |
| DotNet.JoinSplit | Feodosiya.Lib/Security/Pbkdf2Cryptography.cs:66 | joining the pieces gives the text back |
| DotNet.DigitChar | Feodosiya.Lib/Security/Pbkdf2Cryptography.cs:53 | a digit's character has that digit's value |
| DotNet.DecimalString | Feodosiya.Lib/Security/Pbkdf2Cryptography.cs:53 | the rendering of a number is non-empty and all digits |
| DotNet.DecimalRoundTrip | Feodosiya.Lib/Security/Pbkdf2Cryptography.cs:53 | the digits read back as the number |
| DotNet.ParseInt32 | Feodosiya.Lib/Security/Pbkdf2Cryptography.cs:67 | a parsed value is within the 32-bit range |
| DotNet.ParseDecimal | Feodosiya.Lib/Security/Pbkdf2Cryptography.cs:67 | int.Parse of a rendered non-negative 32-bit number gives the number |
| DotNet.BitXorZero | Feodosiya.Lib/Security/Pbkdf2Cryptography.cs:82 | x ^ y is 0 exactly when x == y |
| DotNet.BitOrZero | Feodosiya.Lib/Security/Pbkdf2Cryptography.cs:84 | x \| y is 0 exactly when both are 0 |
| DotNet.Take | Feodosiya.Lib/Security/Pbkdf2Cryptography.cs:192 | the first n elements, or fewer when there are fewer, or none when n <= 0 |
| DotNet.Skip | Feodosiya.Lib/Security/Pbkdf2Cryptography.cs:193 | the elements after the first n |
| DotNet.UpperChar | Feodosiya.Lib/Logs/Log.cs:89 | no lower-case letter remains, and other characters are kept |
| DotNet.ToUpperAscii | Feodosiya.Lib/Logs/Log.cs:89 | the same length; each ASCII lower-case letter becomes the letter 32 code points below it, every other character is kept, and no lower-case letter remains |
| DotNet.UpperConcat | Feodosiya.Lib/Logs/Log.cs:87-89 | upper-casing a concatenation upper-cases each part |
| Debugging.LevelName | Feodosiya.Lib/Logs/DebugHelper.cs:25-50 | declared values have a name; a combination of flags has none |
| Debugging.ConsoleLine | Feodosiya.Lib/Logs/DebugHelper.cs:73-86 | None prints nothing; a FormatException iff the level is odd and not Debug; printed iff it passes and HasFlag holds; the line is "[" + name + "] " + text |
| Debugging.SingleFlagsAccepted | Feodosiya.Lib/Logs/DebugHelper.cs:77-82 | each declared level passes validation and prints iff its bit is set |
| Debugging.RejectionIgnoresCurrent | Feodosiya.Lib/Logs/DebugHelper.cs:77-82 | a rejected level is rejected whatever the current level, so it never reaches the filter |
| Debugging.CombinationsExamples | Feodosiya.Lib/Logs/DebugHelper.cs:77-84 | levels 3 and 5 are refused; level 6 is accepted and prints "[] " + text |
| Debugging.DefaultPrintsNothing | Feodosiya.Lib/Logs/DebugHelper.cs:15 | with the default level None nothing prints |
| Debugging.FilterMonotone | Feodosiya.Lib/Logs/DebugHelper.cs:82 | setting more bits in the current level never hides a printed line |
| Debugging.DebugHelper.constructor | Feodosiya.Lib/Logs/DebugHelper.cs:15 | the level starts at None |
| Debugging.DebugHelper.SetDebugLevel | Feodosiya.Lib/Logs/DebugHelper.cs:57-64 | the setter stores any value |
| Debugging.DebugHelper.ConsoleWriteLine | Feodosiya.Lib/Logs/DebugHelper.cs:73-86 | the source's checks compute ConsoleLine under the stored level |
| AppHelper.NormalizeGuidFormat | Feodosiya.Lib/App/AppHelper.cs:19-30 | always one of N, D, B, P, X; an allowed format passes unchanged; any other becomes N |
| AppHelper.NormalizeIdempotent | Feodosiya.Lib/App/AppHelper.cs:17-30 | normalising twice is normalising once; the default argument N is kept |
| AppHelper.OpenCommand | Feodosiya.Lib/App/AppHelper.cs:76 | the quoted path followed by the quoted "%1" placeholder |
| AppHelper.AssociationResolves | Feodosiya.Lib/App/AppHelper.cs:67-76 | the extension names the ProgID, whose default verb is Open, whose command runs the application on the file |
| AppHelper.AssociationValuesUnderCreatedKeys | Feodosiya.Lib/App/AppHelper.cs:67-77 | every value written sits under a key that is created |
| AppHelper.RegistryHive.constructor | Feodosiya.Lib/App/AppHelper.cs:65 | the hive holds the given keys and values |
| AppHelper.RegistryHive.SetDefault | Feodosiya.Lib/App/AppHelper.cs:67 | CreateSubKey followed by SetValue of the default value |
| AppHelper.RegistryHive.CreateKey | Feodosiya.Lib/App/AppHelper.cs:69 | CreateSubKey alone |
| AppHelper.RegistryHive.AssociateExtensionWithApp | Feodosiya.Lib/App/AppHelper.cs:64-83 | nothing changes when Software\Classes cannot be opened; otherwise the association's keys are added and its five default values written over the old values |
| AppHelper.RegistryHive.WriteProgId | Feodosiya.Lib/App/AppHelper.cs:69-80 | the ProgID key and its DefaultIcon key are added, the icon value is the path followed by ",0", and the Shell block's keys and values follow |
| AppHelper.RegistryHive.WriteShell | Feodosiya.Lib/App/AppHelper.cs:72-79 | the Shell key is added with Open as its default verb, then the Open block's keys and values follow |
| AppHelper.RegistryHive.WriteOpenVerb | Feodosiya.Lib/App/AppHelper.cs:75-78 | the Open, Command, ddeexec and Topic keys are added; Command holds the quoted command line and Topic holds System |

## Left out

- The pipe transport (`NamedPipeServerStream`, `NamedPipeClientStream`) and `BinaryFormatter` are not modelled. Each call is an outcome passed in, and so is the decoded message.
- The asynchronous completion thread that runs `PipeConnectionCallback` is not modelled. A callback is one method call, and no interleaving is modelled.
- The `MessageReceived` and `Error` handlers are not modelled. What a handler does is folded into `dispatchOk`; a handler that re-enters the listener is outside the model.
- A failure of `new SecurityIdentifier` inside `GetPipeSecurityObject` is not a separate case. It is thrown while the endpoint is constructed, outside the try block, so it is part of `constructOk`.
- The exception objects passed to the `Error` event are not modelled; only their error type is recorded.
- NamedPipes.NamedPipeListener.Dispose: does not model Disconnect, Close or Dispose failing. They are swallowed and change nothing the model records.
- NamedPipes.NamedPipeListener.Start: a second `Start` while an endpoint is held calls `BeginWaitForConnection` on it again (NamedPipeListener.cs:128-139), and only the transport refuses that. The refusal is the free outcome `beginOk`, so the model does not rule out two outstanding accepts on one endpoint.
- NamedPipes.SendMessage: a failure of the step that throws is modelled, but what the server receives is not.
- The PBKDF2, Rijndael, MD5, Base64 and `Encoding.Default` primitives are not modelled. They are the function values of `Primitives`, and the RNGs are functions from index to byte. The lemmas assume only `Sound`.
- Pbkdf2Cryptography.GetPbkdf2Bytes: the length of a successful result is stated only under `Sound`, since the primitive is not modelled.
- DotNet.ParseInt32: does not model the whitespace, culture or thousands handling of `int.Parse`. Text is treated as ASCII digits with an optional sign.
- Pbkdf2Cryptography.Decrypt: does not model a `CryptoStream.Read` that returns fewer bytes than are available. The one read returns the whole plaintext, up to the buffer size.
- In `SlowEquals`, the `uint` arithmetic is computed on non-negative integers. Lengths and bytes fit in a `uint`, so nothing wraps.
- Logging.MessageTag: a `MessageType` value outside the declared members, made by a cast, is not representable. `Enum.GetName` returns null for it, so the source would tag its line "[]" (Log.cs:86-89).
- For `Log`, the file system, gzip `Compress`, `DateTime.Now` and its formatting are not modelled. What each call answers comes from a `FileEnv`.
- `Log` takes no lock: `lock (_fileLock)` only orders threads, and threads are not modelled.
- The writes the log performs are recorded, not their effect on file contents.
- The `Encoding` overloads of `Write` and `SaveFromMemory` are not modelled separately. They do exactly what the overloads without an encoding do, apart from the encoding, which is not modelled.
- `Log.Compress` used on its own is not modelled, and neither is its empty `gzName` default. `_CheckAutoCompress` always passes a name.
- All .NET exception types that file calls can throw are one `FileError`.
- The `LogPath`, `LogType`, `InsertDate`, `AutoCompress`, `MaxLogLength` and `EnableThrows` getters are plain field reads, and are not modelled as members.
- Null strings are not modelled: every string argument is a value. This affects `String.IsNullOrEmpty`, which is modelled as a test for "".
- `Guid.NewGuid` and `Guid.ToString` are not modelled; `GenerateGuid` is modelled up to the format it passes on.
- `AddToAutorun` and `RemoveFromAutorun` are not modelled. They are a single registry value write or delete that depends on `Path.GetFileName` and the OS bitness.
- Registry key names are treated as case-sensitive strings. Registry exceptions, such as access denied, are not modelled.
- `DebugHelper` is static, so its single instance of the state is a Dafny object. `Console.WriteLine` is the `Printed` result.
- The remaining files are not part of this model: `Win32ApiHelper.cs`, `winuser_h.cs`, `SystemHelper.cs`, `FTPHelper.cs`, `ConfHelper.cs`, `IOHelper.cs`, `SecurityHelper.cs`, `ThreadingHelper.cs` and `StringHelper.cs`. They wrap the OS, the network, a JSON serializer and UI threads.
