# Intent Logger: the logging service, modelled in Dafny

Intent Logger is an Android service that records intercepted inter-process intents into an
audit log. Its core is one sequential message handler, `LoggingService.ServiceHandler`,
built on three process-wide fields:

- `LOGGING`: whether recording is on;
- `LOG`: the audit log, absent until logging first starts;
- `LOG_COUNT`: the record counter.

The handler takes five commands:

- **START_LOGGING** turns recording on, resets the counter and creates a new empty log. The log's
  version header comes from the platform release string.
- **STOP_LOGGING** turns recording off.
- **CHECK_INTENT** classifies an intercepted intent as an activity, broadcast or service event. It
  appends one record when it can, then echoes the message back to its sender.
- **GET_COUNT** replies with the counter.
- **SAVE_LOG** hands the log to storage.

Binding to the service is guarded by the caller's UID.

The project has six modules:

- `JavaTypes` (`java_types.dfy`): Java's `byte`/`short`/`int`/`long`, the narrowing casts, and the
  integer `/` and `%`, which truncate toward zero.
- `JavaText` (`java_text.dfy`): `String.split` with a one-character pattern, and
  `Short.parseShort`/`Byte.parseByte`. Includes the proof that parsing a rendered number gives it
  back exactly when it fits.
- `AicsVersion` (`aics_version.dfy`): the (short, byte, byte) version header and the switch on the
  number of release components.
- `Clock` (`clock.dfy`): the seconds and millisecond-offset fields stamped on each record.
- `Intents` (`intents.dfy`): the intent, the bundle and the message payload; the three record
  variants; the loop that builds the category string; and classification of an event into a
  record.
- `LoggingService` (`logging_service.dfy`): the handler. `Step` is a pure function of the state and
  one message, and the lemmas prove the handler's properties about it. Class `Service` holds the
  three fields and updates them in place. Each of its methods is proved to change the state exactly
  as `Step` says and to keep the counter invariant.

The model's inputs are the intercepted intent, the package registry, the marshalling outcomes and
the clock readings. A reply sent on a `replyTo` channel, and a log handed to storage, are modelled
as an `Effect` value returned by the handler.

## Model

| member | source | states |
|---|---|---|
| `JavaTypes.IncrementWraps` | app/src/main/java/com/carteryagemann/intentlogger/LoggingService.java:199 | `LOG_COUNT++` on a Java `int` wraps; the wrapped counter still agrees with the unbounded count modulo 2^32 |
| `JavaTypes.Quot` | app/src/main/java/com/carteryagemann/intentlogger/LoggingService.java:184 | Java's `/`: the quotient is rounded toward zero, so for a negative dividend it is at most 0 and its product lies within one divisor above the dividend |
| `JavaTypes.Rem` | app/src/main/java/com/carteryagemann/intentlogger/LoggingService.java:185 | Java's `%`: dividend = quotient × divisor + remainder, and the remainder takes the dividend's sign and is smaller than the divisor |
| `JavaText.RegexDotSplit` | app/src/main/java/com/carteryagemann/intentlogger/LoggingService.java:105 | `split(".")` splits on a regular expression matching every character; a non-empty string with no line terminator gives no pieces, and the empty string gives one empty piece |
| `JavaText.SplitThree` | app/src/main/java/com/carteryagemann/intentlogger/LoggingService.java:105 | splitting `a.b.c` at a literal separator gives back `[a, b, c]` when no field contains the separator and the last one is non-empty |
| `JavaText.ParseShortShowInt` | app/src/main/java/com/carteryagemann/intentlogger/LoggingService.java:108 | `Short.parseShort` on any rendered integer gives that integer exactly when it fits 16 bits, and throws otherwise |
| `JavaText.ParseByteShowInt` | app/src/main/java/com/carteryagemann/intentlogger/LoggingService.java:112 | `Byte.parseByte` on any rendered integer gives that integer exactly when it fits 8 bits, and throws otherwise |
| `AicsVersion.VersionOf` | app/src/main/java/com/carteryagemann/intentlogger/LoggingService.java:106-122 | a non-zero header needs 1 to 3 components whose first parses as the major number and second as the minor; one component gives minor 0 and patch 0, two give patch 1, three give the parsed patch |
| `AicsVersion.VersionOfRendered` | app/src/main/java/com/carteryagemann/intentlogger/LoggingService.java:106-126 | components `[a]`, `[a,b]` and `[a,b,c]` map to (a,0,0), (a,b,1) and (a,b,c); any number out of its short or byte range gives (0,0,0) |
| `AicsVersion.ReleaseVersionDotted` | app/src/main/java/com/carteryagemann/intentlogger/LoggingService.java:105-126 | with the dot split the code intends, release strings `a`, `a.b` and `a.b.c` give the mapped triple, or (0,0,0) when a number is out of range |
| `AicsVersion.ReleaseVersionExamples` | app/src/main/java/com/carteryagemann/intentlogger/LoggingService.java:105-122 | with a literal-dot split, the release strings "7", "7.1" and "7.1.2" give (7,0,0), (7,1,1) and (7,1,2) |
| `AicsVersion.ReleaseVersionUnparsable` | app/src/main/java/com/carteryagemann/intentlogger/LoggingService.java:106-126 | with a literal-dot split, "" and "x.y" give (0,0,0): "" is one component that does not parse, and "x.y" two that do not |
| `AicsVersion.AsWrittenAlwaysUnknown` | app/src/main/java/com/carteryagemann/intentlogger/LoggingService.java:105 | as written, every release string without line terminators yields the header (0,0,0) |
| `AicsVersion.AsWrittenDiffers` | app/src/main/java/com/carteryagemann/intentlogger/LoggingService.java:105 | "7.1.2" gives (0,0,0) as written but (7,1,2) with a literal-dot split |
| `Clock.MillisOffset` | app/src/main/java/com/carteryagemann/intentlogger/LoggingService.java:185 | the offset `(short)(ms % 1000)` lies in 0..999 for a clock at or after the epoch, and in -999..0 before it |
| `Clock.EpochSecondsRecombine` | app/src/main/java/com/carteryagemann/intentlogger/LoggingService.java:184-185 | until 2038, the corrected seconds field is the whole seconds of the reading, and seconds × 1000 + offset gives back the reading when both come from the same instant |
| `Clock.TruncatedSecondsBounded` | app/src/main/java/com/carteryagemann/intentlogger/LoggingService.java:184 | as written, the seconds field never exceeds 2147483 in magnitude, whatever the clock reads |
| `Clock.TruncatedSecondsExample` | app/src/main/java/com/carteryagemann/intentlogger/LoggingService.java:184 | the instant 1500000000000 ms is stamped as second 1056413 as written, and as second 1500000000 when corrected |
| `Intents.Categories` | app/src/main/java/com/carteryagemann/intentlogger/LoggingService.java:171-176 | the category string is empty exactly when there are no categories, and otherwise ends with the separator `;` |
| `Intents.CategoriesAppend` | app/src/main/java/com/carteryagemann/intentlogger/LoggingService.java:174-175 | the category string of a concatenation is the concatenation of the category strings, so each loop iteration appends one `c + ";"` |
| `Intents.CategoriesRoundTrip` | app/src/main/java/com/carteryagemann/intentlogger/LoggingService.java:171-176 | splitting the category string at `;` gives the categories in order plus one trailing empty piece, when no category contains `;` |
| `Intents.JoinCategories` | app/src/main/java/com/carteryagemann/intentlogger/LoggingService.java:171-176 | the `while` loop over the category iterator builds exactly the category string |
| `Intents.Blob` | app/src/main/java/com/carteryagemann/intentlogger/LoggingService.java:151-170 | a clip-data or extras blob is exactly the bytes a successful marshal produced; without clip data or extras, or when marshalling throws, it is empty |
| `Intents.ReceiverUid` | app/src/main/java/com/carteryagemann/intentlogger/LoggingService.java:142-150 | the receiver UID is 0 without a component or without a package manager; otherwise it is the UID the registry holds for the component's package, and the lookup throws exactly when that package is not registered |
| `Intents.Classify` | app/src/main/java/com/carteryagemann/intentlogger/LoggingService.java:139-328 | a record is made exactly when `intentType` is 0, 1 or 2 and the receiver lookup does not throw; its variant matches the type, it carries the intent's payload, the receiver's name and UID, and the caller UID and PID (default 0); its seconds field is `(int) ms / 1000` of the first clock reading (cast before dividing) and its offset `(short)(ms % 1000)` of the second |
| `Intents.MarshalFailureStillRecorded` | app/src/main/java/com/carteryagemann/intentlogger/LoggingService.java:151-170 | an event whose clip data and extras both fail to marshal is still recorded, with both blobs empty |
| `Intents.BuildRecord` | app/src/main/java/com/carteryagemann/intentlogger/LoggingService.java:140-328 | building a record step by step (receiver, blobs, category loop, header, the as-written timestamp) gives exactly the classified record, or none |
| `LoggingService.EventRecord` | app/src/main/java/com/carteryagemann/intentlogger/LoggingService.java:132-139 | an event yields a record only when its bundle holds an intent of a recorded type, and the record's variant is that type |
| `LoggingService.StartResets` | app/src/main/java/com/carteryagemann/intentlogger/LoggingService.java:100-127 | whatever the prior state, starting turns logging on, sets the counter to 0 and installs a new empty log whose header the release string yields as split at line 105; for every release without line terminators that header is (0,0,0) |
| `LoggingService.StopKeepsLog` | app/src/main/java/com/carteryagemann/intentlogger/LoggingService.java:87-90 | stopping clears only the flag; the log and the counter are unchanged and nothing is sent |
| `LoggingService.QueriesKeepState` | app/src/main/java/com/carteryagemann/intentlogger/LoggingService.java:80-97 | count requests, save requests and unknown codes change none of the three fields; a count reply goes out exactly when there is a channel; a save hands over the log exactly when one exists |
| `LoggingService.GetCountReportsRecords` | app/src/main/java/com/carteryagemann/intentlogger/LoggingService.java:361-371 | a count reply is a `GET_COUNT` message whose `arg1` is the number of records in the current log, or 0 without one |
| `LoggingService.EventDroppedIff` | app/src/main/java/com/carteryagemann/intentlogger/LoggingService.java:133-202 | an event leaves all three fields unchanged exactly when it is not admitted: logging off, no log, no intent in the bundle, an unknown type, or a receiver lookup that throws |
| `LoggingService.AcceptedAppendsOne` | app/src/main/java/com/carteryagemann/intentlogger/LoggingService.java:198-199 | an admitted event appends exactly its record at the end of the log and adds one to the counter; the flag and the version header stay the same |
| `LoggingService.AckUnlessWithheld` | app/src/main/java/com/carteryagemann/intentlogger/LoggingService.java:332-339 | an event is echoed back unchanged on its reply channel exactly when it has one and it is not the case where logging is on, a log exists and the bundle holds no intent (a message sent without data, whose bundle is empty, is such a case); nothing else is sent |
| `LoggingService.AppendOnlyUntilRestart` | app/src/main/java/com/carteryagemann/intentlogger/LoggingService.java:80-97 | every message except a start keeps the log present, keeps its version and its records, and adds at most one record |
| `LoggingService.StepKeepsCountConsistent` | app/src/main/java/com/carteryagemann/intentlogger/LoggingService.java:80-97 | every message keeps the counter equal to the log's record count, as a wrapped Java `int` |
| `LoggingService.RunKeepsCountConsistent` | app/src/main/java/com/carteryagemann/intentlogger/LoggingService.java:63-65 | after any sequence of messages from a consistent state, the counter equals the current log's record count, or 0 without a log |
| `LoggingService.OrderingScenario` | app/src/main/java/com/carteryagemann/intentlogger/LoggingService.java:80-97 | START, A, STOP leaves a log of exactly A, and a save then hands over exactly that log; continuing with B, START, C drops B and leaves a log of exactly C |
| `LoggingService.Service.constructor` | app/src/main/java/com/carteryagemann/intentlogger/LoggingService.java:63-72 | the fields start as not logging, no log, counter 0; the service's UID and the package manager are fixed at creation |
| `LoggingService.Service.HandleMessage` | app/src/main/java/com/carteryagemann/intentlogger/LoggingService.java:79-98 | the dispatch changes the fields and produces the effect exactly as `Step` does, and keeps the counter consistent |
| `LoggingService.Service.EnableLogging` | app/src/main/java/com/carteryagemann/intentlogger/LoggingService.java:100-127 | the fields become logging on, a new empty log whose header the release string yields as split at line 105, and counter 0 |
| `LoggingService.Service.LogIntent` | app/src/main/java/com/carteryagemann/intentlogger/LoggingService.java:129-340 | the log, the counter and the acknowledgement are exactly those of `LogIntentStep`; the flag is untouched and the counter stays consistent |
| `LoggingService.Service.SendCount` | app/src/main/java/com/carteryagemann/intentlogger/LoggingService.java:361-371 | with a reply channel, a `GET_COUNT` message carrying the log's record count goes out; without one, nothing does; no field changes |
| `LoggingService.Service.SaveLog` | app/src/main/java/com/carteryagemann/intentlogger/LoggingService.java:342-359 | the log is handed to storage exactly when it exists; no field changes |
| `LoggingService.Service.OnBind` | app/src/main/java/com/carteryagemann/intentlogger/LoggingService.java:375-380 | callers with a UID below 10000 are always bound; an application UID is bound only if it is the service's own |

## Findings

| source | as written | input that shows it | evidently intended | confidence | as-written member | corrected member |
|---|---|---|---|---|---|---|
| app/src/main/java/com/carteryagemann/intentlogger/LoggingService.java:184 | `(int) System.currentTimeMillis() / 1000` casts the clock to 32 bits before dividing (also at lines 247 and 309) | the reading 1500000000000 ms gives second 1056413 instead of 1500000000; no reading can give more than 2147483 | `(int) (System.currentTimeMillis() / 1000)`, the seconds since the epoch | high; not executed | `Clock.TruncatedSecondsExample` | `Clock.EpochSecondsRecombine` |
| app/src/main/java/com/carteryagemann/intentlogger/LoggingService.java:105 | `RELEASE.split(".")` splits on the regular expression `.`, which matches every character | the release "7.1.2" splits into no components, so the header is (0,0,0) | split at each literal `.`, giving (7,1,2) | high; not executed | `AicsVersion.AsWrittenAlwaysUnknown` | `AicsVersion.ReleaseVersionDotted` |

The handler follows the code as written: records are stamped with `Clock.TruncatedSeconds`, and
the log header comes from `AicsVersion.ReleaseVersionAsWritten`. The corrected definitions,
`Clock.EpochSeconds` and `AicsVersion.ReleaseVersion`, stand beside them with the intended
properties proved, so that the effect of each fix is stated.

The two-component case really does set the patch number to 1, not 0. It is modelled as written
because nothing in the code shows what was meant.

Three points about the code that the model keeps:

- The header fields are the signed `short` and the two signed `byte`s the code passes to
  `AICSFile`.
- The one event that returns before its acknowledgement is one received while logging is on and
  a log exists, whose bundle holds no intent. With logging off or no log, such an event is
  acknowledged. An event without `replyTo` is never acknowledged.
- `Message.getData` never returns null: a message sent without data hands out a new empty
  bundle. So the `data != null` test at line 133 always holds, and a message's bundle is never
  absent in the model.

## Left out

- The AICS container format is not part of this model. That covers `AICSFile` and its
  `appendIntent` and `toByteBuffer`, the three `*IntentHeader` classes and `IntentData`. A log is
  a version header plus a sequence of records, with no byte layout. `appendIntent` is assumed
  never to throw.
- Marshalling clip data and extras into a `Parcel` is an input: each intent carries the outcome,
  either the bytes or a failure.
- `PackageManager.getApplicationInfo` is a map from package name to UID. A missing package is the
  exception.
- `ComponentName.toShortString` is framework code. The component carries its short string.
- File I/O in `saveLog` is not modelled: the directory, the time-based file name, the write, and
  the caught I/O error. A save is the `Persist` effect carrying the log. The file writes cannot
  change the three fields.
- The `Messenger`/`Handler` transport is not modelled, and neither is `RemoteException` on a
  failed send. A send is a `Reply` effect. A failed delivery is caught and logged, and changes
  nothing.
- Calls to `Log.v`/`Log.w`/`Log.e` are left out.
- `System.currentTimeMillis` is replaced by two clock readings per record, one for the seconds and
  one for the offset. The two reads are not assumed to be the same instant.
- `Binder.getCallingUid` is an argument of `OnBind`. The returned binder is a yes/no answer.
- Only the ASCII digits `0`–`9` count as digits when parsing. `Character.digit` also accepts
  other Unicode decimal digits.
- `Bundle.getInt` on a key that holds a value of another type returns the default. The model keeps
  ints and strings in separate maps, so this case cannot arise.
- `ControlPanel.java` is not part of this model. It is the UI activity with the polling timer and
  the service connection.
- There is no concurrency to model: a single `Handler` processes messages one at a time.
  The static fields are the fields of one `Service` object.
