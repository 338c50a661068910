# Kompics timer, scripted P2P application and SSH component in Dafny

This project models three components of the Kompics component framework and proves
properties of the model.

- **Timer** (`timer/.../Timer.java`): the timer service component. It keeps two tables of
  active timers, one-shot and periodic, keyed by the client component's UUID together with
  the client's own timer id. It schedules and cancels tasks on a `java.util.Timer`. When a
  one-shot task fires, it triggers the client's Timeout event at HIGH priority. It shares
  itself through a sealed membrane that declares four request types and one signal type.
  Module `TimerComponent`: a class `Timer` whose handlers are proved against specification
  functions on a `TimerState` value, plus lemmas about single handlers and about whole
  request sequences.
- **Application** (`p2p/.../Application.java`): the scripted peer-to-peer application.
  - It works through a list of textual operations: join, fail or leave a peer; navigate the
    component architecture; wait (`NOP`) by asking the shared timer for a signal; exit (`X`).
  - Module `P2pApplication`: a class `Application` whose mutually recursive methods are
    proved against the functions `Continue` and `Perform`.
  - A lemma describes one chain of operations in terms of a per-operation reference
    description: the peer commands of the operations passed over, then the stopping
    operation's own trigger.
- **SshComponent** (`kompics-daemon-launcher/.../SshComponent.java`): the SSH automation
  component.
  - Module `SshSessions`: the session counter and tables, `addSession`, `removeSession` and
    the three request handlers.
  - Module `SshText`: the exit-code sentinel and the stdout loop of `runCommand`, the
    md5sum-output parse of `getRemoteFileList`, the download defaults and the command
    builders.
  - Module `SshParameters`: `parseParameters`.
  - Module `SshLineReader`: the byte-by-byte `LineReader`.

Supporting modules:

- `Kompics`: channels, triggers with their priority, and membranes.
- `JavaText`: the `java.lang` text operations the components rely on (`startsWith`,
  `indexOf`, `split` with a literal delimiter, `Integer.parseInt`, `new BigInteger`).
- `Wrappers`: `Option` and `Result`.

## Outside calls

Calls into the Kompics runtime are recorded in logs that the model keeps as fields:

- `triggerEvent` calls go to the trigger and response logs;
- `subscribe` calls go to the subscription log;
- the membrane registration goes to the registration log.

Calls into `java.util.Timer` are recorded as a log of schedule calls and a log of cancelled
tasks. A task's identity is its position in that log. A schedule call is logged even when
the `java.util.Timer` refuses it: a negative delay, or a period that is not positive, makes
it throw IllegalArgumentException. The handler then ends with that exception, which the
handler methods return as their result. A task firing is the explicit `timeout` call.

The following are parameters of the handlers that use them:

- the outcome of connecting over SSH (authenticated with a shell, or not);
- the outcome of running a command (an exit code, a checked exception's message, or an
  unchecked exception);
- the bytes a remote stream delivers.

The timer membrane that `Application.create` looks up is also a parameter: its two channels
are passed in.

## Behaviour of the code worth knowing

- **Duplicate timer ids.** Scheduling an id that is already active overwrites the table
  entry and leaves the earlier task scheduled, so it can still fire. No table entry refers
  to it, so no cancel request can reach it (`OverwriteOrphansEarlierTask`).
- **Refused delays.** The table entry is stored before the `java.util.Timer` is called. A
  negative delay, or a period that is not positive, makes that call throw, and the entry
  stays although its task never runs (`SetTimer`, `SetPeriodicTimer`).
- **Timer destroy.** `destroy` cancels the `java.util.Timer` and leaves both tables as they
  are (`Destroyed`). A second call dereferences null, so `Destroy` requires a live timer.
- **Session ids.** `addSession` returns the counter after incrementing it, which is one past
  the key it stored under. A halt request for the returned id finds nothing
  (`HaltOfReturnedIdRemovesNothing`).
- **Removing a session.** `removeSession` removes from the connection and command tables
  using the `Session` object as the key. That key never equals an `Integer` key, so those
  entries stay and the call always returns false.
- **Connections.** `activeSshConnections` is never written. Every command request is
  therefore answered with the null-session text and success
  (`CommandsAlwaysFindNoConnection`).

## Model

| member | source | states |
|---|---|---|
| TimerComponent.Initial | timer/src/main/java/se/sics/kompics/timer/Timer.java:49-53 | both timer tables start empty, and the empty state satisfies the timer invariant |
| TimerComponent.SetTimer | timer/src/main/java/se/sics/kompics/timer/Timer.java:113-125 | the client's key maps to a new task; every other key and the periodic table are unchanged; exactly one one-shot schedule call with the requested delay is logged, and the java.util.Timer accepts it exactly when the delay is not negative; nothing is cancelled or triggered |
| TimerComponent.SetPeriodicTimer | timer/src/main/java/se/sics/kompics/timer/Timer.java:89-100 | the client's key in the periodic table maps to a new task, handed over for fixed-rate execution with the requested delay and period; the java.util.Timer accepts it exactly when the delay is not negative and the period is positive; all else is unchanged |
| TimerComponent.CancelTimer | timer/src/main/java/se/sics/kompics/timer/Timer.java:128-136 | an unknown key changes nothing; a known key has exactly its task cancelled and exactly that key removed |
| TimerComponent.CancelPeriodicTimer | timer/src/main/java/se/sics/kompics/timer/Timer.java:103-110 | the same as CancelTimer, for the periodic table only |
| TimerComponent.Expired | timer/src/main/java/se/sics/kompics/timer/Timer.java:139-146 | the one-shot entry for the key is gone, other keys are untouched, and exactly one Timeout trigger at HIGH priority on the client's channel is appended |
| TimerComponent.Destroyed | timer/src/main/java/se/sics/kompics/timer/Timer.java:83-86 | the java.util.Timer is dropped while both tables and all logs are left as they were |
| TimerComponent.TimerMembrane | timer/src/main/java/se/sics/kompics/timer/Timer.java:71-80 | the shared membrane routes exactly the four request types to the request channel, emits only Timeout from the signal channel, and is sealed |
| TimerComponent.Timer.constructor | timer/src/main/java/se/sics/kompics/timer/Timer.java:49-53 | the component starts with empty tables and no channels, subscriptions or timer |
| TimerComponent.Timer.Create | timer/src/main/java/se/sics/kompics/timer/Timer.java:56-68 | the channels are stored, the four handlers are subscribed to the request channel, and a java.util.Timer becomes present |
| TimerComponent.Timer.Share | timer/src/main/java/se/sics/kompics/timer/Timer.java:71-80 | returns TimerMembrane of the stored channels and registers it under the given name; nothing else changes |
| TimerComponent.Timer.Destroy | timer/src/main/java/se/sics/kompics/timer/Timer.java:83-86 | the new state is Destroyed of the old one |
| TimerComponent.Timer.HandleSetTimerEvent | timer/src/main/java/se/sics/kompics/timer/Timer.java:113-125 | the new state is SetTimer of the old one, and the handler ends with IllegalArgumentException exactly when the delay is negative |
| TimerComponent.Timer.HandleSetPeriodicTimerEvent | timer/src/main/java/se/sics/kompics/timer/Timer.java:89-100 | the new state is SetPeriodicTimer of the old one, and the handler ends with IllegalArgumentException exactly when the delay is negative or the period is not positive |
| TimerComponent.Timer.HandleCancelTimerEvent | timer/src/main/java/se/sics/kompics/timer/Timer.java:128-136 | the new state is CancelTimer of the old one |
| TimerComponent.Timer.HandleCancelPeriodicTimerEvent | timer/src/main/java/se/sics/kompics/timer/Timer.java:103-110 | the new state is CancelPeriodicTimer of the old one |
| TimerComponent.Timer.Timeout | timer/src/main/java/se/sics/kompics/timer/Timer.java:139-146 | the new state is Expired of the old one |
| TimerComponent.CancelAfterTimeoutIsNoOp | timer/src/main/java/se/sics/kompics/timer/Timer.java:128-146 | after a timer has fired, cancelling it changes nothing, and its Timeout remains the last trigger |
| TimerComponent.ClientsAreIsolated | timer/src/main/java/se/sics/kompics/timer/Timer.java:103-136 | two clients using the same timer id have distinct keys, and one client's cancel leaves the other's one-shot and periodic entries in place |
| TimerComponent.OverwriteOrphansEarlierTask | timer/src/main/java/se/sics/kompics/timer/Timer.java:113-136 | scheduling an active id again, then cancelling it, leaves the first task handed to the java.util.Timer (accepted exactly when its delay was not negative) and never cancelled, with no table entry referring to it |
| TimerComponent.StepKeepsWellFormed | timer/src/main/java/se/sics/kompics/timer/Timer.java:89-146 | every handler and the timeout callback preserve the invariant: each active entry is a task issued for its own key, and only issued tasks are cancelled |
| TimerComponent.SetKeepsWellFormed | timer/src/main/java/se/sics/kompics/timer/Timer.java:119-130 | storing a new one-shot task keeps the invariant: the new timer task takes the next serial and every earlier entry stays an issued task |
| TimerComponent.SetPeriodicKeepsWellFormed | timer/src/main/java/se/sics/kompics/timer/Timer.java:89-99 | storing a new periodic task keeps the invariant in the same way |
| TimerComponent.RunKeepsWellFormed | timer/src/main/java/se/sics/kompics/timer/Timer.java:89-146 | any sequence of requests and callbacks preserves the invariant |
| TimerComponent.PeriodicEntrySurvives | timer/src/main/java/se/sics/kompics/timer/Timer.java:89-146 | a periodic entry survives any sequence of requests and timeouts in which no periodic request names its key |
| TimerComponent.RunTriggersOnlyTimeouts | timer/src/main/java/se/sics/kompics/timer/Timer.java:88-146 | over any sequence, the timer triggers exactly one HIGH-priority Timeout per callback, in callback order, and nothing else |
| P2pApplication.Classify | p2p/src/main/java/se/sics/kompics/p2p/application/Application.java:99-115 | an operation is of each kind exactly when it starts with that kind's prefix, with the first matching prefix in the source's order winning |
| P2pApplication.Continue | p2p/src/main/java/se/sics/kompics/p2p/application/Application.java:90-97 | an index error happens exactly when the cursor was already outside the list, and then nothing is triggered; otherwise the cursor moves forward and stays within the list, and it ends on the list's length exactly when the chain ran to the end |
| P2pApplication.Perform | p2p/src/main/java/se/sics/kompics/p2p/application/Application.java:97-190 | performing an operation never moves the cursor back or past the end and never gives an index error; the chain ends on the list's length exactly when it ran to the end |
| P2pApplication.ContinueGoesOn | p2p/src/main/java/se/sics/kompics/p2p/application/Application.java:118-175 | a peer or navigation operation with a valid id adds its own command in front of whatever the rest of the chain emits |
| P2pApplication.ContinuePauses | p2p/src/main/java/se/sics/kompics/p2p/application/Application.java:90-190 | an operation that does not go on ends the chain on itself, with its own trigger and stop reason |
| P2pApplication.ContinueRunsToFirstPause | p2p/src/main/java/se/sics/kompics/p2p/application/Application.java:90-190 | one start or resume performs every operation up to the first that does not go on, or to the end. It emits exactly the peer commands of the operations passed over, in order, then the stopping operation's trigger, and leaves the cursor on the stopping operation |
| P2pApplication.AtEndNothingHappens | p2p/src/main/java/se/sics/kompics/p2p/application/Application.java:90-97 | at the end of the list a step triggers nothing and reports all done; one step further is an index out of bounds |
| P2pApplication.Application.constructor | p2p/src/main/java/se/sics/kompics/p2p/application/Application.java:52-54 | the component starts with no channels and no operations, and its cursor is Java's default 0 |
| P2pApplication.Application.Create | p2p/src/main/java/se/sics/kompics/p2p/application/Application.java:57-69 | the three channels are stored, and the two handlers are subscribed to the start channel and the timer's signal channel |
| P2pApplication.Application.HandleStartApplication | p2p/src/main/java/se/sics/kompics/p2p/application/Application.java:77-81 | the operations are stored, the chain runs from before operation 0, and the cursor, the triggers and the stop reason are those of Continue |
| P2pApplication.Application.HandleDoNextOperation | p2p/src/main/java/se/sics/kompics/p2p/application/Application.java:85-88 | resumes the chain from the cursor as Continue describes; without operations, a null dereference after the cursor has moved |
| P2pApplication.Application.DoNextOperation | p2p/src/main/java/se/sics/kompics/p2p/application/Application.java:90-116 | the cursor, the triggers and the stop reason are those of Continue from the old cursor; the process has exited exactly when the chain reached an X |
| P2pApplication.Application.PerformOperation | p2p/src/main/java/se/sics/kompics/p2p/application/Application.java:99-115 | dispatching on the first matching prefix of the operation under the cursor leaves the cursor, the triggers and the stop reason that Perform gives for that operation |
| P2pApplication.Application.DoPeerCommand | p2p/src/main/java/se/sics/kompics/p2p/application/Application.java:118-149 | an id that does not parse stops the chain; otherwise the peer command is triggered and the chain goes on, as Perform describes |
| P2pApplication.Application.DoNavigate | p2p/src/main/java/se/sics/kompics/p2p/application/Application.java:151-175 | the navigation triggers nothing and the chain goes on, as Perform describes |
| P2pApplication.Application.DoNop | p2p/src/main/java/se/sics/kompics/p2p/application/Application.java:177-185 | a delay that parses as a 32-bit integer triggers one HIGH SetTimerEvent and the chain waits; otherwise a number-format stop; the process never exits here |
| P2pApplication.Application.DoShutdown | p2p/src/main/java/se/sics/kompics/p2p/application/Application.java:187-190 | the process exits |
| JavaText.StartsWithChars | p2p/src/main/java/se/sics/kompics/p2p/application/Application.java:99-111 | a text starts with a prefix exactly when the prefix is no longer than the text and agrees with it character by character |
| JavaText.IndexOf | kompics-daemon-launcher/src/main/java/se/sics/kompics/wan/master/ssh/SshComponent.java:831 | gives the first index of the character, or -1 exactly when it does not occur |
| JavaText.Find | kompics-daemon-launcher/src/main/java/se/sics/kompics/wan/master/ssh/SshComponent.java:371 | gives the leftmost occurrence of the delimiter, or -1 when there is none |
| JavaText.DropTrailingEmpty | kompics-daemon-launcher/src/main/java/se/sics/kompics/wan/master/ssh/SshComponent.java:371 | the result is a prefix of the pieces that does not end in an empty string, and only empty strings were dropped |
| JavaText.Split | kompics-daemon-launcher/src/main/java/se/sics/kompics/wan/master/ssh/SshComponent.java:542 | text without the delimiter is its own single piece; otherwise the pieces are those of the full split without its trailing empty pieces, and no piece contains the delimiter |
| JavaText.SplitAllJoin | kompics-daemon-launcher/src/main/java/se/sics/kompics/wan/master/ssh/SshComponent.java:371 | joining the split pieces with the delimiter gives back the input |
| JavaText.SplitAllPieces | kompics-daemon-launcher/src/main/java/se/sics/kompics/wan/master/ssh/SshComponent.java:371 | no split piece contains the delimiter |
| JavaText.ParseBigInteger | p2p/src/main/java/se/sics/kompics/p2p/application/Application.java:119 | a value is parsed exactly when the text is one or more decimal digits, optionally after one sign; the value is that of the digits, negated after a minus sign, so a negative value needs the minus sign |
| JavaText.ParseBigIntegerRoundTrip | p2p/src/main/java/se/sics/kompics/p2p/application/Application.java:119 | printing any integer in decimal and parsing it back gives the integer |
| JavaText.ParseInt | p2p/src/main/java/se/sics/kompics/p2p/application/Application.java:178 | a value is parsed exactly when the BigInteger parse succeeds with a value that fits in 32 bits, and it is that value |
| JavaText.ParseIntRoundTrip | kompics-daemon-launcher/src/main/java/se/sics/kompics/wan/master/ssh/SshComponent.java:372 | printing any 32-bit value and parsing it back gives the value |
| SshText.ExitCode | kompics-daemon-launcher/src/main/java/se/sics/kompics/wan/master/ssh/SshComponent.java:370-372 | a line with fewer than two "==" fields is a missing-field failure; otherwise the exit code is the 32-bit parse of the second field, and a field that does not parse is a distinct failure |
| SshText.SentinelSplit | kompics-daemon-launcher/src/main/java/se/sics/kompics/wan/master/ssh/SshComponent.java:54 | splitting the sentinel followed by any non-empty text without "=" on "==" gives the sentinel's label and that text |
| SshText.ExitCodeRoundTrip | kompics-daemon-launcher/src/main/java/se/sics/kompics/wan/master/ssh/SshComponent.java:369-378 | the line the shell echoes for any 32-bit exit status starts with the sentinel and yields that status |
| SshText.FirstExitLine | kompics-daemon-launcher/src/main/java/se/sics/kompics/wan/master/ssh/SshComponent.java:369-383 | finds the first line that starts with the sentinel, or the number of lines when none does |
| SshText.ReadStdout | kompics-daemon-launcher/src/main/java/se/sics/kompics/wan/master/ssh/SshComponent.java:369-383 | the data received is exactly the lines before the first sentinel line, and the exit code is read from that line, or is absent when there is none |
| SshText.Md5Entry | kompics-daemon-launcher/src/main/java/se/sics/kompics/wan/master/ssh/SshComponent.java:829-840 | a line gives no entry exactly when it has no space or starts with one, and it throws exactly when its first space is its last character. An entry's md5 is the non-empty text before the first space and holds no space |
| SshText.Md5EntryRebuildsLine | kompics-daemon-launcher/src/main/java/se/sics/kompics/wan/master/ssh/SshComponent.java:829-836 | an entry's line is its md5, a space, the mode character and its path, in that order |
| SshText.Md5EntryRoundTrip | kompics-daemon-launcher/src/main/java/se/sics/kompics/wan/master/ssh/SshComponent.java:829-836 | a line built from a digest without spaces, a mode character and a path parses back to that digest and path |
| SshText.FileListFailsOnFirstMalformed | kompics-daemon-launcher/src/main/java/se/sics/kompics/wan/master/ssh/SshComponent.java:829-841 | FileList, the result of the md5sum-output parse, fails exactly when some line after the first is malformed, and then it names the first such line |
| SshText.FileListEntries | kompics-daemon-launcher/src/main/java/se/sics/kompics/wan/master/ssh/SshComponent.java:829-841 | every listed file has a non-empty md5 without spaces and the connection's host name, and there is at most one file per line after the first |
| SshText.FileListFailureSticks | kompics-daemon-launcher/src/main/java/se/sics/kompics/wan/master/ssh/SshComponent.java:829-841 | once a line throws, no later line changes the result |
| SshText.ListLine | kompics-daemon-launcher/src/main/java/se/sics/kompics/wan/master/ssh/SshComponent.java:830-840 | one line extends the listing by its md5sum entry, leaves it alone when it has no entry, and fails with the line's index when its first space is its last character |
| SshText.ListFromIsFileList | kompics-daemon-launcher/src/main/java/se/sics/kompics/wan/master/ssh/SshComponent.java:829-841 | parsing the remaining lines one at a time after a successful prefix gives the same result as FileList of all the lines |
| SshText.RemoteFileList | kompics-daemon-launcher/src/main/java/se/sics/kompics/wan/master/ssh/SshComponent.java:829-841 | the parsing loop returns FileList of the output lines |
| SshText.LocalFilenameType | kompics-daemon-launcher/src/main/java/se/sics/kompics/wan/master/ssh/SshComponent.java:802-812 | the result is always "flat" or "hierarchy": "flat" is kept, and anything else, null included, becomes "hierarchy" |
| SshText.LocalFilenameTypeIdempotent | kompics-daemon-launcher/src/main/java/se/sics/kompics/wan/master/ssh/SshComponent.java:802-812 | applying the default again changes nothing |
| SshText.DownloadFilter | kompics-daemon-launcher/src/main/java/se/sics/kompics/wan/master/ssh/SshComponent.java:487-491 | a null or empty filter becomes "."; any other filter is kept; the result is never empty |
| SshText.DownloadFilterIdempotent | kompics-daemon-launcher/src/main/java/se/sics/kompics/wan/master/ssh/SshComponent.java:487-491 | applying the default again changes nothing |
| SshText.GenerateCommand | kompics-daemon-launcher/src/main/java/se/sics/kompics/wan/master/ssh/SshComponent.java:899-908 | md5sum over find of the directory, with grep of the filter inserted only for a non-empty filter; no timeout, id -1, not stop-on-error |
| SshText.GenerateCommandFilters | kompics-daemon-launcher/src/main/java/se/sics/kompics/wan/master/ssh/SshComponent.java:899-908 | a null and an empty filter give the same command, and any other filter gives a different one |
| SshText.Md5CheckCommand | kompics-daemon-launcher/src/main/java/se/sics/kompics/wan/master/ssh/SshComponent.java:894-897 | the command is "md5sum " followed by the full remote path; no timeout, id 0, not stop-on-error |
| SshText.Md5CheckCommandArguments | kompics-daemon-launcher/src/main/java/se/sics/kompics/wan/master/ssh/SshComponent.java:894-897 | for a non-empty path without spaces, the command split on spaces is exactly md5sum and the path |
| SshParameters.ScanChar | kompics-daemon-launcher/src/main/java/se/sics/kompics/wan/master/ssh/SshComponent.java:510-530 | a character flips the quote flag exactly when it is a quote; it ends the argument being built exactly when it is a space outside quotes; otherwise that argument grows by at most the character, and not by a quote |
| SshParameters.Scan | kompics-daemon-launcher/src/main/java/se/sics/kompics/wan/master/ssh/SshComponent.java:509-531 | after the whole text, the arguments ended plus the characters kept in the last one are at most the text's length |
| SshParameters.QuotedArguments | kompics-daemon-launcher/src/main/java/se/sics/kompics/wan/master/ssh/SshComponent.java:505-535 | the quoted branch returns one argument per space outside quotes, plus one when text follows the last such space |
| SshParameters.Parameters | kompics-daemon-launcher/src/main/java/se/sics/kompics/wan/master/ssh/SshComponent.java:496-546 | text with both quote kinds gives no arguments, and text with exactly one kind gives arguments without quotes |
| SshParameters.ParseParameters | kompics-daemon-launcher/src/main/java/se/sics/kompics/wan/master/ssh/SshComponent.java:496-546 | text with both quote kinds gives no arguments, text with one kind is scanned, and other text is split on spaces, as Parameters describes |
| SshParameters.ScanTracksQuotes | kompics-daemon-launcher/src/main/java/se/sics/kompics/wan/master/ssh/SshComponent.java:510-516 | the scan is within quotes exactly when it has passed an odd number of quote characters |
| SshParameters.ScanSeparators | kompics-daemon-launcher/src/main/java/se/sics/kompics/wan/master/ssh/SshComponent.java:510-536 | the number of arguments ended equals the number of spaces outside quotes |
| SshParameters.ScanTokensHaveNoQuotes | kompics-daemon-launcher/src/main/java/se/sics/kompics/wan/master/ssh/SshComponent.java:510-536 | no argument, finished or in progress, contains a quote character |
| SshParameters.ScanLosesOnlyQuotes | kompics-daemon-launcher/src/main/java/se/sics/kompics/wan/master/ssh/SshComponent.java:510-536 | the arguments joined with single spaces give back the input without its quotes |
| SshParameters.QuotedArgumentsHaveNoQuotes | kompics-daemon-launcher/src/main/java/se/sics/kompics/wan/master/ssh/SshComponent.java:504-540 | in the quoted branch no returned argument contains a quote |
| SshParameters.UnquotedSplitsOnSpaces | kompics-daemon-launcher/src/main/java/se/sics/kompics/wan/master/ssh/SshComponent.java:541-543 | without quotes no argument contains a space, and text without spaces is its own single argument |
| SshLineReader.DecodeByte | kompics-daemon-launcher/src/main/java/se/sics/kompics/wan/master/ssh/SshComponent.java:208 | an ASCII byte decodes to its own character, and any other byte to U+FFFD |
| SshLineReader.ReadLoop | kompics-daemon-launcher/src/main/java/se/sics/kompics/wan/master/ssh/SshComponent.java:206-219 | the position only moves forward within the stream; a line is returned only after its terminator byte is consumed, non-empty and with the buffer cleared; null only at the end of the stream |
| SshLineReader.NextLine | kompics-daemon-launcher/src/main/java/se/sics/kompics/wan/master/ssh/SshComponent.java:201-223 | with nothing available, null at once with nothing consumed and the buffer kept; otherwise as the byte loop, null only at the end of the stream |
| SshLineReader.ReadLoopLines | kompics-daemon-launcher/src/main/java/se/sics/kompics/wan/master/ssh/SshComponent.java:207-219 | a returned line is non-empty, holds no terminator and ends at a terminator byte, and the buffer is cleared; null means end of stream, with the partial line kept |
| SshLineReader.ReadLoopKeepsText | kompics-daemon-launcher/src/main/java/se/sics/kompics/wan/master/ssh/SshComponent.java:207-219 | the old buffer plus the consumed bytes without terminators equals the returned line plus the new buffer |
| SshLineReader.NextLineProperties | kompics-daemon-launcher/src/main/java/se/sics/kompics/wan/master/ssh/SshComponent.java:201-223 | readLine's properties, including the case where nothing is available |
| SshLineReader.LineReader.constructor | kompics-daemon-launcher/src/main/java/se/sics/kompics/wan/master/ssh/SshComponent.java:196-199 | the reader starts at the beginning of the stream with an empty buffer |
| SshLineReader.LineReader.ReadLine | kompics-daemon-launcher/src/main/java/se/sics/kompics/wan/master/ssh/SshComponent.java:201-223 | the returned line, the new position and the new buffer are those of NextLine |
| SshLineReader.LineReader.ReadRest | kompics-daemon-launcher/src/main/java/se/sics/kompics/wan/master/ssh/SshComponent.java:225-234 | when anything is available, all of it is decoded onto the buffer, which is returned without being cleared; otherwise "" and nothing changes |
| SshSessions.Lookup | kompics-daemon-launcher/src/main/java/se/sics/kompics/wan/master/ssh/SshComponent.java:265-266 | a Session key never finds an Integer-keyed entry; an Integer key finds an entry exactly when it is present, and then returns the value stored under it |
| SshSessions.RemoveKey | kompics-daemon-launcher/src/main/java/se/sics/kompics/wan/master/ssh/SshComponent.java:1058-1060 | removing by a Session key leaves the map unchanged and returns null; an Integer key removes exactly that key |
| SshSessions.SessionOf | kompics-daemon-launcher/src/main/java/se/sics/kompics/wan/master/ssh/SshComponent.java:1050 | the session stored under the id, or null when there is no entry or the entry is null |
| SshSessions.SessionAdded | kompics-daemon-launcher/src/main/java/se/sics/kompics/wan/master/ssh/SshComponent.java:321-335 | the session and the command are stored under the counter's old value, the counter goes up by one, and the new value is returned |
| SshSessions.AddedIdIsNotStored | kompics-daemon-launcher/src/main/java/se/sics/kompics/wan/master/ssh/SshComponent.java:321-335 | adding keeps the tables consistent, no entry exists under the returned id, and the new session is under the id one below |
| SshSessions.SessionRemoved | kompics-daemon-launcher/src/main/java/se/sics/kompics/wan/master/ssh/SshComponent.java:1046-1064 | without a session nothing changes; otherwise that session is closed and removed from the session table only, leaving the command and connection tables as they were; the result is always false |
| SshSessions.CommandResponse | kompics-daemon-launcher/src/main/java/se/sics/kompics/wan/master/ssh/SshComponent.java:256-298 | a missing connection or session, or a session that has exited, is answered with the null-session text and success. With a live session a "#" command answers "success" with success; any other command answers "success" with success exactly when runCommand returns a non-negative code, the exception's message without success for a checked exception, and nothing for an unchecked one. Each response names its request and session |
| SshSessions.Connected | kompics-daemon-launcher/src/main/java/se/sics/kompics/wan/master/ssh/SshComponent.java:309-318 | a failed connect answers -1 and changes nothing. An authenticated one adds its shell as addSession does: under the old counter, with the #connect command last in that session's list and every other session's commands unchanged; it answers the counter plus one |
| SshSessions.Halted | kompics-daemon-launcher/src/main/java/se/sics/kompics/wan/master/ssh/SshComponent.java:1026-1043 | the session is removed as SessionRemoved describes, and the answer is true although the removal reports false |
| SshSessions.SshComponent.constructor | kompics-daemon-launcher/src/main/java/se/sics/kompics/wan/master/ssh/SshComponent.java:238-248 | the counter is 0, the tables are empty, and the five handlers are subscribed in order |
| SshSessions.SshComponent.AddSession | kompics-daemon-launcher/src/main/java/se/sics/kompics/wan/master/ssh/SshComponent.java:321-335 | the new tables and the returned id are those of SessionAdded |
| SshSessions.SshComponent.RemoveSession | kompics-daemon-launcher/src/main/java/se/sics/kompics/wan/master/ssh/SshComponent.java:1046-1064 | the new tables, the result and the closed session are those of SessionRemoved |
| SshSessions.SshComponent.HandleSshCommand | kompics-daemon-launcher/src/main/java/se/sics/kompics/wan/master/ssh/SshComponent.java:256-298 | appends exactly the response of CommandResponse, if any; the tables are unchanged |
| SshSessions.SshComponent.HandleSshConnectRequest | kompics-daemon-launcher/src/main/java/se/sics/kompics/wan/master/ssh/SshComponent.java:309-318 | the new tables and the one response appended are those of Connected |
| SshSessions.SshComponent.HandleHaltRequest | kompics-daemon-launcher/src/main/java/se/sics/kompics/wan/master/ssh/SshComponent.java:1026-1043 | the new tables and the closed session are those of Halted, and exactly one response is appended |
| SshSessions.StepKeepsConsistent | kompics-daemon-launcher/src/main/java/se/sics/kompics/wan/master/ssh/SshComponent.java:256-335 | every handler keeps all keys below the counter and the connection table empty, and every command response it gives is the null-session text with success |
| SshSessions.CommandsAlwaysFindNoConnection | kompics-daemon-launcher/src/main/java/se/sics/kompics/wan/master/ssh/SshComponent.java:264-276 | over any sequence of requests from consistent tables, every command request is answered with the null-session text and success |
| SshSessions.HaltOfReturnedIdRemovesNothing | kompics-daemon-launcher/src/main/java/se/sics/kompics/wan/master/ssh/SshComponent.java:321-335 | right after a successful connect, halting the returned id removes nothing, while the new session stays under the id one below |
| SshSessions.InitialConsistent | kompics-daemon-launcher/src/main/java/se/sics/kompics/wan/master/ssh/SshComponent.java:61-70 | the initial counter and tables are consistent |

## Left out

- The Kompics runtime is not modelled: event dispatch and priorities, channel
  subscription matching, the component lifecycle, and the membrane registry. Calls into it
  are recorded in logs. The return value of `registerSharedComponentMembrane` is taken to be
  the membrane passed in.
- The priority `triggerEvent` uses when none is given is assumed to be `Normal`, because
  the runtime's definition of that default is not part of this model.
- Real time is not modelled: the delays and periods of `java.util.Timer` are only recorded.
  A one-shot task firing is the explicit `timeout` call.
- Periodic firing is left out: `PeriodicTimerSignalTask` is not part of this model, so
  repeated Timeout triggers of periodic timers are not modelled.
- Timer keys: `TimerId` equality and hashing are taken to be by value (client UUID and
  timer id), because the `TimerId` class is not part of this model.
- `Application.create` obtains the timer channels from `getSharedComponentMembrane`, which
  is not part of this model. The two channels are parameters of `Create`.
- `navigateBF`, `navigateDF` and `getSuperComponent` only log a traversal of the
  architecture. They are modelled as triggering nothing.
- `System.exit` is modelled as the `exited` flag and the `ShutDown` stop.
- Exceptions are modelled as the way a chain stopped. This covers a null `operations`
  array, an index past the end, and a `NumberFormatException`. A null element of the
  operations array is not modelled.
- `java.util.Timer` also refuses a delay whose sum with the current time overflows a
  `long`. The clock is not modelled, so that refusal is not modelled either.
- P2pApplication.Continue: `doNextOperation` recurses through `doPeerCommand` and
  `doNavigate`, so a long run of peer and navigation operations can end in a
  StackOverflowError. The model has no stack bound, so that error is not modelled.
- `lastOperationIndex` and `sessionCounter` are unbounded in the model, so Java `int`
  overflow is not modelled. Overflow needs more than 2^31 operations or sessions.
- Text parsing covers ASCII decimal digits only. `new BigInteger` and `Integer.parseInt`
  also accept other Unicode decimal digits.
- The SSH library (`ch.ethz.ssh2`) is not modelled. Connecting, authenticating,
  `startShell`, `session.close` and stream I/O are represented by the parameters
  `ConnectOutcome`, `RunOutcome` and the byte stream.
- `connect`'s mapping of exceptions to exit codes and messages on the command spec is
  left out. Only the returned id is modelled.
- `runCommand` is modelled only in its stdout loop. Its polling, sleeping, timeouts, kill
  and quit handling, and stderr reading are left out, and its outcome is a parameter of
  `HandleSshCommand`.
- `runSpecialCommand` is not modelled, and neither are the file operations behind it:
  upload, download, `downloadDir`, `checkRemoteFile`, `checkFile` and `createLocalDir`. It
  needs a file system and a live connection. A `#` command is modelled as succeeding.
- The `DownloadMgr` response handlers have empty bodies. Only their subscription is
  modelled.
- SshLineReader.DecodeByte: `new String(byte[])` decodes with the platform's default
  charset. The model assumes UTF-8, where a lone byte above 127 becomes U+FFFD.
- SshLineReader.LineReader.ReadRest: a single `read` may deliver fewer bytes than
  `available()` reported. The model reads all of them, and it decodes a multi-byte UTF-8
  sequence byte by byte. It appends terminators to the buffer as they come, so a later
  `readLine` would return them inside a line; nothing in the component calls `readRest`.
- SshLineReader.LineReader.ReadLine: the stream is a fixed sequence of bytes followed by
  end of stream. How long the blocking `read` waits for a byte to arrive is not modelled.
- SshText.GenerateCommand: the source tests `filter != ""` by reference, and the model
  compares contents. A non-interned empty filter string would take the grep branch in the
  source.
- `SshConn` internals, `compareTo` and the unused `contains` check in `connect` are left
  out. That check compares a freshly created connection object, so it never matches.
- `SshTest` and `MinaNetworkInit` are not part of this model: they are a test driver and
  a network setup that the core does not call.
