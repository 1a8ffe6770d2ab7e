# Remote file system: a verified model

This project models the server and the client of a small remote file system
written in C, and proves what its locking, its version history and its wire format
are for. `dafny verify dfyconfig.toml` checks everything.

The server gives every client its own thread. A thread parses one request, finds or
adds the lock of the named file in a shared list, takes that lock (shared for GET,
exclusive for WRITE and RM), works on the file in many small steps, answers and
unlocks. A WRITE first makes the missing directories of its path and copies the old content
into `<directory>/.versions/<basename>.<seconds>_<microseconds>`.

## How the model is laid out

| file | content |
|---|---|
| `Text.dfy` | decimal printing, `strtol`, what `strtok` splits |
| `Protocol.dfy` | requests and responses: printing, pure reading, round trips, buffer lengths |
| `Parsing.dfy` | the in-place tokenizer and the two parser loops, proved against the pure reading |
| `Paths.dfy` | last-slash splitting, version names, file keys and their path strings, which siblings an RM reaches |
| `Transfer.dfy` | the copy, send and receive loops over buffers, with partial sends and receives |
| `LockList.dfy` | the linked list of locks with its head and late tail |
| `Directories.dfy` | `createNestedDirectories`, one call and any number of interleaved calls |
| `Handlers.dfy` | the three handlers as imperative methods over a mutable file system |
| `Server.dfy` | the concurrent server as a step machine |
| `Locking.dfy` | mutual exclusion: lock states count the threads inside |
| `Scheduling.dfy` | exactly which steps are possible: who may take a lock, how many bytes move, which entries are met |
| `Refinement.dfy` | every interleaving refines an atomic map from paths to bytes |
| `Naming.dfy` | keys, path strings and directories in every reachable state; which opens succeed |
| `Linearizability.dfy` | each answer is the atomic one, at one step inside the lock section; GET snapshot |
| `Removal.dfy` | what RM removes: completeness and frame |
| `Interference.dfy` | exactly when an RM can fail and leave versions behind |
| `Solo.dfy` | one thread alone does what the handlers do |
| `History.dfy` | the version history on disk is everything written |
| `Termination.dfy` | a decreasing global measure, deadlock freedom, completion |
| `Answers.dfy` | what every client is told, word for word |
| `Serving.dfy` | for every WRITE client and later GET client there is a run that serves them |
| `Session.dfy` | the client, and WRITE-then-GET end to end |

In `Server.dfy` a file is named by a structured key, `User(path)` or
`Version(path, stamp)`. `Naming.FilesAreNamed` proves that in every reachable state
different keys are different path strings, so that this is the same as naming a file by its
path, and `Naming.DiskRefinesStore` states the refinement for the strings. A step is one
action of one thread: one iteration of the lock search, one lock or unlock, one file call,
one chunk, one directory entry. A `Choice` says how many bytes a call moves and which entry
`readdir` returns: any entry that is in the folder now or was when it was opened, each once,
and every one of the latter that is still there before the scan ends. `Shared.created` and
the `body` of a thread are auxiliary: no step's outcome depends on the first, and only the
specification reads the second after the thread has started.

## Assumptions

The first four are predicates that the steps and the initial states are restricted by.

- `Paths.UserPath`: the paths in use have a directory part, are relative, have at most 231
  characters, and have no empty, `.`, `..` or `.versions` component. The client can be asked
  to send others: `Session.FormatPathIsUser` says exactly which of its arguments are covered.
- `Server.GoodClient`: a client's header fits the first receive and holds no NUL, its path is
  a user path, and a WRITE is followed by exactly the announced number of bytes.
- `Server.Placeable`: a client comes only when its path is not a directory, no existing file
  is a directory part of it, and neither path is a directory part of the other for any
  request under way.
- `Server.DiskOk`, for the initial state only: parents of directories exist, files lie in
  existing directories under user paths, and no file is a directory. It holds ever after.
- File calls on existing files succeed. `Naming.OpensSucceed` proves that what a WRITE creates
  is in an existing directory, is not a directory itself and has no file in its way.
- The first receive on each side returns exactly the header (`Thread.header`, `Wire`).
- Every `send` and `recv` of body bytes moves at least one byte (`Transfer.Socket`).
- Tokenizer state belongs to one call. C's `strtok` keeps one state for the process.
- `History.ClockAdvanced` and `History.NoReachingRemoval` for the version history only.

## What the proofs found

- `handleRemoveRequest` stops removing at the first failure, because
  `success && remove(...)` does not evaluate its right side any more. So completeness
  holds for an RM that reports OK (`Removal.RemovalComplete`), and an RM that has failed once
  removes nothing more (`Removal.FailedRemovalStops`). It fails only if another RM removes an
  entry that it would have removed, during its scan (`Removal.LoneRemovalSucceeds`). Which
  clients can do that is decided by the paths alone: an RM of `data/a` can report an error over
  the history if and only if some other client asks for the removal of a rival, a file of the
  same folder whose name starts with `a` or with which `a` starts
  (`Interference.RemovalFailsExactly`, and `Interference.PairFailsExactly` for two clients).
  `data/a` and `data/ab` can each make the other fail. What a failed RM leaves is some of the
  versions, unchanged and in order (`History.HistoryConserved`).
- Its name test reaches siblings in two ways, not one: a basename that is a prefix of the
  sibling's, and a basename that continues the sibling's with a dot and the first digits of
  a stamp, as `ab.17` does for `ab`. `Paths.ReachesExactly` gives the exact condition,
  `History.SiblingsReach` examples.
- `createNestedDirectories` starts its loop from an empty name, so for a path with a leading
  slash it makes directories below the working directory. After a call has returned, the
  directory can be opened if and only if its name has no leading slash, and is not empty, or it
  was there from the start (`Directories.NestedDirectoriesSucceed`); a call for a file in `/x/y`
  makes `x` and `x/y` (`Directories.LeadingSlash`).
- Locks belong to spellings, not to files: `data/x` and `data//x` are one file with two locks,
  so mutual exclusion of files needs one spelling for each (`Naming.LocksBySpelling`,
  `Naming.DoubledSlash`), which is what `Paths.UserPath` gives (`Naming.OneSpelling`).
- A comma ends a path: a request for `a,b` is one for `a` (`Protocol.CommaCutsPath`).
- A save on a stamp that is already used destroys the version there
  (`History.SaveKeepsCount`).
- The buffer that the two serializers allocate is the text and its terminator for every
  length except the powers of ten, where it is one byte less (`Protocol.RequestBufferFits`,
  `Protocol.ResponseBufferFits`).

## Model

| member | source | states |
|---|---|---|
| Refinement.RunRefinesStore | server/thread_manager.c:46-107 | After every step of every interleaved run of any number of WRITE, GET and RM threads, each settled file equals the atomic store's, each half-filled one is a prefix of its WRITE's body, and each thread has been sent exactly its share of the atomic answer |
| Refinement.StepRefines | server/thread_manager.c:68-95 | One step of any thread is either invisible to the atomic store or one whole operation of it |
| Naming.DiskRefinesStore | server/thread_manager.c:46-107 | In every reachable state no two files share a path string, and what the disk holds under a user path that no WRITE is filling is what the atomic store holds |
| Naming.FilesAreNamed | server/request_handler.c:37-58 | In every reachable state files with the same path string are the same file and version, and no file's path is a directory |
| Naming.OpensSucceed | server/request_handler.c:75-87 | Whatever a WRITE creates lies in an existing directory, is no directory and has no file in its way, and its version's path fits the 260-byte buffer |
| Naming.StepKeepsNames | utils.c:142-193 | Every step, directory creation included, keeps the disk in order and every request under way placeable |
| Naming.FilesAreApart | utils.c:142-193 | On a disk in order no file is a directory part of another file's path |
| Naming.LocksBySpelling | server/thread_manager.c:201-225 | Two names have one lock exactly when they are spelt alike |
| Naming.DoubledSlash | server/thread_manager.c:201-225 | A doubled slash gives one file a second lock |
| Naming.OneSpelling | server/thread_manager.c:201-225 | Two user paths are one file exactly when they are one spelling, and so have one lock |
| Naming.JoinedIsUserPath | utils.c:96-140 | Which slash-joined names are user paths |
| Linearizability.AtomicAnswer | server/thread_manager.c:46-107 | A finished request took effect at exactly one of its own steps, inside its lock section, and its reply and bytes are what the atomic store answers there |
| Linearizability.EffectOnce | server/thread_manager.c:68-95 | No request takes effect twice in a run |
| Linearizability.GetSnapshot | server/request_handler.c:89-104 | A GET announces the length of, and sends, exactly the file as it was when the read lock was taken, although sizing and sending open it separately |
| Locking.MutualExclusion | server/thread_manager.c:68-95 | In every reachable state each lock's reader count and writer flag equal the threads inside its section, names in the list are distinct, and two threads inside on one path are both readers |
| Scheduling.ReaderEntersExactly | server/thread_manager.c:87-95 | In every reachable state a GET waiting for its lock can take it if and only if no WRITE or RM of its path is between lock and unlock: readers share |
| Scheduling.WriterEntersExactly | server/thread_manager.c:68-86 | In every reachable state a WRITE or RM waiting for its lock can take it if and only if no thread of its path is between lock and unlock |
| Scheduling.StepsExactly | server/thread_manager.c:46-107 | In every reachable state a thread has exactly the steps that the other threads, the disk and the bytes still to move leave open |
| Scheduling.SamePathMayCome | server/thread_manager.c:46-107 | While a request is under way any other client may come with the same path |
| Scheduling.AdmittedExactly | server/thread_manager.c:14-35 | Which clients the model admits, by the tokens of their headers |
| Scheduling.EntriesByName | server/request_handler.c:126-151 | An entry is one that an RM removes exactly when it is a file of `.versions` beside the RM's file whose name starts with the RM's basename |
| Scheduling.OpenLists | server/request_handler.c:130-146 | The scan has to meet exactly the files that `.versions` beside the file holds when it is opened |
| Locking.StepKeepsLocks | server/thread_manager.c:46-107 | Every step keeps the lock, mutex, list and request invariants together |
| Locking.RegistryGrows | server/thread_manager.c:201-225 | Under any interleaving the lock list only grows at its end, with distinct non-empty names |
| Locking.ScanRefinesLookup | server/thread_manager.c:201-225 | The stepwise search of one thread ends exactly where the list's lookup-or-insert does, with the mutex free |
| LockList.FileLockList.GetLockFor | server/thread_manager.c:201-225 | Lookup or insert over real nodes: the returned node is the one at the name's position, earlier nodes keep theirs, the mutex is free on every return |
| LockList.FileLockList.AddLockToList | server/thread_manager.c:175-199 | Appending keeps the chain acyclic with `length` nodes and a tail that is null below two nodes and the last node from two on |
| LockList.FileLockList.CreateLockNode | server/thread_manager.c:127-144 | A node for every non-empty name and none for the empty one |
| LockList.RegisteredKeeps | server/thread_manager.c:201-225 | Serving another name keeps names distinct and moves no lock already served |
| Removal.RemovalComplete | server/request_handler.c:106-167 | In every run, when an RM has replied OK its file and every version of it are gone, even if other threads added entries to the folder during the scan |
| Removal.RemovalFrame | server/request_handler.c:144-158 | An RM step adds and changes nothing and removes only its file and entries of its folder whose names start with its basename, all of them reached siblings |
| Removal.LoneRemovalSucceeds | server/request_handler.c:141-166 | In every run, an RM during whose scan no other thread removes an entry that this one would remove never reports an error over the history, whatever is added or removed besides |
| Removal.UnrivalledSucceeds | server/request_handler.c:141-166 | In every run, an RM never reports an error over the history while no client asks for the removal of a file of its folder whose name starts with its own or the other way round |
| Interference.RemovalFailsExactly | server/request_handler.c:141-166 | With removals of any set of other paths going on, and any WRITEs and GETs, an RM can report an error over the history if and only if one of those paths is a rival of its own |
| Interference.PairFailsExactly | server/request_handler.c:141-166 | Of two RM clients the first can be told of an error over the history if and only if their folders are equal, their paths are not, and one name starts with the other |
| Interference.FailedRemovalLeaves | server/request_handler.c:141-166 | For any two rivals, either way round, there is a run of just their two RMs from an initial state in which the first reports the error and leaves a version |
| Removal.RemovalReaches | server/request_handler.c:151-157 | Some version of a sibling can pass the name test exactly when the sibling is reached |
| History.HistoryConserved | server/request_handler.c:25-87 | There are histories that start as on disk, grow by the body at a WRITE's end, are cleared by an RM that reports OK, and after an RM that reports an error keep some of the versions in order; whenever no writer is at work on the path, its versions in stamp order followed by its content are the history of that moment, given an advancing clock and no reaching RM |
| History.StepKeepsHistory | server/request_handler.c:25-167 | Every step of every thread, the chunks of a save and the deletes of a scan included, keeps the history relation and changes the history as its kind says |
| History.HistoryExact | server/request_handler.c:25-167 | Without an RM that reports an error the disk holds exactly the history that the steps alone determine |
| History.HistoryAccumulates | server/request_handler.c:75-87 | Without an RM of the path what is on the disk is what was there at the start followed by every body whose WRITE took effect, in order |
| History.SaveKeepsCount | server/request_handler.c:49-72 | A save keeps one version more exactly when its stamp is unused |
| History.ForeignRemovalLoses | server/request_handler.c:151-157 | Removing another path's entry takes exactly one version from that path's history |
| History.SiblingsReach | server/request_handler.c:150-151 | Concrete basenames that do and do not reach a sibling's versions |
| Termination.MeasureDecreases | server/thread_manager.c:46-107 | Every thread step decreases the sum of the threads' remaining work (nodes to scan, bytes and end-of-file reads, entries to meet) and stays within the run's totals |
| Termination.ServerTerminates | server/thread_manager.c:46-107 | From every reachable state there is a bound on the thread steps of any continuation without new clients |
| Termination.SomeoneSteps | server/thread_manager.c:68-95 | While a thread is unfinished some thread can step |
| Termination.MaximalRunServesAll | server/thread_manager.c:46-107 | A run that can go no further has finished every thread, with the mutex and every lock free |
| Termination.ServerCanFinish | server/thread_manager.c:46-107 | From every reachable state the threads can run to that end |
| Session.WriteThenGet | client/client.c:31-98 | A GET after a finished WRITE of the same path, with no WRITE or successful RM of it between, is announced the WRITE's length and sent its body |
| Session.GetAfterWrite | client/client.c:136-170 | Whatever run serves what the two clients' send loops put out, the second client is told the length of the first one's file and stores its content, or nothing when it is empty |
| Serving.ServiceExists | server/thread_manager.c:46-107 | For every WRITE client and GET client of one file there is a run from an empty disk that serves the first to its end and then the second |
| Session.SendRequest | client/client.c:31-61 | A header is sent exactly for a known command, for a WRITE only with its file; a server reads it as that command, `data/` and the argument, and the length of the file or zero; and a WRITE is followed by exactly its file |
| Session.ReceiveAnswer | client/client.c:89-98 | The client stores a file only for a GET answered with a positive length, and then a beginning of the stream that is at least as long, the whole one when the lengths agree |
| Session.WireRoundTrip | protocol.c:288-294 | The client reads back the status and the length of every reply, and its text word for word |
| Session.WireText | protocol.c:186-212 | A response starts with 1 or 0, a comma and the printed length |
| Answers.FinishedIsTold | server/request_handler.c:75-167 | In every run the client of a finished request reads, word for word, the response that belongs to what the atomic store held at the step where the request took effect |
| Answers.RefusedIsTold | server/thread_manager.c:46-100 | In every run a header that does not read is refused and its client is told so, an LS never gets inside and its client is told that it is not implemented, and nothing else is refused |
| Answers.AnsweredOnce | server/request_handler.c:75-167 | In every run a client is sent exactly one response, from one point of its thread on, and the bytes it has been sent are only ever added to |
| Session.HeaderRoundTrip | server/thread_manager.c:14-66 | From its parse on, at every step, a thread works on exactly the request the client printed, and it turns only an LS away, with that reply |
| Session.FormatPathIsUser | command.c:47-55 | Exactly which path arguments of the client name a file under its one spelling |
| Handlers.FileSystem.SaveCurrentVersion | server/request_handler.c:25-73 | Copies the current content to the stamped version, or does nothing without a current file |
| Handlers.FileSystem.HandleWriteRequest | server/request_handler.c:75-87 | Makes the missing directories, saves, then replaces the file by the bytes on the wire |
| Handlers.FileSystem.HandleGetRequest | server/request_handler.c:89-104 | Announces the size and sends the content, or reports the missing file |
| Handlers.FileSystem.HandleRemoveRequest | server/request_handler.c:106-167 | Removes the file and exactly the matching entries of its folder, or reports the empty path or the missing file |
| Handlers.WriteCall | server/request_handler.c:75-87 | An undisturbed WRITE is the atomic store's write, adds the body to its path's history and changes no other history |
| Handlers.RemoveCall | server/request_handler.c:106-167 | An undisturbed RM is the atomic store's, empties its path's history, and spares another path's exactly when no version of it passes the test |
| Solo.SoloWrite | server/request_handler.c:75-87 | A WRITE thread alone, however its body is cut, leaves the files, the directories and the reply of the handler |
| Solo.SoloRemove | server/request_handler.c:106-167 | An RM thread alone, in whatever order entries are listed, leaves the files and the reply of the handler |
| Solo.SoloGet | server/request_handler.c:89-104 | A GET thread alone changes no file and sends the bytes and the reply of the handler |
| Directories.NestedDirectoriesSucceed | utils.c:142-193 | However the calls interleave and however their paths are spelt, none fails, directories stay prefix-closed, only ancestors of the given paths are made and no absolute one, and a returned call's directory can be opened if and only if its name is not empty and has no leading slash, or it was there from the start; calls may begin, and unfinished ones go on, at any time |
| Directories.MkdirKeepsClosed | utils.c:180-189 | A single `mkdir` makes a directory exactly when its parent is there or it needs none |
| Directories.CallsAreAtomic | utils.c:142-193 | When every call has returned, the directories are those that the same calls leave when each is one step, in any order |
| Directories.LeadingSlash | utils.c:167-189 | A call for a file in `/x/y` returns with `x` and `x/y` made and `/x/y` missing |
| Directories.Disk.CreateNestedDirectories | utils.c:142-193 | One call fails only without a path and otherwise adds exactly the missing ancestors |
| Transfer.CopyFile | utils.c:30-53 | Appends the rest of the source, whatever its size, and stops at its end |
| Transfer.SendALL | utils.c:240-259 | Partial sends put exactly the given bytes on the wire, in order |
| Transfer.SendFileContents | utils.c:55-94 | Sends exactly the file; fails only when it cannot be opened |
| Transfer.ReceiveFileContents | utils.c:195-237 | Loses no byte, receives at least the announced number, and over a stream of that length writes exactly the stream |
| Transfer.TransferIsIdentity | utils.c:55-259 | For every interleaving of the sender's buffer reads and partial sends with the receiver's counted receives, what is written, under way and buffered is always the part read, the counter is what is still to come, a measure bounds the moves, and where none is possible the file has arrived and the counter is zero; any part of the buffer can be sent and any part of the wire received |
| Transfer.Relay | utils.c:55-94 | Sending and receiving compose to the identity, however both sides cut the stream |
| Protocol.RequestRoundTrip | protocol.c:81-147 | Printing then parsing a valid request gives it back exactly when its path has no comma, for every length up to LONG_MAX |
| Protocol.RequestIgnoresTail | protocol.c:110-147 | A request that has its three tokens is read the same whatever follows after another comma |
| Protocol.CommaCutsPath | protocol.c:81-147 | A printed request whose path has a comma is read as the same request for the part before it |
| Protocol.ParseRequest | protocol.c:110-147 | What is accepted has a known command, a non-empty comma-free path and a length from 0 to LONG_MAX |
| Protocol.RequestReads | protocol.c:55-147 | A text reads as a request exactly when it has three tokens, the first one of the eight command words and the second no negative number, and the tokens then are the request |
| Protocol.Unread | protocol.c:55-79 | An unknown command and a negative length are not read |
| Protocol.PrintedText | protocol.c:81-108 | The printed request, letter by letter |
| Protocol.ResponseRoundTrip | protocol.c:157-259 | Parsing a printed response gives back what was built, missing and empty messages having become NULL, exactly when the message has no comma |
| Protocol.MessageArrives | protocol.c:157-259 | A client reads the very message it was given, and the word NULL for a missing or an empty one |
| Protocol.ResponseReads | protocol.c:214-259 | A text reads as a response exactly when it has three tokens, a 0 or 1 first and no negative number second, and the tokens then are the response |
| Protocol.ResponseIdempotent | protocol.c:214-259 | Printing and parsing a parsed response changes nothing |
| Protocol.StrToCommandType | command.c:24-45 | Each command is denoted by its name and by the decimal of its place in the enum, and by nothing else |
| Protocol.CeilLog10IsDigitCount | protocol.c:89-94 | The ceiling of the exact logarithm is the printed digit count, except at the powers of ten, where it is one less |
| Protocol.RequestBufferFits | protocol.c:89-105 | The allocated length is the text and its terminator exactly off the powers of ten |
| Protocol.ResponseBufferFits | protocol.c:192-209 | The same for responses |
| Parsing.DeSerializeRequest | protocol.c:110-147 | The token loop computes the pure reading |
| Parsing.DeSerializeResponse | protocol.c:214-259 | The token loop computes the pure reading, rejecting a bad status at once |
| Parsing.Tokenizer.Next | protocol.c:120-138 | Each in-place cut yields the next non-empty maximal delimiter-free run |
| Text.TokensOfJoin | protocol.c:120-138 | Splitting undoes joining |
| Text.TokensConcat | protocol.c:120-138 | Two texts with a delimiter between them are split independently |
| Text.TokensFlatten | protocol.c:120-138 | Splitting loses nothing but delimiters |
| Text.DecimalDigit | protocol.c:81-108 | A printed number is its decimal digits in ASCII |
| Text.StrtolReads | protocol.c:120-138 | `strtol` skips white space, takes a sign and all digits, stops at the next character and saturates at the ends of a long |
| Text.StrtolWithout | protocol.c:120-138 | A text that starts with no number reads as zero |
| Paths.PathRebuilds | utils.c:96-140 | Directory, slash and basename rebuild a path, and the basename has no slash |
| Paths.PathParts | utils.c:96-140 | Only the rebuilt path has those parts |
| Paths.ExtractDirectory | utils.c:96-117 | The buffer holds the directory as a C string; fails only without a path or a buffer |
| Paths.ExtractBasename | utils.c:119-140 | The same for the basename |
| Paths.VersionNameInjective | server/request_handler.c:12-23 | Basename and stamp are recoverable from a version name, whatever the basename holds |
| Paths.KeyPathInjective | server/request_handler.c:37-58 | Versions of different files or stamps have different paths, and no version path is a user path |
| Paths.VersionLies | server/request_handler.c:12-58 | A version lies in the directory `.versions` of its file's directory, under the basename, a dot, the seconds, an underscore and the microseconds |
| Paths.VersionExample | server/request_handler.c:12-58 | The version of `data/a` at 17 s and 5 us is `data/.versions/a.17_5` |
| Paths.VersionPathFits | server/request_handler.c:37-58 | With ten-digit seconds, 231 is the longest path all of whose version paths fit 260 bytes |
| Paths.ReachesExactly | server/request_handler.c:150-151 | The prefix test hits some version of a basename exactly when a checkable condition on the two names holds |

## Left out

- Sockets, `accept`, process start-up, logging and thread creation: a client is a `Spawn` step with its header and body.
- Symbolic links and case folding: directory names are compared as text, up to repeated slashes (`Directories.Resolve`).
- Real file-system, clock and pthread calls: replaced by maps, a settable clock, and a read-write lock and mutex as POSIX specifies them, without fairness.
- Failing file calls, failing `send` and `recv`, zero-byte receives and `malloc` failure: their branches are not modelled.
- Bytes that arrive beyond the announced length: `Transfer.ReceiveFileContents` says what happens to them, the server model excludes them.
- The reply of a WRITE, GET or RM is sent in the same step as the action before it, and an RM's `opendir` in one step with listing what the scan must meet; neither is visible to another thread.
- A WRITE makes the directories of its path in one step of the server model, and its version folder in another; `Directories.CallsAreAtomic` relates the single steps to the interleaved calls.
- Removal.RemovalComplete: is about an RM that reports OK, because the source leaves entries behind when it reports an error.
- History.HistoryConserved: says that an RM with an error leaves some of the versions in order, not which: that depends on the entries removed meanwhile.
- The lock inside a list node: the list model keeps names and links, `Server.dfy` keeps the locks by position.
- LS: only its lock-node insertion and its fixed failure reply are steps of the model; the operation does not exist in the source.
- Rounding of `log10` in floating point, `int` truncation of buffer lengths, and the allocated buffers themselves.
- Clients whose path is not a user path or collides with a directory: `Paths.UserPath` and `Server.Placeable` exclude them, because the source locks by spelling and then two spellings of one file have two locks.
- Argument parsing, console output, shell scripts, and `freeFileLockList`, which the endless accept loop never reaches.
