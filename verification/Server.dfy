/**
 The server as a step machine: any number of client threads share the file map,
 the lock list, its mutex and the clock. One step is one visible action of one
 thread: a loop iteration of the lock search, a lock or unlock, one file call, one
 chunk read, sent or received, one directory entry.
 */
module Server {
  import opened Wrappers
  import opened Protocol
  import opened Paths
  import Directories
  import Parsing
  import Text
  import Transfer

  type Bytes = Transfer.Bytes
  type Files = map<Key, Bytes>
  type Tid = nat

  const CHUNK: nat := Transfer.MAX_BUFF_SIZE

  /** The messages of the server's responses; MessageText spells them out. */
  datatype Message =
    | MNone | MOk | MNoRequest | MNoLock | MNoLs | MNoCommand | MNoFile | MNoPath | MNoRemove | MNoHistory

  /** The arguments of a `buildAndSendResponse` call. */
  datatype Reply = Reply(status: bool, message: Message, len: int)

  /** The long texts are in two parts because proofs look through a literal character by character. */
  function MessageText(m: Message): string {
    match m
    case MNone => ""
    case MOk => "OK"
    case MNoRequest => "unable to receive request"
    case MNoLock => "failed to get file lock"
    case MNoLs => "optional command" + " isn't implemented yet"
    case MNoCommand => "didn't receive valid command"
    case MNoFile => "unable to open and/or get" + " size of the requested file"
    case MNoPath => "didn't receive file path"
    case MNoRemove => "unable to remove file"
    case MNoHistory => "ERROR: unable to remove all" + " prior versions of this file"
  }

  /** A POSIX read-write lock: readers share it, a writer has it alone. */
  datatype RwLock = RwLock(readers: nat, writer: bool)

  datatype PC =
    | Start                       // threadClientHandler entered, request not read
    | WantMutex                   // getLockFor: about to lock the list mutex
    | Scan(i: nat)                // getLockFor: about to look at node i
    | WantLock                    // has the node, about to lock it
    // handleWriteRequest
    | WMkdirs                     // about to create the directories of the path
    | WOpenOld                    // about to open the current file for saving
    | WStamp                      // about to read the clock
    | WMkFolder(at: nat)          // about to create the version folder
    | WOpenNew(at: nat)           // about to create the version file
    | WCopy(at: nat, off: nat)    // copying, `off` bytes done
    | WTruncate                   // about to open the file for writing
    | WFill(remaining: int)       // receiving the body
    // handleGetRequest
    | GSize                       // about to measure the file
    | GRead(off: nat)             // about to read a buffer at `off`
    | GSend(off: nat, buf: Bytes, eof: bool)  // sending the rest of a buffer read up to `off`
    // handleRemoveRequest
    | RRemove                     // about to remove the file
    | ROpenDir                    // about to open the version folder
    | RRead(must: set<Key>, seen: set<Key>, ok: bool)     // about to read a directory entry
    | RDelete(must: set<Key>, seen: set<Key>, entry: Key) // about to remove that entry
    | Unlock                      // replied, about to unlock
    | Done                        // finished after an unlock
    | Refused                     // finished without touching a file

  predicate WritePc(pc: PC) {
    || pc.WMkdirs? || pc.WOpenOld? || pc.WStamp? || pc.WMkFolder? || pc.WOpenNew?
    || pc.WCopy? || pc.WTruncate? || pc.WFill?
  }

  predicate GetPc(pc: PC) { pc.GSize? || pc.GRead? || pc.GSend? }

  predicate RemovePc(pc: PC) { pc.RRemove? || pc.ROpenDir? || pc.RRead? || pc.RDelete? }

  datatype Thread = Thread(
    header: string,           // what the first receive returns
    body: Bytes,              // what the client sends after it
    req: Request,             // the parsed request
    node: nat,                // the position of the lock node
    pc: PC,
    inbox: Bytes,             // body bytes not yet received
    reply: Option<Reply>,     // the response sent
    sent: Bytes)              // file bytes sent after the response

  datatype Shared = Shared(
    files: Files,
    dirs: set<string>,        // the directories other than version folders
    folders: set<string>,     // directories whose version folder exists
    nodes: seq<string>,       // the names in the lock list
    locks: seq<RwLock>,       // and their locks
    mutex: Option<Tid>,       // who holds the list mutex
    clock: nat,               // microseconds
    created: set<Key>)        // auxiliary: every version entry so far; no step reads it

  datatype State = State(sh: Shared, threads: map<Tid, Thread>)

  /** What the environment decides: how many bytes move, which entry `readdir` returns. */
  datatype Choice = Choice(n: nat, entry: Option<Key>)

  function FileAt(files: Files, k: Key): Option<Bytes> {
    if k in files then Some(files[k]) else None
  }

  function ContentsOf(files: Files, k: Key): Bytes {
    if k in files then files[k] else []
  }

  /** The entry is in the version folder beside `path`. */
  predicate InFolder(k: Key, path: string) {
    k.Version? && Directory(k.path) == Directory(path)
  }

  /** The `strncmp` test of `handleRemoveRequest`. */
  predicate NameMatches(k: Key, path: string) {
    k.Version? && Basename(path) <= VersionName(Basename(k.path), k.at)
  }

  function Respond(th: Thread, status: bool, len: int, message: Message, pc: PC): Thread {
    th.(reply := Some(Reply(status, message, len)), pc := pc)
  }

  // ---------------------------------------------------------------- thread steps

  predicate CanStep(sh: Shared, th: Thread, c: Choice) {
    match th.pc
    case WantMutex => sh.mutex.None?
    case WantLock =>
      (match th.req.command
       case GET => th.node < |sh.locks| && !sh.locks[th.node].writer
       case WRITE => th.node < |sh.locks| && sh.locks[th.node] == RwLock(0, false)
       case RM => th.node < |sh.locks| && sh.locks[th.node] == RwLock(0, false)
       case LS => true
       case UNKNOWN => true)
    case WFill(remaining) => remaining > 0 ==> 1 <= c.n <= CHUNK && c.n <= |th.inbox|
    case GSend(_, buf, _) => buf != [] ==> 1 <= c.n <= |buf|
    case RRead(must, seen, _) =>
      (match c.entry
       case Some(k) => InFolder(k, th.req.path) && (k in must || k in sh.files) && k !in seen
       case None => forall k :: k in must && k in sh.files ==> k in seen)
    case Unlock => th.node < |sh.locks| && (th.req.command == GET ==> sh.locks[th.node].readers > 0)
    case Done => false
    case Refused => false
    case _ => true
  }

  function Step(sh: Shared, me: Tid, th: Thread, c: Choice): (Shared, Thread)
    requires CanStep(sh, th, c)
  {
    if WritePc(th.pc) then WriteStep(sh, th, c)
    else if GetPc(th.pc) then (sh, GetStep(sh.files, th, c))
    else if RemovePc(th.pc) then RemoveStep(sh, th, c)
    else
      match th.pc
      case Start => (sh, Receive(th))
      case WantMutex => (sh.(mutex := Some(me)), th.(pc := Scan(0)))
      case Scan(i) => ScanStep(sh, th, i)
      case WantLock => LockStep(sh, th)
      case Unlock => UnlockStep(sh, th)
      case _ => (sh, th)
  }

  /** `receiveRequest`, with the refusal that follows when it fails. */
  function Receive(th: Thread): Thread {
    match ParseRequest(th.header)
    case None => Respond(th, false, 0, MNoRequest, Refused)
    case Some(req) => th.(req := req, pc := WantMutex)
  }

  /** One iteration of the search in `getLockFor`, or the insertion after it. */
  function ScanStep(sh: Shared, th: Thread, i: nat): (Shared, Thread) {
    var path := th.req.path;
    if i < |sh.nodes| then
      if sh.nodes[i] == path then (sh.(mutex := None), th.(node := i, pc := WantLock))
      else (sh, th.(pc := Scan(i + 1)))
    else if path == "" then
      (sh.(mutex := None), Respond(th, false, 0, MNoLock, Refused))
    else
      (sh.(mutex := None, nodes := sh.nodes + [path], locks := sh.locks + [RwLock(0, false)]),
       th.(node := |sh.nodes|, pc := WantLock))
  }

  function LockStep(sh: Shared, th: Thread): (Shared, Thread)
    requires th.pc == WantLock && CanStep(sh, th, Choice(0, None))
  {
    var n := th.node;
    match th.req.command
    case GET => (sh.(locks := sh.locks[n := RwLock(sh.locks[n].readers + 1, false)]), th.(pc := GSize))
    case WRITE => (sh.(locks := sh.locks[n := RwLock(0, true)]), th.(pc := WMkdirs))
    case RM => (sh.(locks := sh.locks[n := RwLock(0, true)]), th.(pc := RRemove))
    case LS => (sh, Respond(th, false, 0, MNoLs, Refused))
    case UNKNOWN => (sh, Respond(th, false, 0, MNoCommand, Refused))
  }

  function UnlockStep(sh: Shared, th: Thread): (Shared, Thread)
    requires th.pc == Unlock && CanStep(sh, th, Choice(0, None))
  {
    var n := th.node;
    if th.req.command == GET then
      (sh.(locks := sh.locks[n := RwLock(sh.locks[n].readers - 1, sh.locks[n].writer)]), th.(pc := Done))
    else
      (sh.(locks := sh.locks[n := RwLock(sh.locks[n].readers, false)]), th.(pc := Done))
  }

  /** `handleWriteRequest`: save the current version, then replace the file by the body. */
  function WriteStep(sh: Shared, th: Thread, c: Choice): (Shared, Thread)
    requires th.pc.WFill? ==> CanStep(sh, th, c)
  {
    var file := User(th.req.path);
    match th.pc
    case WMkdirs =>
      (sh.(dirs := Directories.AfterNested(sh.dirs, Directory(th.req.path))), th.(pc := WOpenOld))
    case WOpenOld => (sh, th.(pc := if file in sh.files then WStamp else WTruncate))
    case WStamp => (sh, th.(pc := WMkFolder(sh.clock)))
    case WMkFolder(at) =>
      (sh.(folders := sh.folders + {Directory(th.req.path)}), th.(pc := WOpenNew(at)))
    case WOpenNew(at) =>
      var v := Version(th.req.path, at);
      (sh.(files := sh.files[v := []], created := sh.created + {v}), th.(pc := WCopy(at, 0)))
    case WCopy(at, off) =>
      // An entry removed meanwhile stays removed: the copy goes on into an unlinked file.
      var v := Version(th.req.path, at);
      var chunk := Transfer.ChunkAt(ContentsOf(sh.files, file), off);
      (sh.(files := if v in sh.files then sh.files[v := sh.files[v] + chunk] else sh.files),
       th.(pc := if |chunk| < CHUNK then WTruncate else WCopy(at, off + |chunk|)))
    case WTruncate => (sh.(files := sh.files[file := []]), th.(pc := WFill(th.req.dataLen)))
    case WFill(remaining) =>
      if remaining <= 0 then (sh, Respond(th, true, 0, MNone, Unlock))
      else
        (sh.(files := sh.files[file := ContentsOf(sh.files, file) + th.inbox[..c.n]]),
         th.(inbox := th.inbox[c.n..], pc := WFill(remaining - c.n)))
    case _ => (sh, th)
  }

  /** `handleGetRequest`: measure, answer, then send the file buffer by buffer. */
  function GetStep(files: Files, th: Thread, c: Choice): Thread
    requires th.pc.GSend? && th.pc.buf != [] ==> 1 <= c.n <= |th.pc.buf|
  {
    var file := User(th.req.path);
    match th.pc
    case GSize =>
      if file in files then Respond(th, true, |files[file]|, MOk, GRead(0))
      else Respond(th, false, 0, MNoFile, Unlock)
    case GRead(off) =>
      var chunk := Transfer.ChunkAt(ContentsOf(files, file), off);
      th.(pc := GSend(off + |chunk|, chunk, |chunk| < CHUNK))
    case GSend(off, buf, eof) =>
      if buf == [] then th.(pc := if eof then Unlock else GRead(off))
      else th.(sent := th.sent + buf[..c.n], pc := GSend(off, buf[c.n..], eof))
    case _ => th
  }

  /** `handleRemoveRequest`: remove the file, then the matching entries of its version folder. */
  function RemoveStep(sh: Shared, th: Thread, c: Choice): (Shared, Thread) {
    var file := User(th.req.path);
    match th.pc
    case RRemove =>
      if th.req.path == "" then (sh, Respond(th, false, 0, MNoPath, Unlock))
      else if file in sh.files then (sh.(files := sh.files - {file}), th.(pc := ROpenDir))
      else (sh, Respond(th, false, 0, MNoRemove, Unlock))
    case ROpenDir =>
      if Directory(th.req.path) in sh.folders then
        (sh, th.(pc := RRead(set k | k in sh.files && InFolder(k, th.req.path), {}, true)))
      else (sh, Respond(th, true, 0, MOk, Unlock))
    case RRead(must, seen, ok) =>
      (match c.entry
       case None =>
         (sh, if ok then Respond(th, true, 0, MOk, Unlock) else Respond(th, false, 0, MNoHistory, Unlock))
       case Some(k) =>
         // `success && remove(...)`: after one failure no further entry is removed.
         (sh, th.(pc := if ok && NameMatches(k, th.req.path) then RDelete(must, seen + {k}, k)
                        else RRead(must, seen + {k}, ok))))
    case RDelete(must, seen, entry) =>
      (sh.(files := sh.files - {entry}), th.(pc := RRead(must, seen, entry in sh.files)))
    case _ => (sh, th)
  }

  // ---------------------------------------------------------------- the whole server

  datatype Label = Run(t: Tid, c: Choice) | Spawn(t: Tid, header: string, body: Bytes) | Tick(now: nat)

  /**
   Clients send a header that fits the first receive and is a C string, name user files,
   and follow a WRITE by exactly the bytes it announced.
   */
  predicate GoodClient(header: string, body: Bytes) {
    && |header| < CHUNK && Parsing.NUL !in header
    && var r := ParseRequest(header);
       r.Some? ==> UserPath(r.value.path) && (r.value.command == WRITE ==> |body| == r.value.dataLen)
  }

  /** `p` is a directory on the way to `q`. */
  predicate Under(p: string, q: string) { p + "/" <= q }

  predicate Apart(p: string, q: string) { !Under(p, q) && !Under(q, p) }

  predicate Finished(th: Thread) { th.pc.Done? || th.pc.Refused? }

  function PathIn(header: string): Option<string> {
    var r := ParseRequest(header);
    if r.Some? then Some(r.value.path) else None
  }

  /** The path is not a directory and no file is in its way. */
  predicate RoomFor(sh: Shared, path: string) {
    path !in sh.dirs && forall k :: k in sh.files && k.User? ==> !Under(k.path, path)
  }

  /** There is room for the client's path, and no request under way needs it as a directory, or the other way round. */
  predicate Placeable(s: State, header: string) {
    var path := PathIn(header);
    path.Some? ==>
      && RoomFor(s.sh, path.value)
      && forall t :: t in s.threads && !Finished(s.threads[t]) ==>
           var q := PathIn(s.threads[t].header); q.Some? ==> Apart(q.value, path.value)
  }

  predicate Enabled(s: State, l: Label) {
    match l
    case Run(t, c) => t in s.threads && CanStep(s.sh, s.threads[t], c)
    case Spawn(t, header, body) => t !in s.threads && GoodClient(header, body) && Placeable(s, header)
    case Tick(_) => true
  }

  function NewThread(header: string, body: Bytes): Thread {
    Thread(header, body, Request(UNKNOWN, "", 0), 0, Start, body, None, [])
  }

  function Next(s: State, l: Label): State
    requires Enabled(s, l)
  {
    match l
    case Run(t, c) =>
      var (sh, th) := Step(s.sh, t, s.threads[t], c);
      State(sh, s.threads[t := th])
    case Spawn(t, header, body) => State(s.sh, s.threads[t := NewThread(header, body)])
    case Tick(now) => State(s.sh.(clock := now), s.threads)
  }

  /** A directory has its parent, a version folder its directory, and a file its folder; no file is a directory. */
  predicate DiskOk(sh: Shared) {
    && Directories.PrefixClosed(sh.dirs) && sh.folders <= sh.dirs
    && (forall d :: d in sh.dirs ==> ".versions" !in Text.Tokens(d, '/'))
    && (forall k :: k in sh.files ==>
          && UserPath(k.path)
          && Directory(k.path) in (if k.User? then sh.dirs else sh.folders)
          && (k.User? ==> k.path !in sh.dirs))
  }

  /** A freshly started server over any disk. */
  predicate Initial(s: State) {
    && s.threads == map[]
    && s.sh.nodes == [] && s.sh.locks == [] && s.sh.mutex == None
    && DiskOk(s.sh)
    && (forall k :: k in s.sh.files && k.Version? ==> k in s.sh.created)
  }

  ghost predicate IsRun(states: seq<State>, labels: seq<Label>) {
    && |states| == |labels| + 1
    && forall i :: 0 <= i < |labels| ==> Enabled(states[i], labels[i]) && states[i + 1] == Next(states[i], labels[i])
  }
}
