/**
 Exactly which steps the server can take: who may enter the list and the locks, how many bytes
 may move and which entries may be met, in terms of what the threads are doing and of the disk.
 */
module Scheduling {
  import opened Wrappers
  import opened Text
  import opened Protocol
  import opened Paths
  import opened Server
  import opened Locking
  import opened Refinement
  import opened Removal
  import Naming
  import Parsing

  // ---------------------------------------------------------------- the locks

  /** A thread of this path is between taking its lock and releasing it. */
  predicate Inside(threads: Threads, u: Tid, path: string) {
    u in threads && InSection(threads[u]) && threads[u].req.path == path
  }

  /** At one lock node exactly the threads of its path are inside. */
  lemma NodeIsPath(s: State, t: Tid, u: Tid)
    requires LockInv(s) && t in s.threads && HasNode(s.threads[t])
    requires u in s.threads && InSection(s.threads[u])
    ensures s.threads[u].node == s.threads[t].node <==> s.threads[u].req.path == s.threads[t].req.path
  {
    hide LockOk, RequestOk;
    assert PlacedOk(s.sh, t, s.threads[t]) && PlacedOk(s.sh, u, s.threads[u]);
  }

  lemma WriterIsInside(s: State, t: Tid)
    requires LockInv(s) && t in s.threads && HasNode(s.threads[t])
    ensures s.threads[t].node < |s.sh.locks|
    ensures var path := s.threads[t].req.path;
      s.sh.locks[s.threads[t].node].writer
      <==> exists u :: Inside(s.threads, u, path) && s.threads[u].req.command != GET
  {
    hide RequestOk, LockOk;
    var n := s.threads[t].node;
    assert PlacedOk(s.sh, t, s.threads[t]) && LockOk(s.sh.locks[n], s.threads, n);
    WriterCount(s.sh.locks[n], s.threads, n);
    forall u | u in s.threads && InSection(s.threads[u])
      ensures s.threads[u].node == n <==> s.threads[u].req.path == s.threads[t].req.path
    {
      NodeIsPath(s, t, u);
    }
    if u :| u in s.threads && Writes(s.threads[u], n) {
      assert Inside(s.threads, u, s.threads[t].req.path);
    }
    if u :| Inside(s.threads, u, s.threads[t].req.path) && s.threads[u].req.command != GET {
      assert Writes(s.threads[u], n);
    }
  }

  lemma WriterCount(lock: RwLock, threads: Threads, n: nat)
    requires LockOk(lock, threads, n)
    ensures lock.writer <==> exists u :: u in threads && Writes(threads[u], n)
    ensures lock.readers > 0 <==> exists u :: u in threads && Reads(threads[u], n)
  {
    if u :| u in threads && Writes(threads[u], n) {
      assert u in Writers(threads, n);
    }
    if u :| u in threads && Reads(threads[u], n) {
      assert u in Readers(threads, n);
    }
    if Writers(threads, n) != {} {
      var u :| u in Writers(threads, n);
      assert u in threads && Writes(threads[u], n);
    }
    if Readers(threads, n) != {} {
      var u :| u in Readers(threads, n);
      assert u in threads && Reads(threads[u], n);
    }
  }

  lemma FreeIsEmpty(s: State, t: Tid)
    requires LockInv(s) && t in s.threads && HasNode(s.threads[t])
    ensures s.threads[t].node < |s.sh.locks|
    ensures s.sh.locks[s.threads[t].node] == RwLock(0, false)
       <==> forall u :: !Inside(s.threads, u, s.threads[t].req.path)
  {
    hide RequestOk, LockOk;
    var n := s.threads[t].node;
    assert PlacedOk(s.sh, t, s.threads[t]) && LockOk(s.sh.locks[n], s.threads, n);
    WriterCount(s.sh.locks[n], s.threads, n);
    forall u | u in s.threads && InSection(s.threads[u])
      ensures s.threads[u].node == n <==> s.threads[u].req.path == s.threads[t].req.path
    {
      NodeIsPath(s, t, u);
    }
    if u :| u in s.threads && (Writes(s.threads[u], n) || Reads(s.threads[u], n)) {
      assert Inside(s.threads, u, s.threads[t].req.path);
    }
    if u :| Inside(s.threads, u, s.threads[t].req.path) {
      assert Writes(s.threads[u], n) || Reads(s.threads[u], n);
    }
  }

  /** The list mutex is free exactly when nobody searches the list. */
  lemma MutexIsSearch(s: State)
    requires LockInv(s)
    ensures s.sh.mutex.None? <==> forall u :: u in s.threads ==> !s.threads[u].pc.Scan?
  {
    hide LockOk, RequestOk, RegistryOk;
    if u :| u in s.threads && s.threads[u].pc.Scan? {
      assert PlacedOk(s.sh, u, s.threads[u]);
    }
  }

  // ---------------------------------------------------------------- every step

  /** When a thread may take its lock: a reader while no writer is inside, a writer while nobody is. */
  ghost predicate MayEnter(threads: Threads, th: Thread) {
    match th.req.command
    case GET => forall u :: Inside(threads, u, th.req.path) ==> threads[u].req.command == GET
    case WRITE => forall u :: !Inside(threads, u, th.req.path)
    case RM => forall u :: !Inside(threads, u, th.req.path)
    case LS => true
    case UNKNOWN => true
  }

  /** What the rest of the world may choose for a thread's next step, and whether there is one. */
  ghost predicate Possible(s: State, th: Thread, c: Choice) {
    var content := ContentsOf(s.sh.files, User(th.req.path));
    match th.pc
    case Done => false
    case Refused => false
    case WantMutex => forall u :: u in s.threads ==> !s.threads[u].pc.Scan?
    case WantLock => MayEnter(s.threads, th)
    case WFill(_) =>
      // Any number of the bytes still to come, up to a buffer.
      |content| == |th.body| || (1 <= c.n <= 2000 && |content| + c.n <= |th.body|)
    case GSend(off, _, _) =>
      // Any number of the bytes read and not yet sent.
      |th.sent| == off || (1 <= c.n && |th.sent| + c.n <= off)
    case RRead(must, seen, _) =>
      (match c.entry
       case Some(k) =>
         // Any file of the version folder not met before, and any listed one that has gone since.
         k !in seen && k.Version? && Directory(VersionPath(k.path, k.at)) == Directory(th.req.path) + "/.versions"
         && (k in must || k in s.sh.files)
       case None => forall k :: k in must && k in s.sh.files ==> k in seen)
    case _ => true
  }

  lemma FolderIsDirectory(k: Key, path: string)
    ensures InFolder(k, path)
       <==> k.Version? && Directory(VersionPath(k.path, k.at)) == Directory(path) + "/.versions"
  {
    hide Directory, Basename;
    if k.Version? {
      VersionPathParts(k.path, k.at);
      var a, b := Directory(k.path), Directory(path);
      assert VersionFolder(a) == a + "/.versions";
      assert (a + "/.versions")[..|a + "/.versions"| - 10] == a;
      assert (b + "/.versions")[..|b + "/.versions"| - 10] == b;
    }
  }

  lemma FillPossible(s: State, th: Thread, c: Choice, o: Option<Outcome>)
    requires th.pc.WFill? && ThreadRel(s.sh.files, o, th)
    ensures CanStep(s.sh, th, c) <==> Possible(s, th, c)
  {
  }

  lemma SendPossible(s: State, th: Thread, c: Choice, o: Option<Outcome>)
    requires th.pc.GSend? && ThreadRel(s.sh.files, o, th)
    ensures CanStep(s.sh, th, c) <==> Possible(s, th, c)
  {
    var content := s.sh.files[User(th.req.path)];
    assert |th.sent + th.pc.buf| == th.pc.off;
  }

  lemma ScanPossible(s: State, th: Thread, c: Choice)
    requires th.pc.RRead?
    ensures CanStep(s.sh, th, c) <==> Possible(s, th, c)
  {
    hide InFolder, Directory, VersionPath;
    if c.entry.Some? {
      FolderIsDirectory(c.entry.value, th.req.path);
    }
  }

  lemma LockPossible(s: State, t: Tid, c: Choice)
    requires LockInv(s) && t in s.threads && s.threads[t].pc.WantLock?
    ensures CanStep(s.sh, s.threads[t], c) <==> MayEnter(s.threads, s.threads[t])
  {
    hide LockInv, Inside;
    WriterIsInside(s, t);
    FreeIsEmpty(s, t);
  }

  lemma UnlockPossible(s: State, t: Tid)
    requires LockInv(s) && t in s.threads && s.threads[t].pc.Unlock?
    ensures CanStep(s.sh, s.threads[t], Choice(0, None))
  {
    hide RequestOk, LockOk;
    var n := s.threads[t].node;
    assert PlacedOk(s.sh, t, s.threads[t]) && LockOk(s.sh.locks[n], s.threads, n);
    WriterCount(s.sh.locks[n], s.threads, n);
    assert s.threads[t].req.command == GET ==> Reads(s.threads[t], n);
  }

  lemma StepPossible(s: State, spec: Spec, t: Tid, c: Choice)
    requires LockInv(s) && Refines(s, spec) && t in s.threads
    ensures Enabled(s, Run(t, c)) <==> Possible(s, s.threads[t], c)
  {
    hide LockInv, ThreadRel, StoreRel, MayEnter, InFolder, Directory, VersionPath;
    var th := s.threads[t];
    assert ThreadRel(s.sh.files, OutcomeOf(spec, t), th);
    match th.pc
    case WantMutex => MutexIsSearch(s);
    case WantLock => LockPossible(s, t, c);
    case WFill(_) => FillPossible(s, th, c, OutcomeOf(spec, t));
    case GSend(_, _, _) => SendPossible(s, th, c, OutcomeOf(spec, t));
    case RRead(_, _, _) => ScanPossible(s, th, c);
    case Unlock => UnlockPossible(s, t);
    case _ =>
  }

  /** In every reachable state a thread can take exactly the steps that are possible. */
  lemma StepsExactly(states: seq<State>, labels: seq<Label>, i: nat, t: Tid, c: Choice)
    requires IsRun(states, labels) && i <= |labels| && Initial(states[0]) && t in states[i].threads
    ensures Enabled(states[i], Run(t, c)) <==> Possible(states[i], states[i].threads[t], c)
  {
    hide LockInv, Refines, Next, Enabled, Initial, Possible;
    RunRefinesStore(states, labels, i);
    StepPossible(states[i], SpecAt(states, labels, i), t, c);
  }

  lemma InsideCommand(s: State, u: Tid)
    requires LockInv(s) && u in s.threads && InSection(s.threads[u])
    ensures s.threads[u].req.command in {WRITE, GET, RM}
  {
    hide LockOk, Accepted, GoodClient, ParseRequest;
    assert RequestOk(s.threads[u]);
  }

  /** A GET gets its read lock exactly when no WRITE or RM of its path is inside: readers share. */
  lemma ReaderEntersExactly(states: seq<State>, labels: seq<Label>, i: nat, t: Tid)
    requires IsRun(states, labels) && i <= |labels| && Initial(states[0]) && t in states[i].threads
    requires states[i].threads[t].pc.WantLock? && states[i].threads[t].req.command == GET
    ensures var s := states[i];
      (exists c :: Enabled(s, Run(t, c)))
      <==> forall u :: u in s.threads && s.threads[u].req.path == s.threads[t].req.path && InSection(s.threads[u]) ==>
             s.threads[u].req.command != WRITE && s.threads[u].req.command != RM
  {
    hide LockInv, Refines, Next, CanStep, Initial;
    var s := states[i];
    RunRefinesStore(states, labels, i);
    forall c
      ensures Enabled(s, Run(t, c)) <==> MayEnter(s.threads, s.threads[t])
    {
      StepsExactly(states, labels, i, t, c);
    }
    assert Enabled(s, Run(t, Choice(0, None))) <==> MayEnter(s.threads, s.threads[t]);
    forall u | u in s.threads && InSection(s.threads[u])
      ensures s.threads[u].req.command in {WRITE, GET, RM}
    {
      InsideCommand(s, u);
    }
    assert forall u :: u in s.threads && s.threads[u].req.path == s.threads[t].req.path && InSection(s.threads[u])
             <==> Inside(s.threads, u, s.threads[t].req.path);
  }

  /** A WRITE or an RM gets its write lock exactly when no thread of its path is inside. */
  lemma WriterEntersExactly(states: seq<State>, labels: seq<Label>, i: nat, t: Tid)
    requires IsRun(states, labels) && i <= |labels| && Initial(states[0]) && t in states[i].threads
    requires states[i].threads[t].pc.WantLock?
    requires states[i].threads[t].req.command == WRITE || states[i].threads[t].req.command == RM
    ensures var s := states[i];
      (exists c :: Enabled(s, Run(t, c)))
      <==> forall u :: u in s.threads && s.threads[u].req.path == s.threads[t].req.path ==> !InSection(s.threads[u])
  {
    hide LockInv, Refines, Next, CanStep, Initial;
    var s := states[i];
    forall c
      ensures Enabled(s, Run(t, c)) <==> MayEnter(s.threads, s.threads[t])
    {
      StepsExactly(states, labels, i, t, c);
    }
    assert Enabled(s, Run(t, Choice(0, None))) <==> MayEnter(s.threads, s.threads[t]);
    assert forall u :: u in s.threads && s.threads[u].req.path == s.threads[t].req.path && InSection(s.threads[u])
             <==> Inside(s.threads, u, s.threads[t].req.path);
  }

  /** While a request is under way, any other client may come with the same path. */
  lemma SamePathMayCome(states: seq<State>, labels: seq<Label>, i: nat, t: Tid, u: Tid, header: string, body: Bytes)
    requires IsRun(states, labels) && i <= |labels| && Initial(states[0])
    requires t in states[i].threads && !Finished(states[i].threads[t]) && u !in states[i].threads
    requires GoodClient(header, body)
    requires PathIn(header).Some? && PathIn(states[i].threads[t].header) == PathIn(header)
    ensures Enabled(states[i], Spawn(u, header, body))
  {
    hide GoodClient, PathIn, Next, CanStep, Initial, DiskOk, RoomFor, Apart;
    Naming.RunNames(states, labels, i);
    var s := states[i];
    assert Naming.ThreadPlaced(s.sh, s.threads[t]);
    forall v | v in s.threads && !Finished(s.threads[v]) && PathIn(s.threads[v].header).Some?
      ensures Apart(PathIn(s.threads[v].header).value, PathIn(header).value)
    {
      assert Naming.PairApart(s.threads[v], s.threads[t]);
    }
  }

  /** A client whose header does not read may come at any time, and the clock may be set to any time. */
  lemma AnyoneMayTry(s: State, u: Tid, header: string, body: Bytes, now: nat)
    requires u !in s.threads && |header| < 2000 && Parsing.NUL !in header && ParseRequest(header).None?
    ensures Enabled(s, Spawn(u, header, body)) && Enabled(s, Tick(now))
  {
    hide ParseRequest;
  }

  /** Which clients are admitted, by the tokens of their headers. */
  lemma AdmittedExactly(header: string, body: Bytes)
    ensures var ts := Tokens(header, ',');
      GoodClient(header, body)
      <==> && |header| < 2000 && Parsing.NUL !in header
           && (|ts| >= 3 && ts[0] in {"WRITE", "GET", "RM", "LS", "0", "1", "2", "3"} && Strtol(ts[1]) >= 0 ==>
                 UserPath(ts[2]) && (ts[0] in {"WRITE", "0"} ==> |body| == Strtol(ts[1])))
  {
    hide ParseRequest, UserPath, Tokens, Strtol;
    RequestReads(header);
  }

  /** The server may start over any disk in order, at any time. */
  lemma AnyDiskStarts(files: Files, dirs: set<string>, folders: set<string>, clock: nat)
    requires DiskOk(Shared(files, dirs, folders, [], [], None, clock, files.Keys))
    ensures Initial(State(Shared(files, dirs, folders, [], [], None, clock, files.Keys), map[]))
  {
    hide DiskOk;
  }

  // ---------------------------------------------------------------- the folder and its entries

  /** An RM lists the files of `.versions` beside its file, and tests their names as they are on the disk. */
  lemma EntriesByName(k: Key, path: string)
    ensures Hits(k, path)
       <==> k.Version? && Directory(KeyPath(k)) == Directory(path) + "/.versions"
            && Basename(path) <= Basename(KeyPath(k))
  {
    hide Directory, Basename, VersionPath, VersionName, InFolder;
    FolderIsDirectory(k, path);
    if k.Version? {
      VersionPathParts(k.path, k.at);
    }
  }

  /** What the scan has to meet is what the folder holds when it is opened. */
  lemma OpenLists(sh: Shared, th: Thread, c: Choice)
    requires th.pc.ROpenDir? && Directory(th.req.path) in sh.folders
    ensures var (sh', th') := RemoveStep(sh, th, c);
      && sh' == sh && th'.pc.RRead? && th'.pc.seen == {}
      && forall k :: k in th'.pc.must
           <==> k in sh.files && k.Version? && Directory(KeyPath(k)) == Directory(th.req.path) + "/.versions"
  {
    hide Directory, InFolder, VersionPath;
    forall k: Key
      ensures InFolder(k, th.req.path)
         <==> k.Version? && Directory(KeyPath(k)) == Directory(th.req.path) + "/.versions"
    {
      FolderIsDirectory(k, th.req.path);
    }
  }
}
