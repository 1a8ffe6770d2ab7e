/**
 The lock discipline: in every reachable state the mutex, the lock list and the
 read-write locks agree with the threads' program counters.
 */
module Locking {
  import opened Wrappers
  import opened Protocol
  import opened Paths
  import opened Server
  import LockList

  type Threads = map<Tid, Thread>

  /** Between taking the file's lock and releasing it. */
  predicate InSection(th: Thread) {
    WritePc(th.pc) || GetPc(th.pc) || RemovePc(th.pc) || th.pc.Unlock?
  }

  predicate HasNode(th: Thread) { th.pc.WantLock? || InSection(th) }

  predicate Reads(th: Thread, n: nat) { InSection(th) && th.node == n && th.req.command == GET }

  predicate Writes(th: Thread, n: nat) { InSection(th) && th.node == n && th.req.command != GET }

  ghost function Readers(threads: Threads, n: nat): set<Tid> {
    set t | t in threads && Reads(threads[t], n)
  }

  ghost function Writers(threads: Threads, n: nat): set<Tid> {
    set t | t in threads && Writes(threads[t], n)
  }

  // ---------------------------------------------------------------- the invariant

  predicate RegistryOk(sh: Shared) {
    |sh.locks| == |sh.nodes| && LockList.Distinct(sh.nodes) && "" !in sh.nodes
  }

  /** The request is the parsed header, and the program counter belongs to its command. */
  predicate RequestOk(th: Thread) {
    && GoodClient(th.header, th.body)
    && (!th.pc.Start? && !th.pc.Refused? ==> Accepted(th))
    && (th.pc.Refused? ==>
          || (ParseRequest(th.header).None? && th.reply == Some(Reply(false, MNoRequest, 0)))
          || (Accepted(th) && th.req.command == LS && th.reply == Some(Reply(false, MNoLs, 0))))
    && PcOk(th.pc, th.req.command)
  }

  predicate Accepted(th: Thread) {
    && ParseRequest(th.header) == Some(th.req) && ValidRequest(th.req) && UserPath(th.req.path)
    && (th.req.command == WRITE ==> |th.body| == th.req.dataLen)
  }

  predicate PcOk(pc: PC, command: Command) {
    && (WritePc(pc) ==> command == WRITE)
    && (GetPc(pc) ==> command == GET)
    && (RemovePc(pc) ==> command == RM)
    && (pc.Unlock? || pc.Done? ==> command == WRITE || command == GET || command == RM)
    && (pc.RDelete? ==> pc.entry.Version?)
  }

  predicate PlacedOk(sh: Shared, t: Tid, th: Thread) {
    && (th.pc.Scan? ==>
          && sh.mutex == Some(t) && th.pc.i <= |sh.nodes|
          && forall j :: 0 <= j < th.pc.i ==> sh.nodes[j] != th.req.path)
    && (HasNode(th) ==> th.node < |sh.nodes| && sh.nodes[th.node] == th.req.path)
  }

  predicate MutexOk(s: State) {
    s.sh.mutex.Some? ==> s.sh.mutex.value in s.threads && s.threads[s.sh.mutex.value].pc.Scan?
  }

  /** The lock's state is the count of the threads inside. */
  ghost predicate LockOk(lock: RwLock, threads: Threads, n: nat) {
    && lock.readers == |Readers(threads, n)|
    && |Writers(threads, n)| == (if lock.writer then 1 else 0)
    && (lock.writer ==> lock.readers == 0)
  }

  ghost predicate LockInv(s: State) {
    && RegistryOk(s.sh)
    && MutexOk(s)
    && (forall t :: t in s.threads ==> RequestOk(s.threads[t]) && PlacedOk(s.sh, t, s.threads[t]))
    && (forall n :: 0 <= n < |s.sh.locks| ==> LockOk(s.sh.locks[n], s.threads, n))
  }

  // ---------------------------------------------------------------- what the handlers leave alone

  lemma WriteFrame(sh: Shared, th: Thread, c: Choice)
    requires WritePc(th.pc) && CanStep(sh, th, c)
    ensures var (sh', th') := WriteStep(sh, th, c);
      && sh' == sh.(files := sh'.files, dirs := sh'.dirs, folders := sh'.folders, created := sh'.created)
      && th' == th.(pc := th'.pc, inbox := th'.inbox, reply := th'.reply)
      && (WritePc(th'.pc) || th'.pc.Unlock?)
  {
  }

  lemma GetFrame(files: Files, th: Thread, c: Choice)
    requires GetPc(th.pc)
    requires th.pc.GSend? && th.pc.buf != [] ==> 1 <= c.n <= |th.pc.buf|
    ensures var th' := GetStep(files, th, c);
      && th' == th.(pc := th'.pc, sent := th'.sent, reply := th'.reply)
      && (GetPc(th'.pc) || th'.pc.Unlock?)
  {
  }

  lemma RemoveFrame(sh: Shared, th: Thread, c: Choice)
    requires RemovePc(th.pc) && CanStep(sh, th, c)
    ensures var (sh', th') := RemoveStep(sh, th, c);
      && sh' == sh.(files := sh'.files)
      && th' == th.(pc := th'.pc, reply := th'.reply)
      && (RemovePc(th'.pc) || th'.pc.Unlock?)
      && (th'.pc.RDelete? ==> th'.pc.entry.Version?)
  {
  }

  // ---------------------------------------------------------------- one step

  /** Neither locks nor unlocks; a free lock may be appended. */
  predicate QuietMove(sh: Shared, sh': Shared, th: Thread, th': Thread) {
    && (sh'.locks == sh.locks || sh'.locks == sh.locks + [RwLock(0, false)])
    && InSection(th') == InSection(th)
    && (InSection(th) ==> th'.node == th.node && th'.req == th.req)
  }

  predicate AcquireMove(sh: Shared, sh': Shared, th: Thread, th': Thread) {
    && th.pc.WantLock? && InSection(th') && th'.node == th.node < |sh.locks| && th'.req == th.req
    && var lock := sh.locks[th.node];
       if th.req.command == GET then
         !lock.writer && sh'.locks == sh.locks[th.node := RwLock(lock.readers + 1, false)]
       else
         lock == RwLock(0, false) && sh'.locks == sh.locks[th.node := RwLock(0, true)]
  }

  predicate ReleaseMove(sh: Shared, sh': Shared, th: Thread, th': Thread) {
    && th.pc.Unlock? && th'.pc.Done? && th.node < |sh.locks|
    && var lock := sh.locks[th.node];
       if th.req.command == GET then
         lock.readers > 0 && sh'.locks == sh.locks[th.node := RwLock(lock.readers - 1, lock.writer)]
       else
         sh'.locks == sh.locks[th.node := RwLock(lock.readers, false)]
  }

  /** All that a step of thread `me` may do to the registry, the mutex and the locks. */
  predicate LockMove(sh: Shared, sh': Shared, me: Tid, th: Thread, th': Thread) {
    && RequestOk(th') && PlacedOk(sh', me, th') && RegistryOk(sh')
    && sh.nodes <= sh'.nodes
    && (sh'.mutex == sh.mutex || (sh.mutex.None? && sh'.mutex == Some(me)) || (sh'.mutex.None? && th.pc.Scan?))
    && (sh'.mutex == Some(me) ==> th'.pc.Scan?)
    && (QuietMove(sh, sh', th, th') || AcquireMove(sh, sh', th, th') || ReleaseMove(sh, sh', th, th'))
  }

  lemma SameRequest(th: Thread, th': Thread)
    requires RequestOk(th) && Accepted(th)
    requires th'.header == th.header && th'.body == th.body && th'.req == th.req
    requires PcOk(th'.pc, th.req.command)
    requires th'.pc.Refused? ==> th.req.command == LS && th'.reply == Some(Reply(false, MNoLs, 0))
    ensures RequestOk(th')
  {
    hide ParseRequest;
  }

  lemma AcceptedIsValid(th: Thread)
    requires Accepted(th)
    ensures th.req.path != "" && th.req.command != UNKNOWN
  {
    hide ParseRequest;
  }

  lemma HandlerLockMove(sh: Shared, me: Tid, th: Thread, c: Choice)
    requires CanStep(sh, th, c) && RegistryOk(sh) && RequestOk(th) && PlacedOk(sh, me, th)
    requires WritePc(th.pc) || GetPc(th.pc) || RemovePc(th.pc)
    requires sh.mutex != Some(me)
    ensures var (sh', th') := Step(sh, me, th, c); LockMove(sh, sh', me, th, th')
  {
    hide Accepted, GoodClient, RegistryOk, LockMove, WriteStep, GetStep, RemoveStep, ParseRequest;
    var r := Step(sh, me, th, c);
    if WritePc(th.pc) {
      WriteFrame(sh, th, c);
    } else if GetPc(th.pc) {
      GetFrame(sh.files, th, c);
    } else {
      RemoveFrame(sh, th, c);
    }
    StaysInside(sh, r.0, me, th, r.1);
  }

  lemma StaysInside(sh: Shared, sh': Shared, me: Tid, th: Thread, th': Thread)
    requires RegistryOk(sh) && RequestOk(th) && PlacedOk(sh, me, th) && sh.mutex != Some(me)
    requires InSection(th) && InSection(th')
    requires th'.header == th.header && th'.body == th.body && th'.req == th.req && th'.node == th.node
    requires sh'.nodes == sh.nodes && sh'.locks == sh.locks && sh'.mutex == sh.mutex
    requires PcOk(th'.pc, th.req.command)
    ensures LockMove(sh, sh', me, th, th')
  {
    hide Accepted, GoodClient;
    SameRequest(th, th');
  }

  lemma ReceiveLockMove(sh: Shared, me: Tid, th: Thread)
    requires th.pc.Start? && RegistryOk(sh) && RequestOk(th) && sh.mutex != Some(me)
    ensures LockMove(sh, sh, me, th, Receive(th))
  {
    hide ParseRequest, UserPath, ValidRequest;
  }

  lemma ScanLockMove(sh: Shared, me: Tid, th: Thread)
    requires th.pc.Scan? && RegistryOk(sh) && RequestOk(th) && PlacedOk(sh, me, th)
    ensures var (sh', th') := ScanStep(sh, th, th.pc.i); LockMove(sh, sh', me, th, th')
  {
    hide Accepted, GoodClient;
    var r := ScanStep(sh, th, th.pc.i);
    AcceptedIsValid(th);
    SameRequest(th, th.(pc := WantLock));
    assert PcOk(r.1.pc, th.req.command);
    SameRequest(th, r.1);
  }

  lemma AcquireLockMove(sh: Shared, me: Tid, th: Thread)
    requires th.pc.WantLock? && CanStep(sh, th, Choice(0, None))
    requires RegistryOk(sh) && RequestOk(th) && PlacedOk(sh, me, th) && sh.mutex != Some(me)
    ensures var (sh', th') := LockStep(sh, th); LockMove(sh, sh', me, th, th')
  {
    hide Accepted, GoodClient;
    var r := LockStep(sh, th);
    AcceptedIsValid(th);
    SameRequest(th, r.1);
  }

  lemma ReleaseLockMove(sh: Shared, me: Tid, th: Thread)
    requires th.pc.Unlock? && CanStep(sh, th, Choice(0, None))
    requires RegistryOk(sh) && RequestOk(th) && PlacedOk(sh, me, th) && sh.mutex != Some(me)
    ensures var (sh', th') := UnlockStep(sh, th); LockMove(sh, sh', me, th, th')
  {
    hide Accepted, GoodClient;
    var r := UnlockStep(sh, th);
    SameRequest(th, r.1);
  }

  lemma StepLockMove(sh: Shared, me: Tid, th: Thread, c: Choice)
    requires CanStep(sh, th, c) && RegistryOk(sh) && RequestOk(th) && PlacedOk(sh, me, th)
    requires sh.mutex == Some(me) ==> th.pc.Scan?
    ensures var (sh', th') := Step(sh, me, th, c); LockMove(sh, sh', me, th, th')
  {
    hide Accepted, GoodClient;
    match th.pc
    case Start => ReceiveLockMove(sh, me, th);
    case WantMutex => SameRequest(th, th.(pc := Scan(0)));
    case Scan(_) => ScanLockMove(sh, me, th);
    case WantLock => AcquireLockMove(sh, me, th);
    case Unlock => ReleaseLockMove(sh, me, th);
    case _ => HandlerLockMove(sh, me, th, c);
  }

  /** How a step moves the reader and writer sets of one lock. */
  lemma SetsAfter(threads: Threads, t: Tid, th: Thread, n: nat)
    requires t in threads
    ensures Readers(threads[t := th], n)
         == if Reads(th, n) then Readers(threads, n) + {t} else Readers(threads, n) - {t}
    ensures Writers(threads[t := th], n)
         == if Writes(th, n) then Writers(threads, n) + {t} else Writers(threads, n) - {t}
  {
  }

  lemma SameSets(threads: Threads, t: Tid, th: Thread, n: nat)
    requires t in threads
    requires Reads(threads[t], n) == Reads(th, n) && Writes(threads[t], n) == Writes(th, n)
    ensures Readers(threads[t := th], n) == Readers(threads, n)
    ensures Writers(threads[t := th], n) == Writers(threads, n)
  {
  }

  lemma NewLockIsFree(s: State, n: nat)
    requires LockInv(s) && n >= |s.sh.nodes|
    ensures Readers(s.threads, n) == {} && Writers(s.threads, n) == {}
  {
    forall u | u in s.threads
      ensures !Reads(s.threads[u], n) && !Writes(s.threads[u], n)
    {
      assert PlacedOk(s.sh, u, s.threads[u]);
    }
  }

  lemma QuietLocks(s: State, t: Tid, sh: Shared, th: Thread, n: nat)
    requires LockInv(s) && t in s.threads && QuietMove(s.sh, sh, s.threads[t], th) && n < |sh.locks|
    ensures LockOk(sh.locks[n], s.threads[t := th], n)
  {
    hide RequestOk, PlacedOk, MutexOk;
    SameSets(s.threads, t, th, n);
    if n < |s.sh.locks| {
      assert LockOk(s.sh.locks[n], s.threads, n);
    } else {
      NewLockIsFree(s, n);
    }
  }

  lemma AcquiredLocks(s: State, t: Tid, sh: Shared, th: Thread, n: nat)
    requires LockInv(s) && t in s.threads && AcquireMove(s.sh, sh, s.threads[t], th) && n < |sh.locks|
    ensures LockOk(sh.locks[n], s.threads[t := th], n)
  {
    hide RequestOk, PlacedOk, RegistryOk, MutexOk, Readers, Writers;
    assert LockOk(s.sh.locks[n], s.threads, n);
    if n != th.node {
      SameSets(s.threads, t, th, n);
    } else {
      Outside(s.threads, t, n);
      SetsAfter(s.threads, t, th, n);
    }
  }

  lemma Outside(threads: Threads, t: Tid, n: nat)
    requires t in threads && !InSection(threads[t])
    ensures t !in Readers(threads, n) && t !in Writers(threads, n)
    ensures Readers(threads, n) - {t} == Readers(threads, n) && Writers(threads, n) - {t} == Writers(threads, n)
  {
  }

  lemma Inside(threads: Threads, t: Tid, n: nat)
    requires t in threads && InSection(threads[t]) && threads[t].node == n
    ensures threads[t].req.command == GET ==>
      t in Readers(threads, n) && |Readers(threads, n) - {t}| == |Readers(threads, n)| - 1
      && Writers(threads, n) - {t} == Writers(threads, n)
    ensures threads[t].req.command != GET ==>
      t in Writers(threads, n) && |Writers(threads, n) - {t}| == |Writers(threads, n)| - 1
      && Readers(threads, n) - {t} == Readers(threads, n)
  {
  }

  lemma ReleasedLocks(s: State, t: Tid, sh: Shared, th: Thread, n: nat)
    requires LockInv(s) && t in s.threads && ReleaseMove(s.sh, sh, s.threads[t], th) && n < |sh.locks|
    ensures LockOk(sh.locks[n], s.threads[t := th], n)
  {
    hide RequestOk, PlacedOk, RegistryOk, MutexOk, Readers, Writers;
    assert LockOk(s.sh.locks[n], s.threads, n);
    if n != s.threads[t].node {
      SameSets(s.threads, t, th, n);
    } else {
      Inside(s.threads, t, n);
      SetsAfter(s.threads, t, th, n);
    }
  }

  lemma MoveKeepsPlaces(s: State, t: Tid, sh: Shared, th: Thread)
    requires LockInv(s) && t in s.threads && LockMove(s.sh, sh, t, s.threads[t], th)
    ensures var s' := State(sh, s.threads[t := th]);
      && MutexOk(s')
      && (forall u :: u in s'.threads ==> RequestOk(s'.threads[u]) && PlacedOk(sh, u, s'.threads[u]))
  {
    hide RequestOk, LockOk;
    var s' := State(sh, s.threads[t := th]);
    assert PlacedOk(s.sh, t, s.threads[t]);
    forall u | u in s'.threads
      ensures RequestOk(s'.threads[u]) && PlacedOk(sh, u, s'.threads[u])
    {
      if u != t {
        assert RequestOk(s.threads[u]) && PlacedOk(s.sh, u, s.threads[u]);
      }
    }
  }

  lemma MoveKeepsLocks(s: State, t: Tid, sh: Shared, th: Thread)
    requires LockInv(s) && t in s.threads && LockMove(s.sh, sh, t, s.threads[t], th)
    ensures LockInv(State(sh, s.threads[t := th]))
  {
    hide RequestOk, LockOk, PlacedOk, QuietMove, AcquireMove, ReleaseMove;
    MoveKeepsPlaces(s, t, sh, th);
    forall n | 0 <= n < |sh.locks|
      ensures LockOk(sh.locks[n], s.threads[t := th], n)
    {
      if QuietMove(s.sh, sh, s.threads[t], th) {
        QuietLocks(s, t, sh, th, n);
      } else if AcquireMove(s.sh, sh, s.threads[t], th) {
        AcquiredLocks(s, t, sh, th, n);
      } else {
        ReleasedLocks(s, t, sh, th, n);
      }
    }
  }

  lemma RunMove(s: State, t: Tid, c: Choice) returns (sh: Shared, th: Thread)
    requires LockInv(s) && Enabled(s, Run(t, c))
    ensures (sh, th) == Step(s.sh, t, s.threads[t], c)
    ensures Next(s, Run(t, c)) == State(sh, s.threads[t := th])
    ensures LockMove(s.sh, sh, t, s.threads[t], th)
  {
    hide LockMove, RequestOk, PlacedOk, LockOk;
    StepLockMove(s.sh, t, s.threads[t], c);
    var r := Step(s.sh, t, s.threads[t], c);
    sh, th := r.0, r.1;
  }

  lemma SpawnKeepsLocks(s: State, l: Label)
    requires LockInv(s) && Enabled(s, l) && l.Spawn?
    ensures LockInv(Next(s, l))
  {
    hide Accepted, GoodClient;
    var s' := Next(s, l);
    forall n | 0 <= n < |s'.sh.locks|
      ensures LockOk(s'.sh.locks[n], s'.threads, n)
    {
      assert LockOk(s.sh.locks[n], s.threads, n);
      assert Readers(s'.threads, n) == Readers(s.threads, n);
      assert Writers(s'.threads, n) == Writers(s.threads, n);
    }
  }

  lemma StepKeepsLocks(s: State, l: Label)
    requires LockInv(s) && Enabled(s, l)
    ensures LockInv(Next(s, l))
  {
    hide LockMove, RequestOk, LockOk;
    match l
    case Run(t, c) =>
      var sh, th := RunMove(s, t, c);
      MoveKeepsLocks(s, t, sh, th);
    case Spawn(_, _, _) => SpawnKeepsLocks(s, l);
    case Tick(_) =>
  }

  lemma {:induction false} RunKeepsLockInv(states: seq<State>, labels: seq<Label>, i: nat)
    requires IsRun(states, labels) && i <= |labels|
    requires LockInv(states[0])
    ensures LockInv(states[i])
  {
    hide LockInv, Next, Enabled;
    if i > 0 {
      RunKeepsLockInv(states, labels, i - 1);
      StepKeepsLocks(states[i - 1], labels[i - 1]);
    }
  }

  // ---------------------------------------------------------------- what it gives

  /** Two threads inside the sections of one path are both readers. */
  lemma Exclusion(s: State, t: Tid, u: Tid)
    requires LockInv(s)
    requires t in s.threads && u in s.threads && t != u
    requires InSection(s.threads[t]) && InSection(s.threads[u])
    requires s.threads[t].req.path == s.threads[u].req.path
    ensures s.threads[t].req.command == GET && s.threads[u].req.command == GET
  {
    hide RequestOk;
    var a, b := s.threads[t], s.threads[u];
    assert PlacedOk(s.sh, t, a) && PlacedOk(s.sh, u, b);
    assert a.node == b.node;
    assert LockOk(s.sh.locks[a.node], s.threads, a.node);
    var readers, writers := Readers(s.threads, a.node), Writers(s.threads, a.node);
    assert t in readers + writers && u in readers + writers;
    if t in writers && u in writers {
      assert {t, u} <= writers;
      SubsetSize({t, u}, writers);
      assert false;
    } else if t in writers {
      Nonempty(t, u, readers, writers);
      assert false;
    } else if u in writers {
      Nonempty(t, u, readers, writers);
      assert false;
    }
  }

  lemma Nonempty(t: Tid, u: Tid, readers: set<Tid>, writers: set<Tid>)
    requires t in readers + writers && u in readers + writers
    requires t in writers <==> u !in writers
    ensures |readers| > 0 && |writers| > 0
  {
  }

  lemma {:induction false} SubsetSize<T>(a: set<T>, b: set<T>)
    requires a <= b
    ensures |a| <= |b|
    decreases |b|
  {
    if b != {} {
      var x :| x in b;
      SubsetSize(a - {x}, b - {x});
    }
  }

  /** Mutual exclusion over whole runs: lock states are thread counts, and a writer is alone. */
  lemma MutualExclusion(states: seq<State>, labels: seq<Label>, i: nat)
    requires IsRun(states, labels) && i <= |labels| && Initial(states[0])
    ensures var s := states[i];
      && (forall n :: 0 <= n < |s.sh.locks| ==> LockOk(s.sh.locks[n], s.threads, n))
      && (forall m, n :: 0 <= m < n < |s.sh.nodes| ==> s.sh.nodes[m] != s.sh.nodes[n])
      && (forall t, u :: t in s.threads && u in s.threads && t != u
            && InSection(s.threads[t]) && InSection(s.threads[u])
            && s.threads[t].req.path == s.threads[u].req.path
            ==> s.threads[t].req.command == GET && s.threads[u].req.command == GET)
  {
    RunKeepsLockInv(states, labels, i);
    var s := states[i];
    forall t, u | t in s.threads && u in s.threads && t != u
                  && InSection(s.threads[t]) && InSection(s.threads[u])
                  && s.threads[t].req.path == s.threads[u].req.path
      ensures s.threads[t].req.command == GET && s.threads[u].req.command == GET
    {
      Exclusion(s, t, u);
    }
  }

  /** Under any interleaving the registry is lookup-or-insert: it only grows, and a name keeps its node. */
  lemma {:induction false} RegistryGrows(states: seq<State>, labels: seq<Label>, i: nat, j: nat)
    requires IsRun(states, labels) && i <= j <= |labels| && LockInv(states[0])
    ensures states[i].sh.nodes <= states[j].sh.nodes
    ensures LockList.Distinct(states[j].sh.nodes) && "" !in states[j].sh.nodes
  {
    hide RequestOk, PlacedOk, MutexOk, LockOk, Next, Enabled;
    RunKeepsLockInv(states, labels, j);
    if i < j {
      RegistryGrows(states, labels, i, j - 1);
      RunKeepsLockInv(states, labels, j - 1);
      StepGrowsRegistry(states[j - 1], labels[j - 1]);
    }
  }

  lemma StepGrowsRegistry(s: State, l: Label)
    requires LockInv(s) && Enabled(s, l)
    ensures s.sh.nodes <= Next(s, l).sh.nodes
  {
    hide RequestOk, PlacedOk, MutexOk, LockOk;
    if l.Run? {
      var _, _ := RunMove(s, l.t, l.c);
    }
  }

  /** The thread-level search ends where the list's `getLockFor` does. */
  lemma ScanRefinesLookup(s: State, t: Tid, c: Choice)
    requires LockInv(s) && Enabled(s, Run(t, c)) && s.threads[t].pc.Scan?
    ensures var (sh, th) := Step(s.sh, t, s.threads[t], c);
      th.pc.WantLock? ==>
        && sh.nodes == LockList.Registered(s.sh.nodes, th.req.path)
        && th.node == LockList.IndexOf(sh.nodes, th.req.path)
        && sh.mutex == None
  {
    hide Accepted, GoodClient, LockOk;
    var (sh, th) := Step(s.sh, t, s.threads[t], c);
    assert RequestOk(s.threads[t]) && PlacedOk(s.sh, t, s.threads[t]);
    if th.pc.WantLock? {
      LockList.FirstIndex(sh.nodes, th.req.path, th.node);
      if th.node == |s.sh.nodes| {
        assert th.req.path !in s.sh.nodes;
      }
    }
  }
}
