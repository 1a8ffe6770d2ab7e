/**
 Termination and deadlock freedom: for finitely many requests every thread step
 uses up some of a global measure, some thread can always step while one is
 unfinished, and a server that can step no more has answered everyone and holds no lock.
 */
module Termination {
  import opened Wrappers
  import opened Protocol
  import opened Paths
  import opened Server
  import opened Locking
  import opened Refinement
  import opened Removal

  /** Totals over a run without new clients: lock nodes, bytes of any one file, version entries. */
  datatype Bounds = Bounds(list: nat, bytes: nat, entries: nat)

  function Gap(bound: nat, used: nat): nat { if used <= bound then bound - used else 0 }

  /** An upper bound on the steps a thread still takes. */
  function Work(th: Thread, b: Bounds): nat {
    var m, v, x := 2 * b.bytes, 2 * b.entries, |th.inbox|;
    match th.pc
    case Start => 13 + x + m + v + b.list
    case WantMutex => 12 + x + m + v + b.list
    case Scan(i) => 11 + x + m + v + Gap(b.list, i)
    case WantLock => 10 + x + m + v
    case WMkdirs => 9 + x + b.bytes
    case WOpenOld => 8 + x + b.bytes
    case WStamp => 7 + x + b.bytes
    case WMkFolder(_) => 6 + x + b.bytes
    case WOpenNew(_) => 5 + x + b.bytes
    case WCopy(_, off) => 4 + x + Gap(b.bytes, off)
    case WTruncate => 3 + x
    case WFill(_) => 2 + x
    case GSize => 4 + m
    case GRead(off) => 3 + 2 * Gap(b.bytes, off)
    case GSend(off, buf, eof) => 2 + 2 * Gap(b.bytes, off) + |buf| + if eof then 0 else 2
    case RRemove => 4 + v
    case ROpenDir => 3 + v
    case RRead(_, seen, _) => 2 + 2 * Gap(b.entries, |seen|)
    case RDelete(_, seen, _) => 3 + 2 * Gap(b.entries, |seen|)
    case Unlock => 1
    case Done => 0
    case Refused => 0
  }

  // ---------------------------------------------------------------- the totals

  predicate Arriving(th: Thread) { th.pc.Start? || th.pc.WantMutex? || th.pc.Scan? }

  predicate MaySave(th: Thread) {
    || Arriving(th) || th.pc.WantLock? || th.pc.WMkdirs? || th.pc.WOpenOld?
    || th.pc.WStamp? || th.pc.WMkFolder? || th.pc.WOpenNew?
  }

  ghost function ArrivingIn(threads: Threads): set<Tid> { set t | t in threads && Arriving(threads[t]) }

  ghost function SavingIn(threads: Threads): set<Tid> { set t | t in threads && MaySave(threads[t]) }

  /** What a directory scan has met is among the entries ever created. */
  predicate ScanBounded(sh: Shared, th: Thread) {
    match th.pc
    case RRead(must, seen, _) => must <= sh.created && seen <= sh.created
    case RDelete(must, seen, _) => must <= sh.created && seen <= sh.created
    case _ => true
  }

  ghost predicate SmallFiles(files: Files, b: Bounds) {
    forall path :: |ContentsOf(files, User(path))| <= b.bytes
  }

  ghost predicate Within(s: State, b: Bounds) {
    && |s.sh.nodes| + |ArrivingIn(s.threads)| <= b.list
    && |s.sh.created| + |SavingIn(s.threads)| <= b.entries
    && SmallFiles(s.sh.files, b)
    && forall t :: t in s.threads ==> |s.threads[t].body| <= b.bytes && ScanBounded(s.sh, s.threads[t])
  }

  ghost predicate Sound(s: State, spec: Spec) {
    LockInv(s) && Refines(s, spec) && RemovalInv(s)
  }

  // ---------------------------------------------------------------- each step does some work

  /** What the step argument needs of one thread. */
  ghost predicate Fits(sh: Shared, th: Thread, b: Bounds) {
    && SmallFiles(sh.files, b) && ScanBounded(sh, th)
    && (th.pc.Scan? ==> th.pc.i <= |sh.nodes| && |sh.nodes| < b.list)
    && (th.pc.RRead? ==> |sh.created| <= b.entries)
  }

  lemma WriteWorks(sh: Shared, th: Thread, c: Choice, b: Bounds)
    requires WritePc(th.pc) && CanStep(sh, th, c) && SmallFiles(sh.files, b)
    requires th.pc.WCopy? ==> th.pc.off <= |ContentsOf(sh.files, User(th.req.path))|
    ensures Work(WriteStep(sh, th, c).1, b) < Work(th, b)
  {
    hide Directory;
    assert |ContentsOf(sh.files, User(th.req.path))| <= b.bytes;
  }

  lemma GetWorks(files: Files, th: Thread, c: Choice, b: Bounds, o: Option<Outcome>)
    requires GetPc(th.pc) && SmallFiles(files, b) && ThreadRel(files, o, th)
    requires th.pc.GSend? && th.pc.buf != [] ==> 1 <= c.n <= |th.pc.buf|
    ensures Work(GetStep(files, th, c), b) < Work(th, b)
  {
    assert |ContentsOf(files, User(th.req.path))| <= b.bytes;
  }

  lemma ScanWorks(sh: Shared, th: Thread, c: Choice, b: Bounds)
    requires th.pc.RRead? && CanStep(sh, th, c) && FoldersOk(sh)
    requires ScanBounded(sh, th) && |sh.created| <= b.entries
    ensures Work(RemoveStep(sh, th, c).1, b) < Work(th, b)
  {
    hide NameMatches, Directory, FoldersOk, ScanBounded;
    if c.entry.Some? {
      EntryIsNew(sh, th, c.entry.value, b);
    }
  }

  lemma RemoveWorks(sh: Shared, th: Thread, c: Choice, b: Bounds)
    requires RemovePc(th.pc) && CanStep(sh, th, c) && FoldersOk(sh) && Fits(sh, th, b)
    ensures Work(RemoveStep(sh, th, c).1, b) < Work(th, b)
  {
    hide NameMatches, InFolder, Directory, FoldersOk, SmallFiles, ScanBounded;
    if th.pc.RRead? {
      ScanWorks(sh, th, c, b);
    }
  }

  lemma EntryIsNew(sh: Shared, th: Thread, k: Key, b: Bounds)
    requires th.pc.RRead? && FoldersOk(sh) && ScanBounded(sh, th) && |sh.created| <= b.entries
    requires k.Version? && (k in th.pc.must || k in sh.files) && k !in th.pc.seen
    ensures |th.pc.seen + {k}| == |th.pc.seen| + 1 <= b.entries
  {
    assert k in sh.created;
    SubsetSize(th.pc.seen + {k}, sh.created);
  }

  lemma StepWorks(sh: Shared, t: Tid, th: Thread, c: Choice, b: Bounds, o: Option<Outcome>)
    requires CanStep(sh, th, c) && FoldersOk(sh) && Fits(sh, th, b) && ThreadRel(sh.files, o, th)
    ensures Work(Step(sh, t, th, c).1, b) < Work(th, b)
  {
    hide WriteStep, GetStep, RemoveStep, ParseRequest, Directory, NameMatches, InFolder;
    if WritePc(th.pc) {
      WriteWorks(sh, th, c, b);
    } else if GetPc(th.pc) {
      GetWorks(sh.files, th, c, b, o);
    } else if RemovePc(th.pc) {
      RemoveWorks(sh, th, c, b);
    }
  }

  // ---------------------------------------------------------------- the totals hold

  lemma SetsShrink(threads: Threads, t: Tid, th: Thread)
    requires t in threads
    requires Arriving(th) ==> Arriving(threads[t])
    requires MaySave(th) ==> MaySave(threads[t])
    ensures ArrivingIn(threads[t := th]) == if Arriving(th) then ArrivingIn(threads) else ArrivingIn(threads) - {t}
    ensures SavingIn(threads[t := th]) == if MaySave(th) then SavingIn(threads) else SavingIn(threads) - {t}
  {
  }

  /** Only the registry search adds a node, and only a save adds an entry; each thread does either once. */
  ghost predicate TotalsMove(sh: Shared, sh': Shared, th: Thread, th': Thread) {
    && (Arriving(th') ==> Arriving(th)) && (MaySave(th') ==> MaySave(th))
    && (sh'.nodes == sh.nodes || (|sh'.nodes| == |sh.nodes| + 1 && Arriving(th) && !Arriving(th')))
    && (sh'.created == sh.created || (exists k :: sh'.created == sh.created + {k} && MaySave(th) && !MaySave(th')))
    && sh.created <= sh'.created
    && th'.body == th.body
  }

  lemma WriteTotals(sh: Shared, th: Thread, c: Choice)
    requires WritePc(th.pc) && CanStep(sh, th, c)
    ensures var (sh', th') := WriteStep(sh, th, c); TotalsMove(sh, sh', th, th')
  {
    hide Directory, Transfer.ChunkAt;
    if th.pc.WOpenNew? {
      assert WriteStep(sh, th, c).0.created == sh.created + {Version(th.req.path, th.pc.at)};
    }
  }

  lemma StepTotals(sh: Shared, t: Tid, th: Thread, c: Choice)
    requires CanStep(sh, th, c)
    ensures var (sh', th') := Step(sh, t, th, c); TotalsMove(sh, sh', th, th')
  {
    hide ParseRequest, Directory, NameMatches, InFolder, WriteStep, GetStep, RemoveStep;
    if WritePc(th.pc) {
      WriteTotals(sh, th, c);
    } else if GetPc(th.pc) {
      GetFrame(sh.files, th, c);
    } else if RemovePc(th.pc) {
      RemoveFrame(sh, th, c);
    }
  }

  lemma StepScan(sh: Shared, t: Tid, th: Thread, c: Choice)
    requires CanStep(sh, th, c) && FoldersOk(sh) && ScanBounded(sh, th)
    ensures var (sh', th') := Step(sh, t, th, c); ScanBounded(sh', th')
  {
    hide ParseRequest, Directory, NameMatches;
  }

  lemma StepSizes(sh: Shared, t: Tid, th: Thread, c: Choice, b: Bounds, o: Option<Outcome>)
    requires CanStep(sh, th, c) && SmallFiles(sh.files, b) && ThreadRel(sh.files, o, th) && |th.body| <= b.bytes
    requires th.pc.RDelete? ==> th.pc.entry.Version?
    ensures SmallFiles(Step(sh, t, th, c).0.files, b)
  {
    hide ThreadRel, WriteStep, GetStep, RemoveStep, Step;
    var files' := Step(sh, t, th, c).0.files;
    StepFiles(sh, t, th, c);
    forall path
      ensures |ContentsOf(files', User(path))| <= b.bytes
    {
      assert |ContentsOf(sh.files, User(path))| <= b.bytes;
      if path == th.req.path {
        OwnSize(sh, t, th, c, b, o);
      } else {
        assert FileAt(files', User(path)) == FileAt(sh.files, User(path));
      }
    }
  }

  lemma OwnSize(sh: Shared, t: Tid, th: Thread, c: Choice, b: Bounds, o: Option<Outcome>)
    requires CanStep(sh, th, c) && ThreadRel(sh.files, o, th) && |th.body| <= b.bytes
    requires |ContentsOf(sh.files, User(th.req.path))| <= b.bytes
    requires th.pc.RDelete? ==> th.pc.entry.Version?
    ensures |ContentsOf(Step(sh, t, th, c).0.files, User(th.req.path))| <= b.bytes
  {
    hide ParseRequest, Directory, NameMatches, InFolder, Transfer.ChunkAt;
  }

  lemma StepWithin(s: State, spec: Spec, t: Tid, c: Choice, b: Bounds)
    requires Sound(s, spec) && Within(s, b) && Enabled(s, Run(t, c))
    ensures Within(Next(s, Run(t, c)), b)
  {
    hide Step, CanStep, LockOk, Accepted, GoodClient,
         ThreadRel, RemovalOk, FoldersOk, SmallFiles, StoreRel, ScanBounded;
    var th, s' := s.threads[t], Next(s, Run(t, c));
    assert RequestOk(th);
    StepTotals(s.sh, t, th, c);
    SetsShrink(s.threads, t, s'.threads[t]);
    StepScan(s.sh, t, th, c);
    StepSizes(s.sh, t, th, c, b, OutcomeOf(spec, t));
    forall u | u in s.threads && u != t
      ensures ScanBounded(s'.sh, s.threads[u])
    {
      ScanStays(s.sh, s'.sh, s.threads[u]);
    }
  }

  lemma ScanStays(sh: Shared, sh': Shared, th: Thread)
    requires ScanBounded(sh, th) && sh.created <= sh'.created
    ensures ScanBounded(sh', th)
  {
  }

  // ---------------------------------------------------------------- the global measure

  ghost function Total(threads: Threads, b: Bounds): nat
    decreases |threads|
  {
    if threads == map[] then 0
    else
      var t :| t in threads;
      Work(threads[t], b) + Total(threads - {t}, b)
  }

  /** Any thread may be counted first. */
  lemma {:induction false} TotalSplit(threads: Threads, b: Bounds, t: Tid)
    requires t in threads
    ensures Total(threads, b) == Work(threads[t], b) + Total(threads - {t}, b)
    decreases |threads|
  {
    hide Work;
    var u :| u in threads && Total(threads, b) == Work(threads[u], b) + Total(threads - {u}, b);
    if u != t {
      TotalSplit(threads - {u}, b, t);
      TotalSplit(threads - {t}, b, u);
      assert threads - {u} - {t} == threads - {t} - {u};
    }
  }

  lemma TotalAfter(threads: Threads, b: Bounds, t: Tid, th: Thread)
    requires t in threads
    ensures Total(threads[t := th], b) + Work(threads[t], b) == Total(threads, b) + Work(th, b)
  {
    hide Work;
    TotalSplit(threads, b, t);
    TotalSplit(threads[t := th], b, t);
    assert threads[t := th] - {t} == threads - {t};
  }

  /** Every thread step uses up some of the measure and stays within the totals. */
  lemma MeasureDecreases(s: State, spec: Spec, t: Tid, c: Choice, b: Bounds)
    requires Sound(s, spec) && Within(s, b) && Enabled(s, Run(t, c))
    ensures Within(Next(s, Run(t, c)), b)
    ensures Total(Next(s, Run(t, c)).threads, b) < Total(s.threads, b)
  {
    hide Step, CanStep, LockOk, Accepted, GoodClient, RemovalOk,
         FoldersOk, SmallFiles, StoreRel, ThreadRel, Work, Total, ScanBounded;
    StepWithin(s, spec, t, c, b);
    var th := s.threads[t];
    assert PlacedOk(s.sh, t, th);
    if th.pc.Scan? {
      assert t in ArrivingIn(s.threads);
    }
    StepWorks(s.sh, t, th, c, b, OutcomeOf(spec, t));
    TotalAfter(s.threads, b, t, Step(s.sh, t, th, c).1);
  }

  // ---------------------------------------------------------------- termination

  /** A run that no new client joins. */
  predicate NoSpawn(labels: seq<Label>) { forall i :: 0 <= i < |labels| ==> !labels[i].Spawn? }

  function ThreadSteps(labels: seq<Label>): nat {
    if labels == [] then 0
    else ThreadSteps(labels[..|labels| - 1]) + if labels[|labels| - 1].Run? then 1 else 0
  }

  lemma SoundNext(s: State, spec: Spec, l: Label)
    requires Sound(s, spec) && Enabled(s, l)
    ensures Sound(Next(s, l), SpecNext(spec, s, l))
  {
    hide LockInv, Refines, RemovalInv, Next, SpecNext, Enabled;
    StepKeepsLocks(s, l);
    StepRefines(s, spec, l);
    StepKeepsRemoval(s, l);
  }

  lemma TickWithin(s: State, now: nat, b: Bounds)
    requires Within(s, b)
    ensures Within(Next(s, Tick(now)), b) && Next(s, Tick(now)).threads == s.threads
  {
    var s' := Next(s, Tick(now));
    forall t | t in s.threads
      ensures ScanBounded(s'.sh, s.threads[t])
    {
      ScanStays(s.sh, s'.sh, s.threads[t]);
    }
  }

  /** After any number of steps, what is used up and what is left are the measure at the start. */
  lemma {:induction false} RunUsesMeasure(states: seq<State>, labels: seq<Label>, spec: Spec, b: Bounds)
    returns (last: Spec)
    requires IsRun(states, labels) && NoSpawn(labels) && Sound(states[0], spec) && Within(states[0], b)
    ensures Sound(states[|labels|], last) && Within(states[|labels|], b)
    ensures ThreadSteps(labels) + Total(states[|labels|].threads, b) <= Total(states[0].threads, b)
    decreases |labels|
  {
    hide LockInv, Refines, RemovalInv, Next, Enabled, Within, Total, SpecNext;
    if labels == [] {
      last := spec;
    } else {
      var n := |labels| - 1;
      var before := RunUsesMeasure(states[..n + 1], labels[..n], spec, b);
      var s, l := states[n], labels[n];
      SoundNext(s, before, l);
      last := SpecNext(before, s, l);
      match l
      case Run(t, c) => MeasureDecreases(s, before, t, c, b);
      case Tick(now) => TickWithin(s, now, b);
    }
  }

  // ---------------------------------------------------------------- the totals exist

  lemma {:induction false} LargestFile(files: Files) returns (m: nat)
    ensures forall k :: k in files ==> |files[k]| <= m
    decreases |files|
  {
    if files == map[] {
      m := 0;
    } else {
      var k :| k in files;
      var m' := LargestFile(files - {k});
      m := if |files[k]| > m' then |files[k]| else m';
      forall j | j in files
        ensures |files[j]| <= m
      {
        assert j != k ==> j in files - {k};
      }
    }
  }

  lemma {:induction false} LargestBody(threads: Threads) returns (m: nat)
    ensures forall t :: t in threads ==> |threads[t].body| <= m
    decreases |threads|
  {
    if threads == map[] {
      m := 0;
    } else {
      var t :| t in threads;
      var m' := LargestBody(threads - {t});
      m := if |threads[t].body| > m' then |threads[t].body| else m';
      forall u | u in threads
        ensures |threads[u].body| <= m
      {
        assert u != t ==> u in threads - {t};
      }
    }
  }

  ghost predicate ScansBounded(s: State) {
    forall t :: t in s.threads ==> ScanBounded(s.sh, s.threads[t])
  }

  lemma TotalsExist(s: State) returns (b: Bounds)
    requires ScansBounded(s)
    ensures Within(s, b)
  {
    var f := LargestFile(s.sh.files);
    var m := LargestBody(s.threads);
    b := Bounds(|s.sh.nodes| + |ArrivingIn(s.threads)|, if f > m then f else m,
                |s.sh.created| + |SavingIn(s.threads)|);
  }

  lemma StepScansBounded(s: State, l: Label)
    requires ScansBounded(s) && RemovalInv(s) && Enabled(s, l)
    ensures ScansBounded(Next(s, l))
  {
    hide Step, CanStep, ScanBounded, RemovalOk, FoldersOk;
    var s' := Next(s, l);
    forall u | u in s'.threads
      ensures ScanBounded(s'.sh, s'.threads[u])
    {
      if l.Run? {
        StepTotals(s.sh, l.t, s.threads[l.t], l.c);
        StepScan(s.sh, l.t, s.threads[l.t], l.c);
      }
      if u in s.threads {
        ScanStays(s.sh, s'.sh, s.threads[u]);
      } else {
        FreshScan(s'.sh, s'.threads[u]);
      }
    }
  }

  lemma FreshScan(sh: Shared, th: Thread)
    requires th.pc.Start?
    ensures ScanBounded(sh, th)
  {
  }

  lemma {:induction false} RunScansBounded(states: seq<State>, labels: seq<Label>, i: nat)
    requires IsRun(states, labels) && i <= |labels| && Initial(states[0])
    ensures ScansBounded(states[i])
  {
    hide LockInv, RemovalInv, Next, Enabled, ScanBounded;
    if i > 0 {
      RunScansBounded(states, labels, i - 1);
      RunKeepsRemoval(states, labels, i - 1);
      StepScansBounded(states[i - 1], labels[i - 1]);
    }
  }

  /** No continuation of `s` without new clients has more than `bound` thread steps. */
  ghost predicate Terminates(s: State, bound: nat) {
    forall states, labels | IsRun(states, labels) && NoSpawn(labels) && states[0] == s ::
      ThreadSteps(labels) <= bound
  }

  /**
   Termination: from any state the server can reach there is a bound on the thread
   steps that any continuation without new clients can take.
   */
  lemma ServerTerminates(states: seq<State>, labels: seq<Label>, i: nat) returns (bound: nat)
    requires IsRun(states, labels) && i <= |labels| && Initial(states[0])
    ensures Terminates(states[i], bound)
  {
    hide LockInv, Refines, RemovalInv, Next, Enabled, Within, Total, Initial, ScansBounded;
    RunScansBounded(states, labels, i);
    RunKeepsRemoval(states, labels, i);
    RunRefinesStore(states, labels, i);
    var b := TotalsExist(states[i]);
    bound := Total(states[i].threads, b);
    forall states', labels' | IsRun(states', labels') && NoSpawn(labels') && states'[0] == states[i]
      ensures ThreadSteps(labels') <= bound
    {
      var _ := RunUsesMeasure(states', labels', SpecAt(states, labels, i), b);
    }
  }

  // ---------------------------------------------------------------- deadlock freedom

  /** A thread that waits for nothing: neither for the mutex nor for a lock. */
  predicate Free(th: Thread) { !th.pc.WantMutex? && !th.pc.WantLock? && !Finished(th) }

  /** A choice for such a thread: one byte at a time, any entry still to be met. */
  lemma FreeThreadSteps(sh: Shared, th: Thread, o: Option<Outcome>) returns (c: Choice)
    requires Free(th) && ThreadRel(sh.files, o, th)
    requires th.pc.Unlock? ==> th.node < |sh.locks| && (th.req.command == GET ==> sh.locks[th.node].readers > 0)
    requires th.pc.RRead? ==> forall k :: k in th.pc.must ==> InFolder(k, th.req.path)
    ensures CanStep(sh, th, c)
  {
    hide InFolder, Directory, NameMatches;
    c := Choice(1, None);
    if th.pc.RRead? {
      if k :| k in th.pc.must && k in sh.files && k !in th.pc.seen {
        c := Choice(1, Some(k));
      }
    }
  }

  /** Every entry a scan must meet is in its folder. */
  predicate MustInFolder(th: Thread) {
    match th.pc
    case RRead(must, _, _) => forall k :: k in must ==> InFolder(k, th.req.path)
    case RDelete(must, _, _) => forall k :: k in must ==> InFolder(k, th.req.path)
    case _ => true
  }

  ghost predicate ScansInFolder(s: State) { forall t :: t in s.threads ==> MustInFolder(s.threads[t]) }

  lemma StepMustInFolder(sh: Shared, t: Tid, th: Thread, c: Choice)
    requires CanStep(sh, th, c) && MustInFolder(th)
    ensures MustInFolder(Step(sh, t, th, c).1)
  {
    hide ParseRequest, InFolder, NameMatches, Directory;
  }

  lemma {:induction false} RunScansInFolder(states: seq<State>, labels: seq<Label>, i: nat)
    requires IsRun(states, labels) && i <= |labels| && Initial(states[0])
    ensures ScansInFolder(states[i])
  {
    hide Step, CanStep, MustInFolder;
    if i > 0 {
      RunScansInFolder(states, labels, i - 1);
      var s, l := states[i - 1], labels[i - 1];
      if l.Run? {
        StepMustInFolder(s.sh, l.t, s.threads[l.t], l.c);
      } else if l.Spawn? {
        FreshMust(NewThread(l.header, l.body));
      }
    }
  }

  lemma FreshMust(th: Thread)
    requires th.pc.Start?
    ensures MustInFolder(th)
  {
  }

  lemma UnlockReady(s: State, t: Tid)
    requires LockInv(s) && t in s.threads && s.threads[t].pc.Unlock?
    ensures var th := s.threads[t];
      th.node < |s.sh.locks| && (th.req.command == GET ==> s.sh.locks[th.node].readers > 0)
  {
    hide Accepted, GoodClient;
    var th := s.threads[t];
    assert PlacedOk(s.sh, t, th);
    assert LockOk(s.sh.locks[th.node], s.threads, th.node);
    if th.req.command == GET {
      assert t in Readers(s.threads, th.node);
    }
  }

  lemma FreeSteps(s: State, spec: Spec, t: Tid) returns (c: Choice)
    requires Sound(s, spec) && ScansInFolder(s) && t in s.threads && Free(s.threads[t])
    ensures Enabled(s, Run(t, c))
  {
    hide LockInv, RemovalInv, CanStep, ThreadRel, StoreRel;
    if s.threads[t].pc.Unlock? {
      UnlockReady(s, t);
    }
    assert MustInFolder(s.threads[t]);
    c := FreeThreadSteps(s.sh, s.threads[t], OutcomeOf(spec, t));
  }

  /** With nobody inside a section every lock is free. */
  lemma NoOneInside(s: State, n: nat)
    requires LockInv(s) && n < |s.sh.locks|
    requires forall t :: t in s.threads ==> !InSection(s.threads[t])
    ensures s.sh.locks[n] == RwLock(0, false)
  {
    hide RequestOk, PlacedOk;
    assert LockOk(s.sh.locks[n], s.threads, n);
    assert Readers(s.threads, n) == {} && Writers(s.threads, n) == {};
  }

  /** Deadlock freedom: while a thread is unfinished, some thread can step. */
  lemma SomeoneSteps(s: State, spec: Spec) returns (t: Tid, c: Choice)
    requires Sound(s, spec) && ScansInFolder(s)
    requires exists u :: u in s.threads && !Finished(s.threads[u])
    ensures Enabled(s, Run(t, c))
  {
    hide LockOk, RequestOk, RegistryOk, RemovalInv, Refines;
    if u :| u in s.threads && Free(s.threads[u]) {
      t := u;
      c := FreeSteps(s, spec, t);
    } else {
      t :| t in s.threads && !Finished(s.threads[t]);
      c := Choice(0, None);
      var th := s.threads[t];
      assert !Free(th);
      WaitersStep(s, t);
    }
  }

  lemma HolderIsFree(s: State)
    requires LockInv(s) && s.sh.mutex.Some?
    ensures s.sh.mutex.value in s.threads && Free(s.threads[s.sh.mutex.value])
  {
  }

  lemma WaitersStep(s: State, t: Tid)
    requires LockInv(s) && t in s.threads && !Finished(s.threads[t])
    requires forall u :: u in s.threads ==> !Free(s.threads[u])
    ensures CanStep(s.sh, s.threads[t], Choice(0, None))
  {
    hide LockOk, Accepted, GoodClient;
    var th := s.threads[t];
    assert !Free(th) && PlacedOk(s.sh, t, th) && RegistryOk(s.sh);
    if th.pc.WantMutex? {
      if s.sh.mutex.Some? {
        HolderIsFree(s);
      }
    } else {
      forall u | u in s.threads
        ensures !InSection(s.threads[u])
      {
        assert !Free(s.threads[u]);
      }
      NoOneInside(s, th.node);
    }
  }

  /** A server that can step no more has finished every thread and holds no lock. */
  lemma StuckIsFinished(s: State, spec: Spec)
    requires Sound(s, spec) && ScansInFolder(s)
    requires forall t, c :: !Enabled(s, Run(t, c))
    ensures forall t :: t in s.threads ==> Finished(s.threads[t])
    ensures s.sh.mutex == None
    ensures forall n :: 0 <= n < |s.sh.locks| ==> s.sh.locks[n] == RwLock(0, false)
  {
    hide LockOk, RequestOk, PlacedOk, RegistryOk, RemovalInv, Refines, Enabled;
    if u :| u in s.threads && !Finished(s.threads[u]) {
      var t, c := SomeoneSteps(s, spec);
      assert false;
    }
    forall n | 0 <= n < |s.sh.locks|
      ensures s.sh.locks[n] == RwLock(0, false)
    {
      NoOneInside(s, n);
    }
  }

  /** Over runs: wherever a run gets stuck, everybody has been served and every lock is free. */
  lemma MaximalRunServesAll(states: seq<State>, labels: seq<Label>)
    requires IsRun(states, labels) && Initial(states[0])
    requires forall t, c :: !Enabled(states[|labels|], Run(t, c))
    ensures var s := states[|labels|];
      && (forall t :: t in s.threads ==> Finished(s.threads[t]))
      && s.sh.mutex == None
      && (forall n :: 0 <= n < |s.sh.locks| ==> s.sh.locks[n] == RwLock(0, false))
  {
    hide LockInv, Refines, RemovalInv, Next, Enabled, ScansInFolder;
    RunKeepsRemoval(states, labels, |labels|);
    RunRefinesStore(states, labels, |labels|);
    RunScansInFolder(states, labels, |labels|);
    StuckIsFinished(states[|labels|], SpecAt(states, labels, |labels|));
  }

  /** And from every reachable state the threads can run to that end. */
  lemma {:induction false} CanFinish(s: State, spec: Spec, b: Bounds) returns (states: seq<State>, labels: seq<Label>)
    requires Sound(s, spec) && ScansInFolder(s) && Within(s, b)
    ensures IsRun(states, labels) && states[0] == s
    ensures forall i :: 0 <= i < |labels| ==> labels[i].Run?
    ensures forall t :: t in states[|labels|].threads ==> Finished(states[|labels|].threads[t])
    decreases Total(s.threads, b)
  {
    hide LockInv, Refines, RemovalInv, Step, CanStep, Within, Total, MustInFolder, SpecNext, Finished;
    if u :| u in s.threads && !Finished(s.threads[u]) {
      var t, c := SomeoneSteps(s, spec);
      var l := Run(t, c);
      MeasureDecreases(s, spec, t, c, b);
      SoundNext(s, spec, l);
      StepMustInFolder(s.sh, t, s.threads[t], c);
      var rest, more := CanFinish(Next(s, l), SpecNext(spec, s, l), b);
      states, labels := [s] + rest, [l] + more;
      RunCons(s, l, rest, more);
    } else {
      states, labels := [s], [];
    }
  }

  lemma RunCons(s: State, l: Label, states: seq<State>, labels: seq<Label>)
    requires Enabled(s, l) && IsRun(states, labels) && states[0] == Next(s, l)
    ensures IsRun([s] + states, [l] + labels)
  {
    hide Next, Enabled;
    var states', labels' := [s] + states, [l] + labels;
    forall i | 0 <= i < |labels'|
      ensures Enabled(states'[i], labels'[i]) && states'[i + 1] == Next(states'[i], labels'[i])
    {
      if i > 0 {
        assert states'[i] == states[i - 1] && labels'[i] == labels[i - 1] && states'[i + 1] == states[i];
      }
    }
  }

  lemma ServerCanFinish(states: seq<State>, labels: seq<Label>, i: nat) returns (after: seq<State>, steps: seq<Label>)
    requires IsRun(states, labels) && i <= |labels| && Initial(states[0])
    ensures IsRun(after, steps) && after[0] == states[i]
    ensures forall j :: 0 <= j < |steps| ==> steps[j].Run?
    ensures forall t :: t in after[|steps|].threads ==> Finished(after[|steps|].threads[t])
  {
    hide LockInv, Refines, RemovalInv, Next, Enabled, Initial, Within, ScansInFolder, ScansBounded, Finished;
    RunScansBounded(states, labels, i);
    RunScansInFolder(states, labels, i);
    RunKeepsRemoval(states, labels, i);
    RunRefinesStore(states, labels, i);
    var b := TotalsExist(states[i]);
    after, steps := CanFinish(states[i], SpecAt(states, labels, i), b);
  }
}
