/**
 When an RM can report an error and leave versions of its file behind: exactly when another
 client removes a rival, a file of the same folder whose name starts with the RM's or the
 other way round. The run: the one scan picks an entry that the other removes first.
 */
module Interference {
  import opened Wrappers
  import opened Text
  import opened Protocol
  import opened Paths
  import opened Directories
  import opened Server
  import opened Removal
  import opened Naming
  import opened Solo
  import Parsing

  // ---------------------------------------------------------------- runs from here to there

  /** Some run of the server goes from `s` to `s'`. */
  ghost predicate Leads(s: State, s': State) {
    exists states, labels :: IsRun(states, labels) && states[0] == s && states[|labels|] == s'
  }

  lemma LeadsNext(s: State, s': State, l: Label)
    requires Leads(s, s') && Enabled(s', l)
    ensures Leads(s, Next(s', l))
  {
    hide Enabled, Next;
    var states, labels :| IsRun(states, labels) && states[0] == s && states[|labels|] == s';
    var states', labels' := states + [Next(s', l)], labels + [l];
    forall i | 0 <= i < |labels'|
      ensures Enabled(states'[i], labels'[i]) && states'[i + 1] == Next(states'[i], labels'[i])
    {
      if i < |labels| {
        assert states'[i] == states[i] && labels'[i] == labels[i] && states'[i + 1] == states[i + 1];
      }
    }
    assert IsRun(states', labels') && states'[0] == s && states'[|labels'|] == Next(s', l);
  }

  /** The steps of one thread alone are steps of the server. */
  lemma {:induction false} LeadsSolo(s: State, s': State, t: Tid, cs: seq<Choice>)
    requires Leads(s, s') && t in s'.threads && Alone(s'.sh, t, s'.threads[t], cs)
    ensures var (sh, th) := AloneEnd(s'.sh, t, s'.threads[t], cs);
      Leads(s, State(sh, s'.threads[t := th]))
    decreases |cs|
  {
    hide Step, CanStep, Leads;
    var th := s'.threads[t];
    if cs == [] {
      assert s' == State(s'.sh, s'.threads[t := th]);
    } else {
      var (sh1, th1) := Step(s'.sh, t, th, cs[0]);
      var s1 := State(sh1, s'.threads[t := th1]);
      LeadsNext(s, s', Run(t, cs[0]));
      LeadsSolo(s, s1, t, cs[1..]);
      var end := AloneEnd(sh1, t, th1, cs[1..]).1;
      assert s1.threads[t := end] == s'.threads[t := end];
    }
  }

  lemma SoloCons(sh: Shared, t: Tid, th: Thread, c: Choice, cs: seq<Choice>)
    requires CanStep(sh, th, c)
    requires var (sh', th') := Step(sh, t, th, c); Alone(sh', t, th', cs)
    ensures Alone(sh, t, th, [c] + cs)
    ensures var (sh', th') := Step(sh, t, th, c); AloneEnd(sh, t, th, [c] + cs) == AloneEnd(sh', t, th', cs)
  {
    hide Step, CanStep;
    assert ([c] + cs)[0] == c && ([c] + cs)[1..] == cs;
  }

  // ---------------------------------------------------------------- an RM up to its scan

  const IDLE := Choice(0, None)

  lemma {:induction false} Registers(sh: Shared, t: Tid, th: Thread, i: nat) returns (cs: seq<Choice>)
    requires th.pc == Scan(i) && i <= |sh.nodes| && th.req.path !in sh.nodes && th.req.path != ""
    ensures Alone(sh, t, th, cs)
    ensures AloneEnd(sh, t, th, cs)
         == (sh.(mutex := None, nodes := sh.nodes + [th.req.path], locks := sh.locks + [RwLock(0, false)]),
             th.(node := |sh.nodes|, pc := WantLock))
    decreases |sh.nodes| - i
  {
    hide WriteStep, GetStep, RemoveStep, Alone;
    var (sh', th') := Step(sh, t, th, IDLE);
    if i == |sh.nodes| {
      cs := [];
      NoSteps(sh', t, th');
    } else {
      cs := Registers(sh, t, th', i + 1);
      assert th.(pc := Scan(i + 1)).(node := |sh.nodes|, pc := WantLock) == th.(node := |sh.nodes|, pc := WantLock);
    }
    SoloCons(sh, t, th, IDLE, cs);
    cs := [IDLE] + cs;
  }

  lemma NoSteps(sh: Shared, t: Tid, th: Thread)
    ensures Alone(sh, t, th, []) && AloneEnd(sh, t, th, []) == (sh, th)
  {
  }

  function RmHeader(path: string): string
    requires path != ""
  {
    PrintRequest(Request(RM, path, 0))
  }

  ghost function Entries(sh: Shared, path: string): set<Key> { set k | k in sh.files && InFolder(k, path) }

  /** The server after one RM thread has removed its file and opened the version folder. */
  function Listed(sh: Shared, path: string): Shared {
    sh.(files := sh.files - {User(path)}, nodes := sh.nodes + [path], locks := sh.locks + [RwLock(0, true)])
  }

  ghost function Lister(sh: Shared, th: Thread, path: string): Thread {
    th.(req := Request(RM, path, 0), node := |sh.nodes|, pc := RRead(Entries(sh, path), {}, true))
  }

  /** From its lock on: lock, remove, open the folder. */
  lemma Lists(sh: Shared, t: Tid, th: Thread, path: string)
    requires th.pc.WantLock? && th.req == Request(RM, path, 0) && th.node < |sh.locks| == |sh.nodes|
    requires sh.locks[th.node] == RwLock(0, false)
    requires path != "" && User(path) in sh.files && Directory(path) in sh.folders
    ensures Alone(sh, t, th, [IDLE, IDLE, IDLE])
    ensures AloneEnd(sh, t, th, [IDLE, IDLE, IDLE])
         == (sh.(files := sh.files - {User(path)}, locks := sh.locks[th.node := RwLock(0, true)]),
             th.(pc := RRead(Entries(sh, path), {}, true)))
  {
    hide Alone, AloneEnd, Directory, InFolder, WriteStep, GetStep;
    var (sh1, th1) := Step(sh, t, th, IDLE);
    var (sh2, th2) := Step(sh1, t, th1, IDLE);
    var (sh3, th3) := Step(sh2, t, th2, IDLE);
    NotListed(sh, path);
    assert [IDLE] + [] == [IDLE] && [IDLE] + [IDLE] == [IDLE, IDLE] && [IDLE] + [IDLE, IDLE] == [IDLE, IDLE, IDLE];
    NoSteps(sh3, t, th3);
    SoloCons(sh2, t, th2, IDLE, []);
    SoloCons(sh1, t, th1, IDLE, [IDLE]);
    SoloCons(sh, t, th, IDLE, [IDLE, IDLE]);
  }

  lemma NotListed(sh: Shared, path: string)
    ensures Entries(sh.(files := sh.files - {User(path)}), path) == Entries(sh, path)
  {
    hide Directory;
  }

  lemma {:induction false} AloneConcat(sh: Shared, t: Tid, th: Thread, a: seq<Choice>, b: seq<Choice>)
    requires Alone(sh, t, th, a)
    requires var (sh', th') := AloneEnd(sh, t, th, a); Alone(sh', t, th', b)
    ensures Alone(sh, t, th, a + b)
    ensures var (sh', th') := AloneEnd(sh, t, th, a); AloneEnd(sh, t, th, a + b) == AloneEnd(sh', t, th', b)
    decreases |a|
  {
    hide Step, CanStep;
    if a == [] {
      assert a + b == b;
    } else {
      var (sh1, th1) := Step(sh, t, th, a[0]);
      AloneConcat(sh1, t, th1, a[1..], b);
      assert (a + b)[0] == a[0] && (a + b)[1..] == a[1..] + b;
    }
  }

  /** A fresh RM thread, alone, gets to its scan. */
  lemma Arrives(sh: Shared, t: Tid, th: Thread, path: string) returns (cs: seq<Choice>)
    requires th.pc.Start? && ParseRequest(th.header) == Some(Request(RM, path, 0))
    requires sh.mutex.None? && path !in sh.nodes && |sh.locks| == |sh.nodes|
    requires path != "" && User(path) in sh.files && Directory(path) in sh.folders
    ensures Alone(sh, t, th, cs)
    ensures AloneEnd(sh, t, th, cs) == (Listed(sh, path), Lister(sh, th, path))
  {
    hide Alone, AloneEnd, Directory, InFolder, ParseRequest, WriteStep, GetStep, RemoveStep;
    var (sh1, th1) := Step(sh, t, th, IDLE);
    var (sh2, th2) := Step(sh1, t, th1, IDLE);
    var scan := Registers(sh2, t, th2, 0);
    var (sh3, th3) := AloneEnd(sh2, t, th2, scan);
    assert sh3 == sh.(nodes := sh.nodes + [path], locks := sh.locks + [RwLock(0, false)]);
    Lists(sh3, t, th3, path);
    assert Entries(sh3, path) == Entries(sh, path);
    assert (sh.locks + [RwLock(0, false)])[|sh.nodes| := RwLock(0, true)] == sh.locks + [RwLock(0, true)];
    AloneConcat(sh2, t, th2, scan, [IDLE, IDLE, IDLE]);
    SoloCons(sh1, t, th1, IDLE, scan + [IDLE, IDLE, IDLE]);
    SoloCons(sh, t, th, IDLE, [IDLE] + (scan + [IDLE, IDLE, IDLE]));
    cs := [IDLE] + ([IDLE] + (scan + [IDLE, IDLE, IDLE]));
  }

  // ---------------------------------------------------------------- two siblings

  /** A path whose printed request is read back. */
  predicate PlainPath(path: string) { UserPath(path) && ',' !in path && Parsing.NUL !in path }

  predicate Siblings(p: string, q: string) { PlainPath(p) && PlainPath(q) && Rivals(p, q) }

  /** For instance two files of the shipped client. */
  lemma SiblingsExist()
    ensures Siblings("data/a", "data/ab") && Siblings("data/ab", "data/a")
  {
    hide Directory, Basename, UserPath;
    OneFolderDown("data", "a");
    OneFolderDown("data", "ab");
    assert "data" + "/" + "a" == "data/a" && "data" + "/" + "ab" == "data/ab";
    assert "ab"[..1] == "a";
  }

  /** An entry that both removals hit, and another version of the first path. */
  function Contested(p: string, q: string): Key {
    if Basename(p) <= Basename(q) then Version(q, 0) else Version(p, 0)
  }

  function TwoFiles(p: string, q: string): Files {
    map[User(p) := [], User(q) := [], Version(p, 1) := [], Contested(p, q) := []]
  }

  function AtStart(p: string, q: string): State {
    var dir := Directory(p);
    State(Shared(TwoFiles(p, q), AfterNested({}, dir), {dir}, [], [], None, 0, {Version(p, 1), Contested(p, q)}), map[])
  }

  lemma SiblingsAreApart(p: string, q: string)
    requires Directory(p) == Directory(q) && '/' in p && '/' in q
    ensures !Under(p, q)
  {
    PathRebuilds(p);
    PathRebuilds(q);
    if |p| < |q| {
      var i := |p| - |Directory(q)| - 1;
      assert q[|p|] == Basename(q)[i] && Basename(q)[i] != '/';
      assert (p + "/")[|p|] == '/';
    }
  }

  lemma NothingIsClosed()
    ensures PrefixClosed({})
  {
  }

  lemma StartIsInitial(p: string, q: string)
    requires Siblings(p, q)
    ensures Initial(AtStart(p, q)) && p !in AtStart(p, q).sh.dirs && q !in AtStart(p, q).sh.dirs
  {
    hide UserPath, Tokens, PrefixClosed, Ancestors, Opens, Directory, Basename;
    var s := AtStart(p, q);
    NothingIsClosed();
    NestedMakes({}, p);
    forall d | d in s.sh.dirs
      ensures ".versions" !in Tokens(d, '/') && d != p && d != q
    {
      AncestorsOfUser(p, d);
      AncestorsOfUser(q, d);
    }
  }

  /** Both clients can connect. */
  lemma BothArrive(p: string, q: string) returns (s: State)
    requires Siblings(p, q)
    ensures Leads(AtStart(p, q), s) && s.sh == AtStart(p, q).sh
    ensures s.threads == map[0 := NewThread(RmHeader(p), []), 1 := NewThread(RmHeader(q), [])]
    ensures ParseRequest(RmHeader(p)) == Some(Request(RM, p, 0)) && ParseRequest(RmHeader(q)) == Some(Request(RM, q, 0))
  {
    hide UserPath, PrintRequest, ParseRequest, GoodClient, Directory, Basename, Leads, Initial, Under, AfterNested;
    var s0 := AtStart(p, q);
    StartIsInitial(p, q);
    HasSlash(p);
    HasSlash(q);
    SiblingsAreApart(p, q);
    SiblingsAreApart(q, p);
    SiblingsAreApart(p, p);
    SiblingsAreApart(q, q);
    PrintedIsGood(Request(RM, p, 0), []);
    PrintedIsGood(Request(RM, q, 0), []);
    LeadsSelf(s0);
    LeadsNext(s0, s0, Spawn(0, RmHeader(p), []));
    var s1 := Next(s0, Spawn(0, RmHeader(p), []));
    LeadsNext(s0, s1, Spawn(1, RmHeader(q), []));
    s := Next(s1, Spawn(1, RmHeader(q), []));
  }

  lemma HasSlash(p: string)
    requires UserPath(p)
    ensures '/' in p && p != ""
  {
  }

  lemma LeadsSelf(s: State)
    ensures Leads(s, s)
  {
    var labels: seq<Label> := [];
    assert IsRun([s], labels) && [s][0] == s && [s][|labels|] == s;
  }

  /** Both threads are at the start of their scans, with both versions still there. */
  lemma BothList(p: string, q: string) returns (s: State)
    requires Siblings(p, q)
    ensures Leads(AtStart(p, q), s) && s.threads.Keys == {0, 1}
    ensures var v, w := Version(p, 1), Contested(p, q);
      && s.sh.files == map[v := [], w := []] && |s.sh.locks| == 2 && s.sh.locks[0] == RwLock(0, true)
      && s.threads[0].req == Request(RM, p, 0) && s.threads[0].node == 0
      && s.threads[1].req == Request(RM, q, 0)
      && s.threads[0].header == RmHeader(p) && s.threads[1].header == RmHeader(q)
      && s.threads[0].pc == RRead({v, w}, {}, true) && s.threads[1].pc == RRead({v, w}, {}, true)
  {
    hide UserPath, PrintRequest, ParseRequest, Directory, Basename, Leads, AfterNested, Alone, AloneEnd, RmHeader;
    var start := AtStart(p, q);
    var s0 := BothArrive(p, q);
    HasSlash(p);
    HasSlash(q);
    var cs := Arrives(s0.sh, 0, s0.threads[0], p);
    LeadsSolo(start, s0, 0, cs);
    var sh1, th0 := Listed(s0.sh, p), Lister(s0.sh, s0.threads[0], p);
    var s1 := State(sh1, s0.threads[0 := th0]);
    var ds := Arrives(sh1, 1, s1.threads[1], q);
    LeadsSolo(start, s1, 1, ds);
    s := State(Listed(sh1, q), s1.threads[1 := Lister(sh1, s1.threads[1], q)]);
    BothEntries(s0.sh, sh1, p, q);
  }

  lemma BothEntries(sh: Shared, sh1: Shared, p: string, q: string)
    requires Siblings(p, q) && sh.files == TwoFiles(p, q) && sh1.files == sh.files - {User(p)}
    ensures var v, w := Version(p, 1), Contested(p, q);
      Entries(sh, p) == {v, w} && Entries(sh1, q) == {v, w} && sh1.files - {User(q)} == map[v := [], w := []]
  {
    hide UserPath, Directory, Basename;
  }

  /** A thread's step, with what it leads to. */
  lemma LeadsRun(start: State, s: State, t: Tid, c: Choice, sh: Shared, th: Thread) returns (s': State)
    requires Leads(start, s) && t in s.threads && CanStep(s.sh, s.threads[t], c)
    requires (sh, th) == Step(s.sh, t, s.threads[t], c)
    ensures Leads(start, s') && s' == State(sh, s.threads[t := th])
  {
    hide CanStep, Step, Leads;
    LeadsNext(start, s, Run(t, c));
    s' := Next(s, Run(t, c));
  }

  lemma PickStep(sh: Shared, t: Tid, th: Thread, k: Key)
    requires th.pc.RRead? && InFolder(k, th.req.path) && k in th.pc.must && k !in th.pc.seen
    ensures CanStep(sh, th, Choice(0, Some(k)))
    ensures var seen := th.pc.seen + {k};
      Step(sh, t, th, Choice(0, Some(k)))
      == (sh, th.(pc := if th.pc.ok && NameMatches(k, th.req.path) then RDelete(th.pc.must, seen, k)
                        else RRead(th.pc.must, seen, th.pc.ok)))
  {
    hide InFolder, NameMatches;
  }

  lemma DeleteStep(sh: Shared, t: Tid, th: Thread)
    requires th.pc.RDelete?
    ensures CanStep(sh, th, IDLE)
    ensures Step(sh, t, th, IDLE)
         == (sh.(files := sh.files - {th.pc.entry}),
             th.(pc := RRead(th.pc.must, th.pc.seen, th.pc.entry in sh.files)))
  {
  }

  /** The first thread's pick is removed by the second before the first gets to it. */
  lemma PickIsLost(p: string, q: string) returns (s: State)
    requires Siblings(p, q)
    ensures Leads(AtStart(p, q), s) && s.threads.Keys == {0, 1}
    ensures var v, w := Version(p, 1), Contested(p, q);
      && s.sh.files == map[v := []] && |s.sh.locks| == 2 && s.sh.locks[0] == RwLock(0, true)
      && s.threads[0].header == RmHeader(p) && s.threads[1].header == RmHeader(q)
      && s.threads[0].req == Request(RM, p, 0) && s.threads[0].node == 0
      && s.threads[0].pc == RRead({v, w}, {w}, false)
  {
    hide UserPath, Leads, AtStart, Step, CanStep, Directory, Contested, Rivals, RmHeader;
    var start, v, w := AtStart(p, q), Version(p, 1), Contested(p, q);
    var pick := Choice(0, Some(w));
    var s0 := BothList(p, q);
    PassesTests(p, q);
    hide InFolder, NameMatches;
    var a0, b0 := s0.threads[0], s0.threads[1];
    PickStep(s0.sh, 0, a0, w);
    var s1 := LeadsRun(start, s0, 0, pick, s0.sh, a0.(pc := RDelete({v, w}, {} + {w}, w)));
    PickStep(s1.sh, 1, b0, w);
    var s2 := LeadsRun(start, s1, 1, pick, s1.sh, b0.(pc := RDelete({v, w}, {} + {w}, w)));
    DeleteStep(s2.sh, 1, s2.threads[1]);
    var s3 := LeadsRun(start, s2, 1, IDLE, s2.sh.(files := s2.sh.files - {w}),
                       b0.(pc := RRead({v, w}, {} + {w}, true)));
    assert s3.sh.files == map[v := []];
    DeleteStep(s3.sh, 0, s3.threads[0]);
    s := LeadsRun(start, s3, 0, IDLE, s3.sh.(files := s3.sh.files - {w}), a0.(pc := RRead({v, w}, {} + {w}, false)));
    assert {} + {w} == {w};
  }

  lemma PassesTests(p: string, q: string)
    requires Siblings(p, q)
    ensures Hits(Contested(p, q), p) && Hits(Contested(p, q), q) && Contested(p, q) != Version(p, 1)
    ensures InFolder(Version(p, 1), p)
  {
    hide UserPath, Basename;
    OwnVersionMatches(p, 0);
    OwnVersionMatches(q, 0);
    OwnVersionMatches(p, 1);
    if Basename(p) <= Basename(q) {
      assert Basename(p) <= Basename(q) <= VersionName(Basename(q), 0);
    } else {
      assert Basename(q) <= Basename(p) <= VersionName(Basename(p), 0);
    }
  }

  /** A scan that has failed and met everything answers with the error and unlocks. */
  lemma EndsFailed(start: State, s: State) returns (s': State)
    requires Leads(start, s) && 0 in s.threads
    requires var th := s.threads[0];
      && th.pc.RRead? && !th.pc.ok && th.pc.must == th.pc.seen && th.req.command == RM
      && th.node < |s.sh.locks|
    ensures Leads(start, s') && s'.sh.files == s.sh.files && s'.threads.Keys == s.threads.Keys
    ensures forall t :: t in s.threads && t != 0 ==> s'.threads[t] == s.threads[t]
    ensures s'.threads[0] == s.threads[0].(reply := Some(Reply(false, MNoHistory, 0)), pc := Done)
  {
    hide Leads, WriteStep, GetStep, ScanStep, LockStep, Receive, NameMatches, InFolder;
    var th := Respond(s.threads[0], false, 0, MNoHistory, Unlock);
    var s1 := LeadsRun(start, s, 0, IDLE, s.sh, th);
    var lock := RwLock(s1.sh.locks[th.node].readers, false);
    s' := LeadsRun(start, s1, 0, IDLE, s1.sh.(locks := s1.sh.locks[th.node := lock]), th.(pc := Done));
  }

  /**
   For any two rivals there is a run of two clients, the RMs of the two, in which the first is
   answered with the error over the history, finishes, and leaves a version of its file.
   */
  lemma FailedRemovalLeaves(p: string, q: string) returns (states: seq<State>, labels: seq<Label>)
    requires Siblings(p, q)
    ensures IsRun(states, labels) && Initial(states[0])
    ensures var s := states[|labels|];
      && s.threads.Keys == {0, 1}
      && s.threads[0].header == RmHeader(p) && s.threads[1].header == RmHeader(q)
      && s.threads[0].pc.Done? && s.threads[0].reply == Some(Reply(false, MNoHistory, 0))
      && User(p) !in s.sh.files && Version(p, 1) in s.sh.files
  {
    hide UserPath, Directory, AtStart, IsRun, Step, CanStep, Initial, Leads, Contested, Rivals, RmHeader;
    var start, v, w := AtStart(p, q), Version(p, 1), Contested(p, q);
    StartIsInitial(p, q);
    var s0 := PickIsLost(p, q);
    PassesTests(p, q);
    hide InFolder, NameMatches;
    PickStep(s0.sh, 0, s0.threads[0], v);
    var th := s0.threads[0].(pc := RRead({v, w}, {w} + {v}, false));
    var s1 := LeadsRun(start, s0, 0, Choice(0, Some(v)), s0.sh, th);
    var s2 := EndsFailed(start, s1);
    states, labels := LeadsBy(start, s2);
  }

  lemma LeadsBy(s: State, s': State) returns (states: seq<State>, labels: seq<Label>)
    requires Leads(s, s')
    ensures IsRun(states, labels) && states[0] == s && states[|labels|] == s'
  {
    hide Enabled, Next;
    states, labels :| IsRun(states, labels) && states[0] == s && states[|labels|] == s';
  }

  // ---------------------------------------------------------------- the exact condition

  /** A run in which every RM is one of `path` or of these paths, and one of `path` reports the error. */
  ghost predicate FailingRun(states: seq<State>, labels: seq<Label>, t: Tid, path: string, others: set<string>) {
    && IsRun(states, labels) && Initial(states[0])
    && var threads := states[|labels|].threads;
       && t in threads && AsksRemoval(threads[t].header, path)
       && threads[t].reply == Some(Reply(false, MNoHistory, 0))
       && forall u, q :: u in threads && AsksRemoval(threads[u].header, q) ==> q == path || q in others
  }

  /**
   The exact condition: with removals of these other paths going on, and any WRITEs and GETs,
   an RM of `path` can report an error over the history if and only if one of them is a rival.
   */
  lemma RemovalFailsExactly(path: string, others: set<string>)
    requires PlainPath(path) && forall q :: q in others ==> PlainPath(q)
    ensures (exists states, labels, t :: FailingRun(states, labels, t, path, others))
       <==> exists q :: q in others && Rivals(path, q)
  {
    hide IsRun, Initial, UserPath, Rivals, ParseRequest, AsksRemoval, RmHeader;
    if q :| q in others && Rivals(path, q) {
      var states, labels := FailedRemovalLeaves(path, q);
      HasSlash(path);
      HasSlash(q);
      HeaderAsks(path);
      HeaderAsks(q);
      assert FailingRun(states, labels, 0, path, others);
    }
    if states, labels, t :| FailingRun(states, labels, t, path, others) {
      NotItsOwnRival(path);
      if forall q :: q in others ==> !Rivals(path, q) {
        UnrivalledSucceeds(states, labels, |labels|, t, path);
        assert false;
      }
    }
  }

  lemma NotItsOwnRival(path: string)
    ensures !Rivals(path, path)
  {
  }

  lemma HeaderAsks(path: string)
    requires PlainPath(path)
    ensures forall q :: AsksRemoval(RmHeader(path), q) <==> q == path
  {
    hide UserPath, PrintRequest, ParseRequest;
    HasSlash(path);
    RequestRoundTrip(Request(RM, path, 0));
  }

  /** A run of two clients, the RMs of two paths, in which the first reports the error. */
  ghost predicate FailingPair(states: seq<State>, labels: seq<Label>, p: string, q: string)
    requires PlainPath(p) && PlainPath(q)
  {
    && IsRun(states, labels) && Initial(states[0])
    && var threads := states[|labels|].threads;
       && threads.Keys == {0, 1} && threads[0].header == RmHeader(p) && threads[1].header == RmHeader(q)
       && threads[0].reply == Some(Reply(false, MNoHistory, 0))
  }

  /** Of two RMs, the first can report an error over the history if and only if they are rivals. */
  lemma PairFailsExactly(p: string, q: string)
    requires PlainPath(p) && PlainPath(q)
    ensures (exists states, labels :: FailingPair(states, labels, p, q)) <==> Rivals(p, q)
  {
    hide IsRun, Initial, UserPath, Rivals, ParseRequest, AsksRemoval, RmHeader;
    HasSlash(p);
    HasSlash(q);
    if Rivals(p, q) {
      var states, labels := FailedRemovalLeaves(p, q);
      assert FailingPair(states, labels, p, q);
    }
    if states, labels :| FailingPair(states, labels, p, q) {
      HeaderAsks(p);
      HeaderAsks(q);
      NotItsOwnRival(p);
      if !Rivals(p, q) {
        UnrivalledSucceeds(states, labels, |labels|, 0, p);
        assert false;
      }
    }
  }
}
