/**
 RM: when it reports OK, the file and its whole version history are gone, although
 other threads add entries to the same folder during the scan; and what it may remove.
 */
module Removal {
  import opened Wrappers
  import opened Protocol
  import opened Paths
  import opened Server
  import opened Locking
  import opened Refinement
  import opened Linearizability
  import Transfer

  ghost predicate HistoryGone(files: Files, path: string) {
    forall at: nat :: Version(path, at) !in files
  }

  /** A scan has ahead of it every version of its own file that is left. */
  ghost predicate RemovalOk(files: Files, th: Thread) {
    match th.pc
    case ROpenDir => User(th.req.path) !in files
    case RRead(must, seen, ok) =>
      && User(th.req.path) !in files
      && (ok ==> forall at: nat :: Version(th.req.path, at) in files ==>
            Version(th.req.path, at) in must && Version(th.req.path, at) !in seen)
    case RDelete(must, seen, entry) =>
      && User(th.req.path) !in files && InFolder(entry, th.req.path) && NameMatches(entry, th.req.path)
      && forall at: nat :: Version(th.req.path, at) in files ==>
           Version(th.req.path, at) in must && (Version(th.req.path, at) !in seen || Version(th.req.path, at) == entry)
    case Unlock =>
      th.req.command == RM && th.reply == Some(Reply(true, MOk, 0)) ==>
        User(th.req.path) !in files && HistoryGone(files, th.req.path)
    case _ => true
  }

  /** Version entries live in existing folders. */
  ghost predicate FoldersOk(sh: Shared) {
    forall k :: k in sh.files && k.Version? ==> Directory(k.path) in sh.folders && k in sh.created
  }

  predicate FolderReady(sh: Shared, th: Thread) {
    th.pc.WOpenNew? ==> Directory(th.req.path) in sh.folders
  }

  ghost predicate RemovalInv(s: State) {
    && FoldersOk(s.sh)
    && forall t :: t in s.threads ==> FolderReady(s.sh, s.threads[t]) && RemovalOk(s.sh.files, s.threads[t])
  }

  // ---------------------------------------------------------------- one step

  lemma OwnVersionMatches(path: string, at: nat)
    ensures InFolder(Version(path, at), path) && NameMatches(Version(path, at), path)
  {
    hide Basename;
    var base := Basename(path);
    assert VersionName(base, at)[..|base|] == base;
  }

  lemma ScanStepOk(sh: Shared, th: Thread, c: Choice)
    requires th.pc.RRead? && CanStep(sh, th, c) && RemovalOk(sh.files, th)
    ensures RemovalOk(sh.files, RemoveStep(sh, th, c).1)
  {
    hide NameMatches, InFolder, Directory;
    if c.entry.Some? && c.entry.value.Version? && c.entry.value.path == th.req.path {
      OwnVersionMatches(th.req.path, c.entry.value.at);
    }
  }

  lemma OpenDirOk(sh: Shared, th: Thread, c: Choice)
    requires th.pc.ROpenDir? && RemovalOk(sh.files, th) && FoldersOk(sh)
    ensures RemovalOk(sh.files, RemoveStep(sh, th, c).1)
  {
    hide NameMatches, Directory;
    forall at: nat | Version(th.req.path, at) in sh.files
      ensures Directory(th.req.path) in sh.folders
    {
      assert Version(th.req.path, at).Version?;
    }
  }

  lemma RemoveStepOk(sh: Shared, th: Thread, c: Choice)
    requires RemovePc(th.pc) && CanStep(sh, th, c) && RemovalOk(sh.files, th) && FoldersOk(sh)
    ensures var (sh', th') := RemoveStep(sh, th, c); RemovalOk(sh'.files, th')
  {
    hide NameMatches, Directory, InFolder, FoldersOk;
    if th.pc.RRead? {
      ScanStepOk(sh, th, c);
    } else if th.pc.ROpenDir? {
      OpenDirOk(sh, th, c);
    }
  }

  lemma OwnRemoval(sh: Shared, t: Tid, th: Thread, c: Choice)
    requires CanStep(sh, th, c) && RemovalOk(sh.files, th) && FoldersOk(sh) && PcOk(th.pc, th.req.command)
    ensures var (sh', th') := Step(sh, t, th, c); RemovalOk(sh'.files, th')
  {
    hide RemoveStep, ParseRequest, NameMatches, InFolder, Directory, FoldersOk;
    if RemovePc(th.pc) {
      RemoveStepOk(sh, th, c);
    }
  }

  lemma FoldersAfter(sh: Shared, t: Tid, th: Thread, c: Choice)
    requires CanStep(sh, th, c) && FoldersOk(sh) && FolderReady(sh, th)
    ensures var (sh', th') := Step(sh, t, th, c);
      && FoldersOk(sh') && FolderReady(sh', th')
      && sh.folders <= sh'.folders && sh.created <= sh'.created
  {
    hide ParseRequest, NameMatches, InFolder, Directory;
  }

  lemma OtherRemoval(s: State, t: Tid, u: Tid, files': Files)
    requires LockInv(s) && t in s.threads && u in s.threads && t != u
    requires FilesMove(s.sh.files, files', s.threads[t])
    requires RemovalOk(s.sh.files, s.threads[u])
    ensures RemovalOk(files', s.threads[u])
  {
    hide LockOk, Accepted, GoodClient, NameMatches, InFolder, Directory;
    var a, b := s.threads[t], s.threads[u];
    assert RequestOk(a) && RequestOk(b);
    if InSection(b) && a.req.path == b.req.path && InSection(a) {
      Exclusion(s, t, u);
    } else if InSection(b) && !InSection(a) {
      assert files' == s.sh.files;
    } else if InSection(b) {
      assert FileAt(files', User(b.req.path)) == FileAt(s.sh.files, User(b.req.path));
    }
  }

  lemma StepKeepsRemoval(s: State, l: Label)
    requires LockInv(s) && RemovalInv(s) && Enabled(s, l)
    ensures RemovalInv(Next(s, l))
  {
    hide Step, CanStep, LockOk, Accepted, GoodClient, FilesMove, RemovalOk, FoldersOk;
    var s' := Next(s, l);
    match l
    case Run(t, c) =>
      var th := s.threads[t];
      assert RequestOk(th);
      StepFiles(s.sh, t, th, c);
      OwnRemoval(s.sh, t, th, c);
      FoldersAfter(s.sh, t, th, c);
      forall u | u in s.threads && u != t
        ensures RemovalOk(s'.sh.files, s.threads[u])
      {
        OtherRemoval(s, t, u, s'.sh.files);
      }
    case Spawn(t, header, body) => NewThreadOk(s.sh.files, header, body);
    case Tick(now) => ClockFree(s.sh, now);
  }

  lemma NewThreadOk(files: Files, header: string, body: Bytes)
    ensures RemovalOk(files, NewThread(header, body))
  {
  }

  lemma ClockFree(sh: Shared, now: nat)
    requires FoldersOk(sh)
    ensures FoldersOk(sh.(clock := now))
  {
  }

  lemma {:induction false} RunKeepsRemoval(states: seq<State>, labels: seq<Label>, i: nat)
    requires IsRun(states, labels) && i <= |labels| && Initial(states[0])
    ensures LockInv(states[i]) && RemovalInv(states[i])
  {
    hide LockInv, RemovalInv, Next, Enabled, Initial;
    if i == 0 {
      InitialRefines(states[0]);
      InitialRemoval(states[0]);
    } else {
      RunKeepsRemoval(states, labels, i - 1);
      StepKeepsLocks(states[i - 1], labels[i - 1]);
      StepKeepsRemoval(states[i - 1], labels[i - 1]);
    }
  }

  lemma InitialRemoval(s: State)
    requires Initial(s)
    ensures RemovalInv(s)
  {
  }

  // ---------------------------------------------------------------- what it gives

  /** Completeness: an RM that replied OK, still holding its lock, left nothing of its file. */
  lemma RemovalComplete(states: seq<State>, labels: seq<Label>, i: nat, t: Tid)
    requires IsRun(states, labels) && i <= |labels| && Initial(states[0])
    requires t in states[i].threads
    requires var th := states[i].threads[t];
      th.pc.Unlock? && th.req.command == RM && th.reply == Some(Reply(true, MOk, 0))
    ensures var path := states[i].threads[t].req.path;
      User(path) !in states[i].sh.files && HistoryGone(states[i].sh.files, path)
  {
    hide LockInv, Next, Enabled, Initial;
    RunKeepsRemoval(states, labels, i);
  }

  /**
   Frame: an RM step adds and changes nothing, and removes only its file and entries of
   its folder that pass the name test.
   */
  lemma RemovalFrame(states: seq<State>, labels: seq<Label>, i: nat, k: Key)
    requires IsRun(states, labels) && i < |labels| && Initial(states[0])
    requires labels[i].Run? && labels[i].t in states[i].threads && RemovePc(states[i].threads[labels[i].t].pc)
    ensures var path := states[i].threads[labels[i].t].req.path;
      var files, files' := states[i].sh.files, states[i + 1].sh.files;
      && (k in files' ==> k in files && files'[k] == files[k])
      && (k in files && k !in files' ==>
            k == User(path)
            || (k.Version? && Directory(k.path) == Directory(path)
                && Reaches(Basename(path), Basename(k.path))
                && Basename(path) <= VersionName(Basename(k.path), k.at)))
  {
    hide LockInv, Initial, Directory, Basename, VersionName, Reaches;
    RunKeepsRemoval(states, labels, i);
    var th := states[i].threads[labels[i].t];
    if k.Version? {
      ReachesExactly(Basename(th.req.path), Basename(k.path));
    }
  }

  /** The test does hit siblings: with the right stamp, any version whose name starts with the basename. */
  lemma RemovalReaches(path: string, sibling: string)
    requires Directory(path) == Directory(sibling)
    ensures Reaches(Basename(path), Basename(sibling)) <==>
            exists at: nat :: InFolder(Version(sibling, at), path) && NameMatches(Version(sibling, at), path)
  {
    hide Directory, Basename, VersionName, Reaches;
    ReachesExactly(Basename(path), Basename(sibling));
    if Reaches(Basename(path), Basename(sibling)) {
      var at: nat :| Basename(path) <= VersionName(Basename(sibling), at);
      assert NameMatches(Version(sibling, at), path);
    }
    forall at: nat | InFolder(Version(sibling, at), path) && NameMatches(Version(sibling, at), path)
      ensures Reaches(Basename(path), Basename(sibling))
    {
      assert Basename(path) <= VersionName(Basename(sibling), at);
    }
  }

  // ---------------------------------------------------------------- when it reports an error

  /** After a failed remove the thread removes nothing more, whatever the folder still holds. */
  lemma FailedRemovalStops(sh: Shared, th: Thread, c: Choice)
    requires th.pc.RRead? && !th.pc.ok && CanStep(sh, th, c)
    ensures var (sh', th') := RemoveStep(sh, th, c);
      && sh' == sh
      && ((th'.pc.RRead? && !th'.pc.ok) || (th'.pc.Unlock? && th'.reply == Some(Reply(false, MNoHistory, 0))))
  {
    hide NameMatches, InFolder, Directory;
  }

  /** The removal test hits the entry. */
  predicate Hits(k: Key, path: string) { InFolder(k, path) && NameMatches(k, path) }

  /** Another thread removes an entry that the scan of thread `t` under way would remove. */
  predicate Interferes(s: State, l: Label, t: Tid) {
    && l.Run? && l.t != t && l.t in s.threads && t in s.threads
    && (s.threads[t].pc.RRead? || s.threads[t].pc.RDelete?)
    && s.threads[l.t].pc.RDelete? && Hits(s.threads[l.t].pc.entry, s.threads[t].req.path)
  }

  /** Nothing the scan still has to remove has vanished. */
  predicate Unhindered(files: Files, th: Thread) {
    && th.reply != Some(Reply(false, MNoHistory, 0))
    && match th.pc
       case RRead(must, seen, ok) =>
         ok && forall k :: k in must && k !in seen && Hits(k, th.req.path) ==> k in files
       case RDelete(must, seen, entry) =>
         && entry in files && entry in seen && Hits(entry, th.req.path)
         && forall k :: k in must && k !in seen && Hits(k, th.req.path) ==> k in files
       case _ => true
  }

  lemma OwnUnhindered(sh: Shared, t: Tid, th: Thread, c: Choice)
    requires CanStep(sh, th, c) && Unhindered(sh.files, th) && PcOk(th.pc, th.req.command)
    ensures var (sh', th') := Step(sh, t, th, c); Unhindered(sh'.files, th')
  {
    hide ParseRequest, NameMatches, InFolder, Directory, WriteStep, GetStep;
    if WritePc(th.pc) {
      NoHistoryInWrite(sh, th, c);
    } else if GetPc(th.pc) {
      NoHistoryInGet(sh.files, th, c);
    }
  }

  lemma NoHistoryInWrite(sh: Shared, th: Thread, c: Choice)
    requires WritePc(th.pc) && CanStep(sh, th, c) && th.reply != Some(Reply(false, MNoHistory, 0))
    ensures var (sh', th') := WriteStep(sh, th, c);
      !RemovePc(th'.pc) && th'.reply != Some(Reply(false, MNoHistory, 0))
  {
    hide Directory, Transfer.ChunkAt;
  }

  lemma NoHistoryInGet(files: Files, th: Thread, c: Choice)
    requires GetPc(th.pc) && th.reply != Some(Reply(false, MNoHistory, 0))
    requires th.pc.GSend? && th.pc.buf != [] ==> 1 <= c.n <= |th.pc.buf|
    ensures var th' := GetStep(files, th, c);
      !RemovePc(th'.pc) && th'.reply != Some(Reply(false, MNoHistory, 0))
  {
    hide Transfer.ChunkAt;
  }

  /** Other threads remove version entries only in RDelete steps. */
  lemma KeepsEntries(sh: Shared, t: Tid, th: Thread, c: Choice, k: Key)
    requires CanStep(sh, th, c) && k.Version? && k in sh.files
    requires th.pc.RDelete? ==> k != th.pc.entry
    ensures k in Step(sh, t, th, c).0.files
  {
    hide ParseRequest, NameMatches, InFolder, Directory;
  }

  lemma OtherUnhindered(s: State, u: Tid, c: Choice, t: Tid)
    requires Enabled(s, Run(u, c)) && t in s.threads && u != t
    requires Unhindered(s.sh.files, s.threads[t]) && !Interferes(s, Run(u, c), t)
    ensures Unhindered(Next(s, Run(u, c)).sh.files, s.threads[t])
  {
    hide Step, CanStep, NameMatches, Directory;
    var a, b := s.threads[u], s.threads[t];
    if b.pc.RRead? || b.pc.RDelete? {
      var files' := Next(s, Run(u, c)).sh.files;
      forall k: Key | k in s.sh.files && Hits(k, b.req.path)
        ensures k in files'
      {
        KeepsEntries(s.sh, u, a, c, k);
      }
    }
  }

  lemma {:induction false} RunUnhindered(states: seq<State>, labels: seq<Label>, i: nat, t: Tid)
    requires IsRun(states, labels) && i <= |labels| && Initial(states[0]) && t in states[i].threads
    requires forall k :: 0 <= k < i ==> !Interferes(states[k], labels[k], t)
    ensures Unhindered(states[i].sh.files, states[i].threads[t])
  {
    hide LockInv, RemovalInv, Step, CanStep, Unhindered, Interferes;
    if i > 0 {
      var s, l := states[i - 1], labels[i - 1];
      RunKeepsRemoval(states, labels, i - 1);
      if t !in s.threads {
        FreshUnhindered(states[i].sh.files, states[i].threads[t]);
      } else {
        RunUnhindered(states, labels, i - 1, t);
        if l.Run? && l.t == t {
          OwnIsOk(s, t);
          OwnUnhindered(s.sh, t, s.threads[t], l.c);
        } else if l.Run? {
          OtherUnhindered(s, l.t, l.c, t);
        }
      }
    }
  }

  lemma FreshUnhindered(files: Files, th: Thread)
    requires th.pc.Start? && th.reply == None
    ensures Unhindered(files, th)
  {
  }

  lemma OwnIsOk(s: State, t: Tid)
    requires LockInv(s) && RemovalInv(s) && t in s.threads
    ensures PcOk(s.threads[t].pc, s.threads[t].req.command) && RemovalOk(s.sh.files, s.threads[t])
  {
    hide LockOk, Accepted, GoodClient, RemovalOk;
    assert RequestOk(s.threads[t]);
  }

  /**
   An RM reports an error over the history only if, during its scan, another RM removed an
   entry that this one would have removed.
   */
  lemma LoneRemovalSucceeds(states: seq<State>, labels: seq<Label>, i: nat, t: Tid)
    requires IsRun(states, labels) && i <= |labels| && Initial(states[0])
    requires t in states[i].threads && states[i].threads[t].pc.Done? && states[i].threads[t].req.command == RM
    requires forall k :: 0 <= k < i ==> !Interferes(states[k], labels[k], t)
    ensures states[i].threads[t].reply == Some(Reply(true, MOk, 0))
         || states[i].threads[t].reply == Some(Reply(false, MNoRemove, 0))
  {
    hide LockInv, StoreRel, Next, Enabled, Interferes, Initial;
    RunUnhindered(states, labels, i, t);
    RunRefinesStore(states, labels, i);
  }

  // ---------------------------------------------------------------- which clients can make it fail

  /** Two files of one folder, the name of one starting with the name of the other. */
  predicate Rivals(p: string, q: string) {
    p != q && Directory(p) == Directory(q) && (Basename(p) <= Basename(q) || Basename(q) <= Basename(p))
  }

  predicate AsksRemoval(header: string, path: string) {
    var r := ParseRequest(header);
    r.Some? && r.value.command == RM && r.value.path == path
  }

  lemma BothHit(k: Key, p: string, q: string)
    requires Hits(k, p) && Hits(k, q) && p != q
    ensures Rivals(p, q)
  {
    hide Directory, Basename, VersionName;
    var name := VersionName(Basename(k.path), k.at);
    var a, b := Basename(p), Basename(q);
    assert a == name[..|a|] && b == name[..|b|];
    if |a| <= |b| {
      assert b[..|a|] == a;
    } else {
      assert a[..|b|] == b;
    }
  }

  /** A thread that interferes asks for the removal of a rival. */
  lemma InterfererIsRival(s: State, l: Label, t: Tid)
    requires LockInv(s) && RemovalInv(s) && Interferes(s, l, t)
    ensures exists p, q ::
      AsksRemoval(s.threads[t].header, p) && AsksRemoval(s.threads[l.t].header, q) && Rivals(p, q)
  {
    hide LockOk, ParseRequest, UserPath, InFolder, NameMatches, FoldersOk, Rivals;
    var a, b := s.threads[l.t], s.threads[t];
    assert RequestOk(a) && RequestOk(b) && RemovalOk(s.sh.files, a);
    if a.req.path == b.req.path {
      Exclusion(s, l.t, t);
      assert false;
    }
    BothHit(a.pc.entry, b.req.path, a.req.path);
    assert AsksRemoval(b.header, b.req.path) && AsksRemoval(a.header, a.req.path);
  }

  /**
   An RM of `path` never reports an error over the history while no client asks for the
   removal of a rival of it, whatever else the clients do.
   */
  lemma UnrivalledSucceeds(states: seq<State>, labels: seq<Label>, i: nat, t: Tid, path: string)
    requires IsRun(states, labels) && i <= |labels| && Initial(states[0])
    requires t in states[i].threads && AsksRemoval(states[i].threads[t].header, path)
    requires forall u, q :: u in states[i].threads && AsksRemoval(states[i].threads[u].header, q) ==> !Rivals(path, q)
    ensures states[i].threads[t].reply != Some(Reply(false, MNoHistory, 0))
  {
    hide LockInv, RemovalInv, Next, Enabled, Initial, Interferes, Rivals, ParseRequest;
    forall k | 0 <= k < i
      ensures !Interferes(states[k], labels[k], t)
    {
      if Interferes(states[k], labels[k], t) {
        Participants(states[k], labels[k], t);
        RunKeepsRemoval(states, labels, k);
        InterfererIsRival(states[k], labels[k], t);
        KeepsThread(states, labels, k, i, t);
        KeepsThread(states, labels, k, i, labels[k].t);
      }
    }
    RunUnhindered(states, labels, i, t);
  }

  lemma Participants(s: State, l: Label, t: Tid)
    requires Interferes(s, l, t)
    ensures l.Run? && l.t in s.threads && t in s.threads
  {
  }
}
