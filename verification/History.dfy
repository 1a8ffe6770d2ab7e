/**
 Version history: the saved versions of a file in stamp order, followed by its
 content, are everything written to it since its last removal; a removal that fails
 leaves some of the versions, in their order.
 */
module History {
  import opened Wrappers
  import opened Text
  import opened Protocol
  import opened Paths
  import opened Server
  import opened Locking
  import opened Refinement
  import opened Removal

  // ---------------------------------------------------------------- the history on disk

  ghost function Stamps(files: Files, path: string): set<nat> {
    set k | k in files && k.Version? && k.path == path :: k.at
  }

  ghost function MaxOf(stamps: set<nat>): (m: nat)
    requires stamps != {}
    ensures m in stamps && forall x :: x in stamps ==> x <= m
    decreases |stamps|
  {
    var x :| x in stamps;
    if stamps == {x} then x
    else
      assert stamps - {x} != {} && forall z :: z in stamps ==> z == x || z in stamps - {x};
      var y := MaxOf(stamps - {x});
      if x > y then x else y
  }

  /** The saved contents at these stamps, oldest first. */
  ghost function Saved(files: Files, path: string, stamps: set<nat>): seq<Bytes>
    decreases |stamps|
  {
    if stamps == {} then []
    else
      var m := MaxOf(stamps);
      Saved(files, path, stamps - {m}) + [ContentsOf(files, Version(path, m))]
  }

  function Current(files: Files, path: string): seq<Bytes> {
    if User(path) in files then [files[User(path)]] else []
  }

  ghost function Timeline(files: Files, path: string): seq<Bytes> {
    Saved(files, path, Stamps(files, path)) + Current(files, path)
  }

  lemma {:induction false} SavedFrame(files: Files, files': Files, path: string, stamps: set<nat>)
    requires forall at :: at in stamps ==> ContentsOf(files', Version(path, at)) == ContentsOf(files, Version(path, at))
    ensures Saved(files', path, stamps) == Saved(files, path, stamps)
    decreases |stamps|
  {
    if stamps != {} {
      SavedFrame(files, files', path, stamps - {MaxOf(stamps)});
    }
  }

  /** A version newer than all others is the last one. */
  lemma SavedNewest(files: Files, path: string, stamps: set<nat>, m: nat)
    requires m !in stamps && forall x :: x in stamps ==> x < m
    ensures Saved(files, path, stamps + {m}) == Saved(files, path, stamps) + [ContentsOf(files, Version(path, m))]
  {
    assert MaxOf(stamps + {m}) == m;
    assert (stamps + {m}) - {m} == stamps;
  }

  lemma {:induction false} SavedCount(files: Files, path: string, stamps: set<nat>)
    ensures |Saved(files, path, stamps)| == |stamps|
    decreases |stamps|
  {
    if stamps != {} {
      SavedCount(files, path, stamps - {MaxOf(stamps)});
    }
  }

  // ---------------------------------------------------------------- what is left of a history

  /** `a` is `b` with some elements left out. */
  predicate SubsequenceOf(a: seq<Bytes>, b: seq<Bytes>) {
    if a == [] then true
    else if b == [] then false
    else
      var b' := b[..|b| - 1];
      SubsequenceOf(a, b') || (a[|a| - 1] == b[|b| - 1] && SubsequenceOf(a[..|a| - 1], b'))
  }

  lemma SubsequenceSnoc(a: seq<Bytes>, b: seq<Bytes>, x: Bytes)
    requires SubsequenceOf(a, b)
    ensures SubsequenceOf(a, b + [x]) && SubsequenceOf(a + [x], b + [x])
  {
    assert (b + [x])[..|b|] == b && (a + [x])[..|a|] == a;
  }

  lemma {:induction false} SubsequenceSelf(a: seq<Bytes>)
    ensures SubsequenceOf(a, a)
  {
    if a != [] {
      SubsequenceSelf(a[..|a| - 1]);
    }
  }

  lemma {:induction false} SubsequenceTransitive(a: seq<Bytes>, b: seq<Bytes>, c: seq<Bytes>)
    requires SubsequenceOf(a, b) && SubsequenceOf(b, c)
    ensures SubsequenceOf(a, c)
    decreases |c|
  {
    if a != [] {
      var b', c' := b[..|b| - 1], c[..|c| - 1];
      if SubsequenceOf(b, c') {
        SubsequenceTransitive(a, b, c');
      } else if SubsequenceOf(a, b') {
        SubsequenceTransitive(a, b', c');
      } else {
        SubsequenceTransitive(a[..|a| - 1], b', c');
      }
    }
  }

  /** Fewer stamps, the same contents in the same order. */
  lemma {:induction false} SavedFewer(files: Files, path: string, fewer: set<nat>, stamps: set<nat>)
    requires fewer <= stamps
    ensures SubsequenceOf(Saved(files, path, fewer), Saved(files, path, stamps))
    decreases |stamps|
  {
    if stamps != {} {
      var m := MaxOf(stamps);
      SavedFewer(files, path, fewer - {m}, stamps - {m});
      SubsequenceSnoc(Saved(files, path, fewer - {m}), Saved(files, path, stamps - {m}),
                      ContentsOf(files, Version(path, m)));
      if m in fewer {
        assert MaxOf(fewer) == m;
      } else {
        assert fewer - {m} == fewer;
      }
    }
  }

  // ---------------------------------------------------------------- the history as it should be

  /** What a step means for the history of a path, whatever is on the disk. */
  datatype Change = Kept | Added(body: Bytes) | Cleared | Cut

  /** A WRITE adds its body when it ends, an RM that reports OK clears, one that reports an error cuts. */
  function ChangeBy(sh: Shared, th: Thread, c: Choice): Change {
    match th.pc
    case WFill(remaining) => if remaining <= 0 then Added(th.body) else Kept
    case ROpenDir => if Directory(th.req.path) in sh.folders then Kept else Cleared
    case RRead(_, _, ok) => if c.entry.Some? then Kept else if ok then Cleared else Cut
    case _ => Kept
  }

  function ChangeOf(s: State, l: Label, path: string): Change
    requires Enabled(s, l)
  {
    if l.Run? && s.threads[l.t].req.path == path then ChangeBy(s.sh, s.threads[l.t], l.c) else Kept
  }

  /** After a cut the last content is gone, and of the versions some may be; none is altered, moved or added. */
  predicate Follows(h: seq<Bytes>, h': seq<Bytes>, change: Change) {
    match change
    case Kept => h' == h
    case Added(body) => h' == h + [body]
    case Cleared => h' == []
    case Cut => h != [] && SubsequenceOf(h', h[..|h| - 1])
  }

  /** The history after a thread's own step: after a cut, what is on the disk. */
  ghost function OwnHistory(h: seq<Bytes>, sh: Shared, th: Thread, c: Choice): seq<Bytes> {
    match ChangeBy(sh, th, c)
    case Kept => h
    case Added(body) => h + [body]
    case Cleared => []
    case Cut => Timeline(sh.files, th.req.path)
  }

  // ---------------------------------------------------------------- the relation

  /** Inside its section, with the files of `path` between two histories. */
  predicate Busy(th: Thread, path: string) {
    th.req.path == path
    && (th.pc.WCopy? || th.pc.WTruncate? || th.pc.WFill? || th.pc.ROpenDir? || th.pc.RRead? || th.pc.RDelete?)
  }

  /** An RM is at work: the content is gone, and of the versions some may be. */
  ghost predicate Shrinking(files: Files, h: seq<Bytes>, path: string) {
    && User(path) !in files && h != []
    && SubsequenceOf(Saved(files, path, Stamps(files, path)), h[..|h| - 1])
  }

  ghost predicate Phase(files: Files, h: seq<Bytes>, th: Thread) {
    var path := th.req.path;
    match th.pc
    case WStamp => User(path) in files
    case WMkFolder(at) => User(path) in files && forall x :: x in Stamps(files, path) ==> x < at
    case WOpenNew(at) => User(path) in files && forall x :: x in Stamps(files, path) ==> x < at
    case WCopy(at, off) =>
      && User(path) in files
      && at in Stamps(files, path) && (forall x :: x in Stamps(files, path) ==> x <= at)
      && var c := files[User(path)];
         && off <= |c| && files[Version(path, at)] == c[..off]
         && Saved(files, path, Stamps(files, path) - {at}) + [c] == h
    case WTruncate => Saved(files, path, Stamps(files, path)) == h
    case WFill(_) => Saved(files, path, Stamps(files, path)) == h
    case ROpenDir => Shrinking(files, h, path)
    case RRead(_, _, _) => Shrinking(files, h, path)
    case RDelete(_, _, _) => Shrinking(files, h, path)
    case _ => true
  }

  ghost predicate Local(files: Files, h: seq<Bytes>, th: Thread) {
    Phase(files, h, th) && (!Busy(th, th.req.path) ==> Timeline(files, th.req.path) == h)
  }

  ghost predicate Idle(threads: Threads, path: string) {
    forall t :: t in threads ==> !Busy(threads[t], path)
  }

  ghost predicate HistoryRel(s: State, h: seq<Bytes>, path: string) {
    && (Idle(s.threads, path) ==> Timeline(s.sh.files, path) == h)
    && forall t :: t in s.threads && s.threads[t].req.path == path ==> Phase(s.sh.files, h, s.threads[t])
  }

  // ---------------------------------------------------------------- the two conditions

  /** A save of `path` reads a clock that is past all its saved stamps. */
  ghost predicate ClockAdvanced(s: State, l: Label, path: string) {
    l.Run? && l.t in s.threads && s.threads[l.t].pc.WStamp? && s.threads[l.t].req.path == path ==>
      forall x :: x in Stamps(s.sh.files, path) ==> x < s.sh.clock
  }

  /** No RM of a sibling whose name reaches into the version names of `path`. */
  predicate NoReachingRemoval(s: State, path: string) {
    forall t :: t in s.threads && s.threads[t].req.command == RM && s.threads[t].req.path != path ==>
      !(Directory(s.threads[t].req.path) == Directory(path) && Reaches(Basename(s.threads[t].req.path), Basename(path)))
  }

  // ---------------------------------------------------------------- the thread that steps

  lemma InStamps(files: Files, path: string, at: nat)
    ensures at in Stamps(files, path) <==> Version(path, at) in files
  {
    assert Version(path, at) in files ==> at in Stamps(files, path);
  }

  lemma StampsInsert(files: Files, path: string, at: nat, c: Bytes)
    ensures Stamps(files[Version(path, at) := c], path) == Stamps(files, path) + {at}
  {
    var files' := files[Version(path, at) := c];
    forall x: nat
      ensures x in Stamps(files', path) <==> x in Stamps(files, path) + {at}
    {
      InStamps(files', path, x);
      InStamps(files, path, x);
    }
  }

  lemma SaveBegins(sh: Shared, th: Thread, c: Choice, h: seq<Bytes>)
    requires th.pc.WOpenNew? && Local(sh.files, h, th)
    ensures var (sh', th') := WriteStep(sh, th, c); Local(sh'.files, h, th')
  {
    hide Directory;
    var path, at := th.req.path, th.pc.at;
    var files' := WriteStep(sh, th, c).0.files;
    var stamps := Stamps(sh.files, path);
    StampsInsert(sh.files, path, at, []);
    assert at !in stamps;
    assert Stamps(files', path) - {at} == stamps;
    SavedFrame(sh.files, files', path, stamps);
    assert sh.files[User(path)][..0] == [];
  }

  /** Changing the file at one known stamp changes nothing else. */
  lemma SameStamps(files: Files, files': Files, path: string)
    requires forall at: nat :: Version(path, at) in files' <==> Version(path, at) in files
    ensures Stamps(files', path) == Stamps(files, path)
  {
    forall x: nat
      ensures x in Stamps(files', path) <==> x in Stamps(files, path)
    {
      assert x in Stamps(files', path) <==> Version(path, x) in files';
      assert x in Stamps(files, path) <==> Version(path, x) in files;
    }
  }

  lemma CopyChunk(sh: Shared, th: Thread, c: Choice)
    requires th.pc.WCopy? && User(th.req.path) in sh.files && Version(th.req.path, th.pc.at) in sh.files
    requires var content := sh.files[User(th.req.path)];
      th.pc.off <= |content| && sh.files[Version(th.req.path, th.pc.at)] == content[..th.pc.off]
    ensures var path, content := th.req.path, sh.files[User(th.req.path)];
      var (sh', th') := WriteStep(sh, th, c);
      var chunk := Transfer.ChunkAt(content, th.pc.off);
      && sh'.files == sh.files[Version(path, th.pc.at) := content[..th.pc.off + |chunk|]]
      && th' == th.(pc := if |chunk| < CHUNK then WTruncate else WCopy(th.pc.at, th.pc.off + |chunk|))
      && (|chunk| < CHUNK ==> content[..th.pc.off + |chunk|] == content)
  {
    hide Directory;
    var content, off := sh.files[User(th.req.path)], th.pc.off;
    var chunk := Transfer.ChunkAt(content, off);
    Transfer.ChunkExtends(content, off);
  }

  lemma SaveGoesOn(sh: Shared, th: Thread, c: Choice, h: seq<Bytes>)
    requires th.pc.WCopy? && Local(sh.files, h, th)
    ensures var (sh', th') := WriteStep(sh, th, c); Local(sh'.files, h, th')
  {
    hide WriteStep, Stamps;
    var path, at := th.req.path, th.pc.at;
    var stamps := Stamps(sh.files, path);
    InStamps(sh.files, path, at);
    CopyChunk(sh, th, c);
    var files' := WriteStep(sh, th, c).0.files;
    StampsInsert(sh.files, path, at, files'[Version(path, at)]);
    assert stamps + {at} == stamps;
    SavedFrame(sh.files, files', path, stamps - {at});
    if WriteStep(sh, th, c).1.pc.WTruncate? {
      SavedNewest(files', path, stamps - {at}, at);
      assert (stamps - {at}) + {at} == stamps;
    }
  }

  lemma FillStep(sh: Shared, th: Thread, c: Choice, h: seq<Bytes>)
    requires (th.pc.WTruncate? || th.pc.WFill?) && CanStep(sh, th, c) && Local(sh.files, h, th)
    requires th.pc.WFill? && th.pc.remaining <= 0 ==> FileAt(sh.files, User(th.req.path)) == Some(th.body)
    ensures var (sh', th') := WriteStep(sh, th, c); Local(sh'.files, OwnHistory(h, sh, th, c), th')
  {
    var path := th.req.path;
    var files' := WriteStep(sh, th, c).0.files;
    SameStamps(sh.files, files', path);
    SavedFrame(sh.files, files', path, Stamps(sh.files, path));
  }

  lemma EarlyWrite(sh: Shared, th: Thread, c: Choice, h: seq<Bytes>)
    requires th.pc.WMkdirs? || th.pc.WOpenOld? || th.pc.WStamp? || th.pc.WMkFolder?
    requires Local(sh.files, h, th)
    requires th.pc.WStamp? ==> forall x :: x in Stamps(sh.files, th.req.path) ==> x < sh.clock
    ensures var (sh', th') := WriteStep(sh, th, c); Local(sh'.files, h, th')
  {
    hide Directory;
  }

  lemma RemovalBegins(sh: Shared, th: Thread, c: Choice, h: seq<Bytes>)
    requires th.pc.RRemove? && Local(sh.files, h, th)
    ensures var (sh', th') := RemoveStep(sh, th, c); Local(sh'.files, h, th')
  {
    hide Stamps, Saved;
    var path := th.req.path;
    if path != "" && User(path) in sh.files {
      var files' := sh.files - {User(path)};
      var stamps := Stamps(sh.files, path);
      SameStamps(sh.files, files', path);
      SavedFrame(sh.files, files', path, stamps);
      assert h[..|h| - 1] == Saved(sh.files, path, stamps);
      SubsequenceSelf(h[..|h| - 1]);
    }
  }

  lemma DeleteShrinks(files: Files, h: seq<Bytes>, path: string, entry: Key)
    requires Shrinking(files, h, path) && entry.Version?
    ensures Shrinking(files - {entry}, h, path)
  {
    hide Stamps, Saved;
    var files' := files - {entry};
    var stamps, stamps' := Stamps(files, path), Stamps(files', path);
    forall x | x in stamps'
      ensures x in stamps && ContentsOf(files', Version(path, x)) == ContentsOf(files, Version(path, x))
    {
      InStamps(files, path, x);
      InStamps(files', path, x);
    }
    SavedFrame(files, files', path, stamps');
    SavedFewer(files, path, stamps', stamps);
    SubsequenceTransitive(Saved(files, path, stamps'), Saved(files, path, stamps), h[..|h| - 1]);
  }

  lemma ScanHistory(sh: Shared, th: Thread, c: Choice, h: seq<Bytes>)
    requires (th.pc.ROpenDir? || th.pc.RRead?) && CanStep(sh, th, c) && Local(sh.files, h, th)
    requires RemovalOk(sh.files, th) && FoldersOk(sh)
    ensures var (sh', th') := RemoveStep(sh, th, c); Local(sh'.files, OwnHistory(h, sh, th, c), th')
  {
    hide NameMatches, InFolder, Directory, Shrinking;
    var path := th.req.path;
    if th.pc.ROpenDir? && Directory(path) !in sh.folders {
      Emptied(sh.files, path);
    } else if th.pc.RRead? && c.entry.None? && th.pc.ok {
      Emptied(sh.files, path);
    }
  }

  lemma RemoveHistory(sh: Shared, th: Thread, c: Choice, h: seq<Bytes>)
    requires RemovePc(th.pc) && CanStep(sh, th, c) && Local(sh.files, h, th)
    requires RemovalOk(sh.files, th) && FoldersOk(sh)
    ensures var (sh', th') := RemoveStep(sh, th, c); Local(sh'.files, OwnHistory(h, sh, th, c), th')
  {
    hide NameMatches, Directory, Shrinking, FoldersOk, Timeline;
    if th.pc.RRemove? {
      RemovalBegins(sh, th, c, h);
    } else if th.pc.RDelete? {
      DeleteShrinks(sh.files, h, th.req.path, th.pc.entry);
    } else {
      ScanHistory(sh, th, c, h);
    }
  }

  lemma Emptied(files: Files, path: string)
    requires User(path) !in files && forall at: nat :: Version(path, at) !in files
    ensures Timeline(files, path) == []
  {
    assert Stamps(files, path) == {};
  }

  lemma OwnLocal(sh: Shared, t: Tid, th: Thread, c: Choice, h: seq<Bytes>, o: Option<Outcome>)
    requires (WritePc(th.pc) || RemovePc(th.pc)) && CanStep(sh, th, c)
    requires Local(sh.files, h, th) && ThreadRel(sh.files, o, th) && RemovalOk(sh.files, th) && FoldersOk(sh)
    requires th.pc.WStamp? ==> forall x :: x in Stamps(sh.files, th.req.path) ==> x < sh.clock
    ensures var (sh', th') := Step(sh, t, th, c); Local(sh'.files, OwnHistory(h, sh, th, c), th')
  {
    hide WriteStep, RemoveStep, GetStep, Local, RemovalOk, FoldersOk;
    if RemovePc(th.pc) {
      RemoveHistory(sh, th, c, h);
    } else if th.pc.WOpenNew? {
      SaveBegins(sh, th, c, h);
    } else if th.pc.WCopy? {
      SaveGoesOn(sh, th, c, h);
    } else if th.pc.WTruncate? || th.pc.WFill? {
      if th.pc.WFill? && th.pc.remaining <= 0 {
        FilledIsBody(sh.files, o, th);
      }
      FillStep(sh, th, c, h);
    } else {
      EarlyWrite(sh, th, c, h);
    }
  }

  // ---------------------------------------------------------------- every step

  /** Nothing of `path` moves. */
  ghost predicate Untouched(files: Files, files': Files, path: string) {
    && FileAt(files', User(path)) == FileAt(files, User(path))
    && forall at: nat :: FileAt(files', Version(path, at)) == FileAt(files, Version(path, at))
  }

  lemma UntouchedHistory(files: Files, files': Files, path: string, h: seq<Bytes>, th: Thread)
    requires Untouched(files, files', path) && th.req.path == path
    ensures Timeline(files', path) == Timeline(files, path)
    ensures Phase(files, h, th) ==> Phase(files', h, th)
  {
    forall at: nat
      ensures Version(path, at) in files' <==> Version(path, at) in files
      ensures ContentsOf(files', Version(path, at)) == ContentsOf(files, Version(path, at))
    {
      assert FileAt(files', Version(path, at)) == FileAt(files, Version(path, at));
    }
    SameStamps(files, files', path);
    SavedFrame(files, files', path, Stamps(files, path));
    if th.pc.WCopy? {
      SavedFrame(files, files', path, Stamps(files, path) - {th.pc.at});
    }
  }

  /** A thread on another path leaves `path` alone, unless it removes one of its versions. */
  lemma ForeignStep(sh: Shared, t: Tid, th: Thread, c: Choice, path: string)
    requires CanStep(sh, th, c) && th.req.path != path && (th.pc.RDelete? ==> th.pc.entry.Version?)
    requires th.pc.RDelete? ==> th.pc.entry.path != path
    ensures Untouched(sh.files, Step(sh, t, th, c).0.files, path)
  {
    hide ParseRequest, NameMatches, InFolder, Directory;
  }

  lemma IdleFiles(sh: Shared, t: Tid, th: Thread, c: Choice)
    requires CanStep(sh, th, c) && !WritePc(th.pc) && !RemovePc(th.pc)
    ensures var (sh', th') := Step(sh, t, th, c);
      && sh'.files == sh.files
      && !(th'.pc.WStamp? || th'.pc.WMkFolder? || th'.pc.WOpenNew? || th'.pc.WCopy? || th'.pc.WTruncate?
           || th'.pc.WFill? || th'.pc.ROpenDir? || th'.pc.RRead? || th'.pc.RDelete?)
  {
    hide ParseRequest;
  }

  /** The removal test, as the conditions see it. */
  lemma DeleteIsOwn(s: State, t: Tid, path: string)
    requires RemovalInv(s) && t in s.threads && NoReachingRemoval(s, path)
    requires s.threads[t].pc.RDelete? && s.threads[t].req.command == RM && s.threads[t].req.path != path
    ensures s.threads[t].pc.entry.path != path
  {
    hide Directory, Basename, VersionName, Reaches, FoldersOk;
    var th := s.threads[t];
    assert RemovalOk(s.sh.files, th);
    ReachesExactly(Basename(th.req.path), Basename(path));
  }

  lemma OtherPathStep(s: State, t: Tid, c: Choice, h: seq<Bytes>, path: string)
    requires LockInv(s) && RemovalInv(s) && Enabled(s, Run(t, c)) && HistoryRel(s, h, path)
    requires s.threads[t].req.path != path && UserPath(path) && NoReachingRemoval(s, path)
    ensures var s' := Next(s, Run(t, c));
      Untouched(s.sh.files, s'.sh.files, path)
  {
    hide LockOk, Accepted, GoodClient, Step, CanStep, UserPath, HistoryRel, NoReachingRemoval, RemovalInv;
    var th := s.threads[t];
    assert RequestOk(th);
    if th.pc.RDelete? {
      DeleteIsOwn(s, t, path);
    }
    ForeignStep(s.sh, t, th, c, path);
  }

  /** A thread that has just parsed its request is in no phase. */
  lemma ParsedIsIdle(sh: Shared, t: Tid, th: Thread, c: Choice)
    requires CanStep(sh, th, c)
    ensures var th' := Step(sh, t, th, c).1;
      th'.req == th.req || (th.pc.Start? && th'.pc.WantMutex?)
  {
    hide ParseRequest, NameMatches, InFolder, Directory;
  }

  lemma OtherPathRel(s: State, t: Tid, c: Choice, h: seq<Bytes>, path: string)
    requires LockInv(s) && RemovalInv(s) && Enabled(s, Run(t, c)) && HistoryRel(s, h, path)
    requires s.threads[t].req.path != path && UserPath(path) && NoReachingRemoval(s, path)
    ensures HistoryRel(Next(s, Run(t, c)), h, path)
  {
    hide LockInv, RemovalInv, Step, CanStep, UserPath, NoReachingRemoval, Phase, Untouched, Timeline;
    var s' := Next(s, Run(t, c));
    var th' := s'.threads[t];
    OtherPathStep(s, t, c, h, path);
    ParsedIsIdle(s.sh, t, s.threads[t], c);
    UntouchedHistory(s.sh.files, s'.sh.files, path, h, th'.(req := th'.req.(path := path)));
    NoPhase(s'.sh.files, h, th');
    forall u | u in s'.threads && s'.threads[u].req.path == path
      ensures Phase(s'.sh.files, h, s'.threads[u])
    {
      if u != t {
        UntouchedHistory(s.sh.files, s'.sh.files, path, h, s.threads[u]);
      }
    }
    if Idle(s'.threads, path) {
      forall u | u in s.threads
        ensures !Busy(s.threads[u], path)
      {
        assert u != t ==> !Busy(s'.threads[u], path);
      }
    }
  }

  lemma NoPhase(files: Files, h: seq<Bytes>, th: Thread)
    ensures th.pc.WantMutex? ==> Phase(files, h, th)
  {
  }

  /** A writer or remover is alone on its path, so the relation is about it only. */
  lemma OwnPathRel(s: State, spec: Spec, t: Tid, c: Choice, h: seq<Bytes>)
    requires LockInv(s) && RemovalInv(s) && Refines(s, spec) && Enabled(s, Run(t, c))
    requires HistoryRel(s, h, s.threads[t].req.path)
    requires WritePc(s.threads[t].pc) || RemovePc(s.threads[t].pc)
    requires ClockAdvanced(s, Run(t, c), s.threads[t].req.path)
    ensures HistoryRel(Next(s, Run(t, c)), OwnHistory(h, s.sh, s.threads[t], c), s.threads[t].req.path)
  {
    hide Step, CanStep, LockOk, Accepted, GoodClient, Phase,
         Timeline, OwnHistory, RemovalOk, ThreadRel, FoldersOk, StoreRel;
    var th, s' := s.threads[t], Next(s, Run(t, c));
    var path, h' := th.req.path, OwnHistory(h, s.sh, th, c);
    assert RequestOk(th);
    AloneOnPath(s, t);
    OnlyOne(s.threads, t, path);
    OwnLocal(s.sh, t, th, c, h, OutcomeOf(spec, t));
    ParsedIsIdle(s.sh, t, th, c);
    forall u | u in s'.threads && s'.threads[u].req.path == path
      ensures Phase(s'.sh.files, h', s'.threads[u])
    {
      if u != t {
        NotInSection(s'.sh.files, h', s.threads[u]);
      }
    }
    if Idle(s'.threads, path) {
      assert !Busy(s'.threads[t], path);
    }
  }

  lemma AloneOnPath(s: State, t: Tid)
    requires LockInv(s) && t in s.threads && (WritePc(s.threads[t].pc) || RemovePc(s.threads[t].pc))
    ensures forall u :: u in s.threads && u != t && s.threads[u].req.path == s.threads[t].req.path ==>
              !InSection(s.threads[u])
  {
    hide LockOk, Accepted, GoodClient;
    assert RequestOk(s.threads[t]);
    forall u | u in s.threads && u != t && s.threads[u].req.path == s.threads[t].req.path
      ensures !InSection(s.threads[u])
    {
      if InSection(s.threads[u]) {
        Exclusion(s, t, u);
      }
    }
  }

  lemma OnlyOne(threads: Threads, t: Tid, path: string)
    requires t in threads && threads[t].req.path == path
    requires forall u :: u in threads && u != t && threads[u].req.path == path ==> !InSection(threads[u])
    ensures Idle(threads, path) <==> !Busy(threads[t], path)
  {
  }

  lemma NotInSection(files: Files, h: seq<Bytes>, th: Thread)
    requires !InSection(th)
    ensures Phase(files, h, th)
  {
  }

  lemma QuietPathRel(s: State, t: Tid, c: Choice, h: seq<Bytes>, path: string)
    requires LockInv(s) && Enabled(s, Run(t, c)) && HistoryRel(s, h, path) && s.threads[t].req.path == path
    requires !WritePc(s.threads[t].pc) && !RemovePc(s.threads[t].pc)
    ensures HistoryRel(Next(s, Run(t, c)), h, path)
    ensures OwnHistory(h, s.sh, s.threads[t], c) == h
  {
    hide LockInv, Step, CanStep, Phase, Timeline, Directory;
    var s' := Next(s, Run(t, c));
    IdleFiles(s.sh, t, s.threads[t], c);
    NoWork(s'.sh.files, h, s'.threads[t]);
    if Idle(s'.threads, path) {
      forall u | u in s.threads
        ensures !Busy(s.threads[u], path)
      {
        assert u != t ==> !Busy(s'.threads[u], path);
      }
    }
  }

  lemma NoWork(files: Files, h: seq<Bytes>, th: Thread)
    requires !(th.pc.WStamp? || th.pc.WMkFolder? || th.pc.WOpenNew? || th.pc.WCopy? || th.pc.WTruncate? || th.pc.WFill?
               || th.pc.ROpenDir? || th.pc.RRead? || th.pc.RDelete?)
    ensures Phase(files, h, th)
  {
  }

  /** Where an RM reports an error, what is on the disk is what it left of the versions. */
  lemma OwnFollows(s: State, t: Tid, c: Choice, h: seq<Bytes>, path: string)
    requires Enabled(s, Run(t, c)) && HistoryRel(s, h, path) && s.threads[t].req.path == path
    ensures Follows(h, OwnHistory(h, s.sh, s.threads[t], c), ChangeOf(s, Run(t, c), path))
  {
    hide CanStep, Step, Stamps, Saved, Directory;
    var th := s.threads[t];
    if ChangeBy(s.sh, th, c).Cut? {
      assert Shrinking(s.sh.files, h, path);
      assert Timeline(s.sh.files, path) == Saved(s.sh.files, path, Stamps(s.sh.files, path));
    }
  }

  /** Every step keeps the relation, and changes the history as the step's kind says. */
  lemma StepKeepsHistory(s: State, spec: Spec, l: Label, h: seq<Bytes>, path: string) returns (h': seq<Bytes>)
    requires LockInv(s) && RemovalInv(s) && Refines(s, spec) && Enabled(s, l) && HistoryRel(s, h, path)
    requires UserPath(path) && ClockAdvanced(s, l, path) && NoReachingRemoval(s, path)
    ensures HistoryRel(Next(s, l), h', path) && Follows(h, h', ChangeOf(s, l, path))
  {
    hide LockInv, RemovalInv, Refines, Step, CanStep, UserPath, NoReachingRemoval, Phase, Timeline, OwnHistory,
         ChangeBy, Placeable;
    h' := h;
    match l
    case Run(t, c) =>
      var th := s.threads[t];
      if th.req.path != path {
        OtherPathRel(s, t, c, h, path);
      } else {
        h' := OwnHistory(h, s.sh, th, c);
        OwnFollows(s, t, c, h, path);
        if WritePc(th.pc) || RemovePc(th.pc) {
          OwnPathRel(s, spec, t, c, h);
        } else {
          QuietPathRel(s, t, c, h, path);
        }
      }
    case Spawn(t, header, body) =>
      var s' := Next(s, l);
      NoWork(s.sh.files, h, s'.threads[t]);
      if Idle(s'.threads, path) {
        forall u | u in s.threads
          ensures !Busy(s.threads[u], path)
        {
          assert !Busy(s'.threads[u], path);
        }
      }
    case Tick(_) =>
  }

  // ---------------------------------------------------------------- every run

  ghost predicate Conserving(states: seq<State>, labels: seq<Label>, path: string)
    requires IsRun(states, labels)
  {
    forall i :: 0 <= i < |labels| ==>
      ClockAdvanced(states[i], labels[i], path) && NoReachingRemoval(states[i], path)
  }

  /** The histories of `path` after each step: as on the disk at the start, then as the steps say. */
  ghost predicate Histories(hs: seq<seq<Bytes>>, states: seq<State>, labels: seq<Label>, path: string)
    requires IsRun(states, labels)
  {
    && |hs| == |states| && hs[0] == Timeline(states[0].sh.files, path)
    && forall i :: 0 <= i < |labels| ==> Follows(hs[i], hs[i + 1], ChangeOf(states[i], labels[i], path))
  }

  lemma StartsAsOnDisk(s: State, path: string)
    requires Initial(s)
    ensures HistoryRel(s, Timeline(s.sh.files, path), path)
  {
    hide Timeline, DiskOk;
  }

  lemma {:induction false} RunKeepsHistory(states: seq<State>, labels: seq<Label>, path: string, n: nat)
    returns (hs: seq<seq<Bytes>>)
    requires IsRun(states, labels) && n <= |labels| && Initial(states[0])
    requires UserPath(path) && Conserving(states, labels, path)
    ensures |hs| == n + 1 && hs[0] == Timeline(states[0].sh.files, path)
    ensures forall i :: 0 <= i < n ==> Follows(hs[i], hs[i + 1], ChangeOf(states[i], labels[i], path))
    ensures forall i :: 0 <= i <= n ==> HistoryRel(states[i], hs[i], path)
  {
    hide LockInv, RemovalInv, Refines, Next, Enabled, UserPath, NoReachingRemoval, ClockAdvanced, ChangeOf,
         Timeline, Follows, HistoryRel, Initial, SpecAt;
    if n == 0 {
      hs := [Timeline(states[0].sh.files, path)];
      StartsAsOnDisk(states[0], path);
    } else {
      var before := RunKeepsHistory(states, labels, path, n - 1);
      RunKeepsRemoval(states, labels, n - 1);
      RunRefinesStore(states, labels, n - 1);
      var h := StepKeepsHistory(states[n - 1], SpecAt(states, labels, n - 1), labels[n - 1], before[n - 1], path);
      hs := before + [h];
    }
  }

  /** No WRITE or RM is between its lock and its reply on `path`. */
  predicate NoWriterOn(s: State, path: string) {
    forall t :: t in s.threads && s.threads[t].req.path == path ==>
      !WritePc(s.threads[t].pc) && !RemovePc(s.threads[t].pc)
  }

  /**
   Conservation: there are histories that change with the steps as Follows says, and whenever
   no writer is at work on `path`, its versions in stamp order followed by its content are
   the history of that moment.
   */
  lemma HistoryConserved(states: seq<State>, labels: seq<Label>, path: string) returns (hs: seq<seq<Bytes>>)
    requires IsRun(states, labels) && Initial(states[0])
    requires UserPath(path) && Conserving(states, labels, path)
    ensures Histories(hs, states, labels, path)
    ensures forall i :: 0 <= i <= |labels| && NoWriterOn(states[i], path) ==>
              Timeline(states[i].sh.files, path) == hs[i]
  {
    hide Next, Enabled, UserPath, Conserving, Timeline, Phase, ChangeOf, Initial, Follows;
    hs := RunKeepsHistory(states, labels, path, |labels|);
    forall i | 0 <= i <= |labels| && NoWriterOn(states[i], path)
      ensures Timeline(states[i].sh.files, path) == hs[i]
    {
      assert HistoryRel(states[i], hs[i], path);
      assert Idle(states[i].threads, path);
    }
  }

  /** The history by the steps alone, when no RM of the path reports an error. */
  ghost function HistoryAt(states: seq<State>, labels: seq<Label>, path: string, i: nat): seq<Bytes>
    requires IsRun(states, labels) && i <= |labels|
  {
    if i == 0 then Timeline(states[0].sh.files, path)
    else
      var h := HistoryAt(states, labels, path, i - 1);
      match ChangeOf(states[i - 1], labels[i - 1], path)
      case Kept => h
      case Added(body) => h + [body]
      case Cleared => []
      case Cut => []
  }

  lemma {:induction false} HistoriesAreUnique(hs: seq<seq<Bytes>>, states: seq<State>, labels: seq<Label>,
                                              path: string, i: nat)
    requires IsRun(states, labels) && i <= |labels| && Histories(hs, states, labels, path)
    requires forall j :: 0 <= j < i ==> !ChangeOf(states[j], labels[j], path).Cut?
    ensures hs[i] == HistoryAt(states, labels, path, i)
  {
    hide Next, Enabled, ChangeOf, Timeline;
    if i > 0 {
      HistoriesAreUnique(hs, states, labels, path, i - 1);
      assert Follows(hs[i - 1], hs[i], ChangeOf(states[i - 1], labels[i - 1], path));
    }
  }

  /** Without an RM of `path` that reports an error, the disk holds exactly what the steps say. */
  lemma HistoryExact(states: seq<State>, labels: seq<Label>, path: string, i: nat)
    requires IsRun(states, labels) && i <= |labels| && Initial(states[0])
    requires UserPath(path) && Conserving(states, labels, path) && NoWriterOn(states[i], path)
    requires forall j :: 0 <= j < i ==> !ChangeOf(states[j], labels[j], path).Cut?
    ensures Timeline(states[i].sh.files, path) == HistoryAt(states, labels, path, i)
  {
    hide Next, Enabled, UserPath, Conserving, Timeline, ChangeOf, Initial, Histories;
    var hs := HistoryConserved(states, labels, path);
    HistoriesAreUnique(hs, states, labels, path, i);
  }

  /** The bodies of the WRITEs of `path` that took effect in the first `i` steps, in order. */
  function BodiesWritten(states: seq<State>, labels: seq<Label>, path: string, i: nat): seq<Bytes>
    requires i <= |labels| && i <= |states|
  {
    if i == 0 then []
    else
      var before := BodiesWritten(states, labels, path, i - 1);
      var s, l := states[i - 1], labels[i - 1];
      if l.Run? && l.t in s.threads && s.threads[l.t].req.path == path
         && s.threads[l.t].pc.WFill? && s.threads[l.t].pc.remaining <= 0
      then before + [s.threads[l.t].body] else before
  }

  /** Without an RM of `path` the history by the steps only grows. */
  lemma {:induction false} NothingCleared(states: seq<State>, labels: seq<Label>, path: string, i: nat)
    requires IsRun(states, labels) && i <= |labels|
    requires forall j :: 0 <= j < i && labels[j].Run? && states[j].threads[labels[j].t].req.path == path ==>
               !RemovePc(states[j].threads[labels[j].t].pc)
    ensures forall j :: 0 <= j < i ==> !ChangeOf(states[j], labels[j], path).Cut?
    ensures HistoryAt(states, labels, path, i)
         == Timeline(states[0].sh.files, path) + BodiesWritten(states, labels, path, i)
  {
    hide Next, CanStep, Timeline, Directory, Placeable;
    if i > 0 {
      NothingCleared(states, labels, path, i - 1);
    }
  }

  /**
   With no RM of `path` itself nothing is ever lost: what is on the disk is what was there at
   the start and every body written since, in the order in which the WRITEs took effect.
   */
  lemma HistoryAccumulates(states: seq<State>, labels: seq<Label>, path: string, i: nat)
    requires IsRun(states, labels) && i <= |labels| && Initial(states[0])
    requires UserPath(path) && Conserving(states, labels, path) && NoWriterOn(states[i], path)
    requires forall j :: 0 <= j < i && labels[j].Run? && states[j].threads[labels[j].t].req.path == path ==>
               !RemovePc(states[j].threads[labels[j].t].pc)
    ensures Timeline(states[i].sh.files, path)
         == Timeline(states[0].sh.files, path) + BodiesWritten(states, labels, path, i)
  {
    hide Next, CanStep, UserPath, Conserving, Timeline, ChangeOf, Initial, Placeable, NoWriterOn, BodiesWritten,
         HistoryAt;
    NothingCleared(states, labels, path, i);
    HistoryExact(states, labels, path, i);
  }

  // ---------------------------------------------------------------- when the conditions fail

  ghost function VersionCount(files: Files, path: string): nat {
    |Saved(files, path, Stamps(files, path))|
  }

  lemma CountIsStamps(files: Files, path: string)
    ensures VersionCount(files, path) == |Stamps(files, path)|
  {
    SavedCount(files, path, Stamps(files, path));
  }

  /** A save keeps one version more exactly when its stamp is unused: on a used stamp it destroys the version there. */
  lemma SaveKeepsCount(sh: Shared, th: Thread, c: Choice)
    requires th.pc.WOpenNew?
    ensures var files', v := WriteStep(sh, th, c).0.files, Version(th.req.path, th.pc.at);
      && (VersionCount(files', th.req.path) == VersionCount(sh.files, th.req.path) + 1 <==> v !in sh.files)
      && v in files' && files'[v] == []
  {
    hide Directory, VersionCount, Stamps;
    var path, at := th.req.path, th.pc.at;
    var stamps := Stamps(sh.files, path);
    CountIsStamps(sh.files, path);
    CountIsStamps(sh.files[Version(path, at) := []], path);
    InStamps(sh.files, path, at);
    StampsInsert(sh.files, path, at, []);
    if at in stamps {
      assert stamps + {at} == stamps;
    }
  }

  lemma StampsRemove(files: Files, path: string, at: nat)
    ensures Stamps(files - {Version(path, at)}, path) == Stamps(files, path) - {at}
  {
    var files' := files - {Version(path, at)};
    forall x: nat
      ensures x in Stamps(files', path) <==> x in Stamps(files, path) - {at}
    {
      InStamps(files', path, x);
      InStamps(files, path, x);
    }
  }

  /** The last step of an RM on an entry of another path takes one version from that path's history. */
  lemma ForeignRemovalLoses(sh: Shared, th: Thread, c: Choice)
    requires th.pc.RDelete? && th.pc.entry.Version? && th.pc.entry in sh.files
    ensures VersionCount(RemoveStep(sh, th, c).0.files, th.pc.entry.path)
         == VersionCount(sh.files, th.pc.entry.path) - 1
  {
    hide NameMatches, InFolder, Directory, VersionCount, Stamps;
    var path, at := th.pc.entry.path, th.pc.entry.at;
    CountIsStamps(sh.files, path);
    CountIsStamps(sh.files - {Version(path, at)}, path);
    InStamps(sh.files, path, at);
    StampsRemove(sh.files, path, at);
  }

  /** Siblings that do reach each other: a proper prefix, and a name that continues with a stamp's digits. */
  lemma SiblingsReach()
    ensures Reaches("a", "ab") && Reaches("ab.17", "ab") && Reaches("ab.17_0", "ab")
    ensures !Reaches("abc", "ab") && !Reaches("ab.x", "ab") && !Reaches("ab.01", "ab")
  {
    assert "ab.17"[|"ab"| + 1..] == "17" && "ab.17_0"[|"ab"| + 1..] == "17_0";
    assert "ab.x"[|"ab"| + 1..] == "x" && "ab.01"[|"ab"| + 1..] == "01";
    assert "abc"[2] != ("ab" + ".")[2] && !IsDigit("x"[0]);
    LastIndexIs("17_0", 2, '_');
    assert "17_0"[..2] == "17" && "17_0"[3..] == "0";
  }
}
