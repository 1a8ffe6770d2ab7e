/**
 Files and directories under their path strings: in every reachable state different keys are
 different strings, no file is a directory, and whatever a WRITE opens can be opened.
 */
module Naming {
  import opened Wrappers
  import opened Text
  import opened Protocol
  import opened Paths
  import opened Directories
  import opened Server
  import opened Locking
  import opened Refinement
  import opened Removal
  import LockList
  import Parsing

  // ---------------------------------------------------------------- user paths

  /** The directory part of a user path is relative and held under its own name. */
  lemma UserPathParts(path: string)
    requires UserPath(path)
    ensures var dir := Directory(path);
      && Relative(dir) && dir != "" && Resolve(dir) == dir && Under(dir, path)
      && Tokens(path, '/') == Tokens(dir, '/') + [Basename(path)]
  {
    hide Tokens;
    var dir, base := Directory(path), Basename(path);
    var ts := Tokens(dir, '/');
    PathRebuilds(path);
    assert path == dir + ['/'] + base;
    TokensSnoc(dir, base, '/');
    if ts == [] {
      assert false;
    }
    JoinSnoc(ts, base, '/');
    CutAtLast(dir, base, Join(ts, '/'), base, '/');
    FirstPart(ts);
    assert "" + Join(ts, '/') == dir;
  }

  /** Which names joined by slashes are user paths: two or more, none of them special, within the length. */
  lemma JoinedIsUserPath(names: seq<string>)
    requires forall i :: 0 <= i < |names| ==> names[i] != "" && '/' !in names[i]
    ensures UserPath(Join(names, '/'))
       <==> |names| >= 2 && |Join(names, '/')| <= LONGEST_PATH
            && "." !in names && ".." !in names && ".versions" !in names
  {
    hide Tokens;
    TokensOfJoin(names, '/');
    if |names| >= 2 {
      var dir, base := names[..|names| - 1], names[|names| - 1];
      assert names == dir + [base];
      JoinSnoc(dir, base, '/');
      PathParts(Join(dir, '/'), base);
      assert Join(names, '/')[|Join(dir, '/')|] == '/';
    }
  }

  lemma OneFolderDown(dir: string, name: string)
    requires dir != "" && name != "" && '/' !in dir && '/' !in name && |dir| + |name| < LONGEST_PATH
    requires dir != "." && dir != ".." && dir != ".versions" && name != "." && name != ".." && name != ".versions"
    ensures UserPath(dir + "/" + name)
    ensures Directory(dir + "/" + name) == dir && Basename(dir + "/" + name) == name
  {
    hide Tokens, UserPath;
    var names := [dir, name];
    assert names[1..] == [name];
    assert Join(names, '/') == dir + "/" + name;
    JoinedIsUserPath(names);
    PathParts(dir, name);
  }

  lemma {:induction false} AncestorUnder(dir: string, i: nat, path: string)
    requires 1 <= i <= |Tokens(dir, '/')| && Relative(dir) && Resolve(dir) == dir && Under(dir, path)
    ensures Under(Ancestor(dir, i), path)
    decreases |Tokens(dir, '/')| - i
  {
    hide Tokens, Ancestor, Resolve;
    if i == |Tokens(dir, '/')| {
      WholeAncestor(dir);
    } else {
      AncestorUnder(dir, i + 1, path);
      AncestorNext(dir, i);
      UnderTransitive(Ancestor(dir, i), Tokens(dir, '/')[i], path);
    }
  }

  lemma UnderTransitive(p: string, name: string, path: string)
    requires Under(p + "/" + name, path)
    ensures Under(p, path)
  {
    assert (p + "/" + name + "/")[..|p| + 1] == p + "/";
  }

  lemma AncestorTokens(dir: string, i: nat)
    requires i <= |Tokens(dir, '/')|
    ensures Tokens(Ancestor(dir, i), '/') == Tokens(dir, '/')[..i]
  {
    TokensOfJoin(Tokens(dir, '/')[..i], '/');
  }

  /** What `createNestedDirectories` makes for a user path is on the way to it. */
  lemma AncestorsOfUser(path: string, d: string)
    requires UserPath(path) && d in Ancestors(Directory(path))
    ensures Under(d, path) && ".versions" !in Tokens(d, '/')
  {
    hide Ancestor, Tokens, Resolve;
    UserPathParts(path);
    var dir := Directory(path);
    var i: nat :| 1 <= i <= |Tokens(dir, '/')| && d == Ancestor(dir, i);
    AncestorUnder(dir, i, path);
    AncestorTokens(dir, i);
    forall j | 0 <= j < |Tokens(dir, '/')[..i]|
      ensures Tokens(dir, '/')[..i][j] != ".versions"
    {
      assert Tokens(dir, '/')[..i][j] == Tokens(path, '/')[j];
    }
  }

  /** After the call the directory of a user path is there, and nothing is missing above it. */
  lemma NestedMakes(dirs: set<string>, path: string)
    requires PrefixClosed(dirs) && UserPath(path)
    ensures var dirs' := AfterNested(dirs, Directory(path)); PrefixClosed(dirs') && Directory(path) in dirs'
  {
    hide Ancestor, Tokens, Resolve, PrefixClosed;
    UserPathParts(path);
    WholeAncestor(Directory(path));
    NestedStaysClosed(dirs, Directory(path));
  }

  /** A user path that is a directory part of another is one of the directories made for it. */
  lemma UnderIsAncestor(p: string, q: string)
    requires UserPath(p) && UserPath(q) && Under(p, q)
    ensures p in Ancestors(Directory(q))
  {
    hide Tokens, Directory, Basename;
    var rest := q[|p| + 1..];
    assert q == p + ['/'] + rest;
    TokensConcat(p, rest, '/');
    UserPathParts(q);
    LastPart(q, p, rest);
    OnlyNormalised(p);
    var n, all, ts := |Tokens(p, '/')|, Tokens(q, '/'), Tokens(Directory(q), '/');
    assert ts[..n] == all[..n] == Tokens(p, '/');
    assert Ancestor(Directory(q), n) == p;
  }

  lemma LastPart(q: string, p: string, rest: string)
    requires q == p + ['/'] + rest && UserPath(q)
    ensures Tokens(rest, '/') != []
  {
    TokensEmpty(rest);
    if Tokens(rest, '/') == [] {
      EndsInSlash(q, p, rest);
    }
  }

  lemma {:induction false} TokensEmpty(rest: string)
    ensures Tokens(rest, '/') == [] ==> forall i :: 0 <= i < |rest| ==> rest[i] == '/'
  {
    if rest != "" && rest[0] == '/' {
      TokensEmpty(rest[1..]);
    }
  }

  lemma EndsInSlash(q: string, p: string, rest: string)
    requires q == p + ['/'] + rest && forall i :: 0 <= i < |rest| ==> rest[i] == '/'
    ensures Basename(q) == ""
  {
    assert q[|q| - 1] == '/';
  }

  /** On a disk in order no file is a directory part of another file's path. */
  lemma FilesAreApart(sh: Shared, p: string, q: string)
    requires DiskOk(sh) && User(p) in sh.files && User(q) in sh.files
    ensures !Under(p, q) && RoomFor(sh, p)
  {
    hide UserPath, Tokens, Ancestor, Resolve, PrefixClosed, Directory;
    NotUnder(sh, p, q);
    forall k | k in sh.files && k.User?
      ensures !Under(k.path, p)
    {
      NotUnder(sh, k.path, p);
    }
  }

  lemma NotUnder(sh: Shared, p: string, q: string)
    requires DiskOk(sh) && User(p) in sh.files && User(q) in sh.files
    ensures !Under(p, q)
  {
    hide UserPath, Tokens, Ancestor, PrefixClosed, Directory, Under, Resolve;
    if Under(p, q) {
      UnderIsAncestor(p, q);
      UserPathParts(q);
      OpenedIsWhole(sh.dirs, Directory(q));
      assert false;
    }
  }

  // ---------------------------------------------------------------- why one spelling

  /** Two names have one lock exactly when they are spelt alike, whatever the list holds already. */
  lemma LocksBySpelling(names: seq<string>, p: string, q: string)
    requires LockList.Distinct(names) && "" !in names && p != "" && q != ""
    ensures var after := LockList.Registered(LockList.Registered(names, p), q);
      LockList.IndexOf(after, p) == LockList.IndexOf(after, q) <==> p == q
  {
    var first := LockList.Registered(names, p);
    LockList.RegisteredKeeps(names, p, p);
    LockList.RegisteredKeeps(first, p, q);
    assert first[|first| - 1] == p || p in names;
  }

  /** So a doubled slash gives one file a second lock. */
  lemma DoubledSlash(dir: string, rest: string, names: seq<string>)
    requires dir != "" && rest != "" && LockList.Distinct(names) && "" !in names
    ensures var p, q := dir + "/" + rest, dir + "//" + rest;
      var after := LockList.Registered(LockList.Registered(names, p), q);
      Resolve(p) == Resolve(q) && LockList.IndexOf(after, p) != LockList.IndexOf(after, q)
  {
    hide Tokens;
    var p, q := dir + "/" + rest, dir + "//" + rest;
    TokensConcat(dir, rest, '/');
    TokensConcat(dir, "/" + rest, '/');
    SlashFirst(rest);
    assert p == dir + ['/'] + rest && q == dir + ['/'] + ("/" + rest);
    assert |p| != |q|;
    LocksBySpelling(names, p, q);
  }

  lemma SlashFirst(rest: string)
    ensures Tokens("/" + rest, '/') == Tokens(rest, '/')
  {
    assert ("/" + rest)[1..] == rest;
  }

  /** While user paths are one file exactly when they are one spelling. */
  lemma OneSpelling(p: string, q: string)
    requires UserPath(p) && UserPath(q)
    ensures Resolve(p) == Resolve(q) <==> p == q
  {
    hide Tokens, Join;
    WholeName(p);
    WholeName(q);
  }

  lemma WholeName(path: string)
    requires UserPath(path)
    ensures Resolve(path) == path
  {
    hide Tokens, UserPath;
    UserPathParts(path);
    PathRebuilds(path);
    OnlyNormalised(path);
    assert "" + Join(Tokens(path, '/'), '/') == path;
  }

  lemma OnlyNormalised(path: string)
    requires UserPath(path)
    ensures Join(Tokens(path, '/'), '/') == path && |Tokens(path, '/')| >= 2
  {
    hide Tokens;
    UserPathParts(path);
    assert |Tokens(path, '/')| == |Tokens(Directory(path), '/')| + 1;
    if |Tokens(path, '/')| == 1 {
      PathRebuilds(path);
    }
  }

  // ---------------------------------------------------------------- the clients

  lemma LongDecimal(n: nat)
    requires n <= LONG_MAX
    ensures |Decimal(n)| <= 19
  {
    hide Decimal;
    Million();
    assert Pow10(7) == 10 * Pow10(6) && Pow10(8) == 10 * Pow10(7) && Pow10(9) == 10 * Pow10(8);
    assert Pow10(10) == 10 * Pow10(9) && Pow10(11) == 10 * Pow10(10) && Pow10(12) == 10 * Pow10(11);
    assert Pow10(13) == 10 * Pow10(12) && Pow10(14) == 10 * Pow10(13) && Pow10(15) == 10 * Pow10(14);
    assert Pow10(16) == 10 * Pow10(15) && Pow10(17) == 10 * Pow10(16) && Pow10(18) == 10 * Pow10(17);
    assert Pow10(19) == 10 * Pow10(18);
    DecimalLength(n, 19);
  }

  lemma PrintedIsShort(r: Request)
    requires ValidRequest(r) && r.dataLen <= LONG_MAX && Parsing.NUL !in r.path
    ensures |PrintRequest(r)| <= 26 + |r.path| && Parsing.NUL !in PrintRequest(r)
  {
    hide Decimal;
    LongDecimal(r.dataLen);
    DecimalHasOnlyDigits(r.dataLen, Parsing.NUL);
  }

  /** A printed request for a user path without a comma is one the server model admits. */
  lemma PrintedIsGood(r: Request, body: Bytes)
    requires ValidRequest(r) && r.dataLen <= LONG_MAX && UserPath(r.path)
    requires ',' !in r.path && Parsing.NUL !in r.path && (r.command == WRITE ==> |body| == r.dataLen)
    ensures GoodClient(PrintRequest(r), body) && ParseRequest(PrintRequest(r)) == Some(r)
  {
    hide ParseRequest, PrintRequest, Tokens, Join;
    PrintedIsShort(r);
    RequestRoundTrip(r);
  }

  // ---------------------------------------------------------------- the invariant

  predicate PastMkdirs(pc: PC) { WritePc(pc) && !pc.WMkdirs? }

  /** An unfinished request has room for its path, and a WRITE its directory once it is made. */
  predicate ThreadPlaced(sh: Shared, th: Thread) {
    && (!Finished(th) && PathIn(th.header).Some? ==> RoomFor(sh, PathIn(th.header).value))
    && (PastMkdirs(th.pc) ==> Directory(th.req.path) in sh.dirs)
  }

  predicate PairApart(a: Thread, b: Thread) {
    !Finished(a) && !Finished(b) && PathIn(a.header).Some? && PathIn(b.header).Some? ==>
      Apart(PathIn(a.header).value, PathIn(b.header).value)
  }

  ghost predicate NamesOk(s: State) {
    && DiskOk(s.sh)
    && (forall t :: t in s.threads ==> ThreadPlaced(s.sh, s.threads[t]))
    && (forall t, u :: t in s.threads && u in s.threads ==> PairApart(s.threads[t], s.threads[u]))
  }

  lemma ApartFromItself(path: string)
    ensures Apart(path, path)
  {
  }

  // ---------------------------------------------------------------- one step

  /** What a step may do to the names on the disk. */
  ghost predicate NamesMove(sh: Shared, sh': Shared, th: Thread) {
    && sh'.dirs == (if th.pc.WMkdirs? then AfterNested(sh.dirs, Directory(th.req.path)) else sh.dirs)
    && sh'.folders == (if th.pc.WMkFolder? then sh.folders + {Directory(th.req.path)} else sh.folders)
    && forall k :: k in sh'.files && k !in sh.files ==>
         (k == User(th.req.path) && (th.pc.WTruncate? || th.pc.WFill?))
         || (k.Version? && k.path == th.req.path && th.pc.WOpenNew?)
  }

  lemma StepNames(sh: Shared, t: Tid, th: Thread, c: Choice)
    requires CanStep(sh, th, c)
    ensures NamesMove(sh, Step(sh, t, th, c).0, th)
  {
    hide ParseRequest, InFolder, NameMatches, Directory, AfterNested, Transfer.ChunkAt;
  }

  /** The disk stays in order. */
  lemma DiskStays(sh: Shared, sh': Shared, th: Thread)
    requires DiskOk(sh) && NamesMove(sh, sh', th) && ThreadPlaced(sh, th) && FolderReady(sh, th)
    requires WritePc(th.pc) ==> UserPath(th.req.path) && RoomFor(sh, th.req.path)
    ensures DiskOk(sh')
  {
    hide UserPath, AfterNested, Directory, Tokens, PrefixClosed, PathIn;
    if th.pc.WMkdirs? {
      DirsStay(sh, sh', th.req.path);
    }
  }

  lemma DirsStay(sh: Shared, sh': Shared, path: string)
    requires DiskOk(sh) && UserPath(path) && RoomFor(sh, path)
    requires sh'.dirs == AfterNested(sh.dirs, Directory(path)) && sh'.folders == sh.folders
    requires sh'.files.Keys <= sh.files.Keys
    ensures DiskOk(sh')
  {
    hide UserPath, Directory, Tokens, PrefixClosed, Opens, Ancestors, Under;
    NestedMakes(sh.dirs, path);
    forall d | d in sh'.dirs && d !in sh.dirs
      ensures Under(d, path) && ".versions" !in Tokens(d, '/')
    {
      AncestorsOfUser(path, d);
    }
  }

  /** And another unfinished request keeps its room. */
  lemma RoomStays(sh: Shared, sh': Shared, th: Thread, q: string)
    requires NamesMove(sh, sh', th) && RoomFor(sh, q)
    requires WritePc(th.pc) ==> UserPath(th.req.path) && Apart(q, th.req.path)
    ensures RoomFor(sh', q)
  {
    hide UserPath, Directory, Opens, Ancestors, Under;
    if th.pc.WMkdirs? && q in Ancestors(Directory(th.req.path)) {
      AncestorsOfUser(th.req.path, q);
    }
  }

  /** A thread enters the part of a WRITE after the directories only through making them. */
  lemma NotPastMkdirs(sh: Shared, t: Tid, th: Thread, c: Choice)
    requires CanStep(sh, th, c) && !WritePc(th.pc)
    ensures !PastMkdirs(Step(sh, t, th, c).1.pc)
  {
    hide ParseRequest, GetStep, RemoveStep, WriteStep;
    if GetPc(th.pc) {
      GetFrame(sh.files, th, c);
    } else if RemovePc(th.pc) {
      RemoveFrame(sh, th, c);
    }
  }

  lemma OwnPlaced(sh: Shared, t: Tid, th: Thread, c: Choice)
    requires CanStep(sh, th, c) && DiskOk(sh) && ThreadPlaced(sh, th)
    requires WritePc(th.pc) ==> UserPath(th.req.path)
    ensures var (sh', th') := Step(sh, t, th, c);
      PastMkdirs(th'.pc) ==> Directory(th'.req.path) in sh'.dirs
  {
    hide Directory, WriteStep, GetStep, RemoveStep, UserPath, AfterNested, RoomFor, PathIn;
    StepNames(sh, t, th, c);
    if !WritePc(th.pc) {
      NotPastMkdirs(sh, t, th, c);
    } else {
      WriteFrame(sh, th, c);
      if th.pc.WMkdirs? {
        NestedMakes(sh.dirs, th.req.path);
      }
    }
  }

  lemma WriterPath(th: Thread)
    requires RequestOk(th) && !th.pc.Start? && !Finished(th)
    ensures PathIn(th.header) == Some(th.req.path) && UserPath(th.req.path)
  {
    hide ParseRequest, UserPath;
  }

  lemma DirsGrow(sh: Shared, sh': Shared, th: Thread)
    requires NamesMove(sh, sh', th)
    ensures sh.dirs <= sh'.dirs
  {
    hide Opens, Ancestors, Directory;
  }

  lemma StillPlaced(s: State, t: Tid, c: Choice, u: Tid)
    requires LockInv(s) && NamesOk(s) && Enabled(s, Run(t, c)) && u in s.threads
    ensures ThreadPlaced(Next(s, Run(t, c)).sh, Next(s, Run(t, c)).threads[u])
  {
    hide Step, CanStep, Accepted, GoodClient, UserPath, LockOk, NamesMove, DiskOk,
         RoomFor, PathIn, Apart, Directory, PastMkdirs, WritePc;
    var th, other := s.threads[t], s.threads[u];
    var sh, th' := Next(s, Run(t, c)).sh, Next(s, Run(t, c)).threads[t];
    assert RequestOk(th) && ThreadPlaced(s.sh, th) && ThreadPlaced(s.sh, other);
    StepNames(s.sh, t, th, c);
    StepShape(s.sh, t, th, c);
    StepperUnfinished(s.sh, th, c);
    DirsGrow(s.sh, sh, th);
    if !Finished(other) && PathIn(other.header).Some? {
      if WritePc(th.pc) {
        WriterPath(th);
        assert PairApart(other, th);
      }
      RoomStays(s.sh, sh, th, PathIn(other.header).value);
    }
    if u == t {
      if WritePc(th.pc) || th.pc.WantLock? {
        WriterPath(th);
      }
      OwnPlaced(s.sh, t, th, c);
    }
  }

  lemma StepperUnfinished(sh: Shared, th: Thread, c: Choice)
    requires CanStep(sh, th, c)
    ensures !Finished(th) && (WritePc(th.pc) ==> !th.pc.Start?)
  {
  }

  lemma PairsStay(s: State, t: Tid, th: Thread)
    requires NamesOk(s) && t in s.threads && !Finished(s.threads[t]) && th.header == s.threads[t].header
    ensures var threads' := s.threads[t := th];
      forall u, v :: u in threads' && v in threads' ==> PairApart(threads'[u], threads'[v])
  {
    hide DiskOk, ThreadPlaced, PathIn, Apart;
    var threads' := s.threads[t := th];
    forall u, v | u in threads' && v in threads'
      ensures PairApart(threads'[u], threads'[v])
    {
      assert PairApart(s.threads[u], s.threads[v]);
    }
  }

  lemma RunKeepsNames(s: State, t: Tid, c: Choice)
    requires LockInv(s) && RemovalInv(s) && NamesOk(s) && Enabled(s, Run(t, c))
    ensures NamesOk(Next(s, Run(t, c)))
  {
    hide Step, CanStep, Accepted, GoodClient, UserPath, LockOk, FoldersOk, RemovalOk, NamesMove, DiskOk,
         RoomFor, PathIn, PairApart, ThreadPlaced, WritePc;
    var th, s' := s.threads[t], Next(s, Run(t, c));
    assert RequestOk(th) && ThreadPlaced(s.sh, th) && FolderReady(s.sh, th);
    StepNames(s.sh, t, th, c);
    StepShape(s.sh, t, th, c);
    StepperUnfinished(s.sh, th, c);
    if WritePc(th.pc) {
      WriterPath(th);
      PlacedHere(s.sh, th);
    }
    DiskStays(s.sh, s'.sh, th);
    forall u | u in s'.threads
      ensures ThreadPlaced(s'.sh, s'.threads[u])
    {
      StillPlaced(s, t, c, u);
    }
    PairsStay(s, t, s'.threads[t]);
  }

  lemma PlacedHere(sh: Shared, th: Thread)
    requires ThreadPlaced(sh, th) && !Finished(th) && PathIn(th.header) == Some(th.req.path)
    ensures RoomFor(sh, th.req.path)
  {
  }

  lemma SpawnKeepsNames(s: State, l: Label)
    requires NamesOk(s) && Enabled(s, l) && l.Spawn?
    ensures NamesOk(Next(s, l))
  {
    hide DiskOk, PathIn, RoomFor, GoodClient;
    var s' := Next(s, l);
    forall u, v | u in s'.threads && v in s'.threads
      ensures PairApart(s'.threads[u], s'.threads[v])
    {
      if u in s.threads && v in s.threads {
        assert PairApart(s.threads[u], s.threads[v]);
      } else if PathIn(l.header).Some? {
        ApartFromItself(PathIn(l.header).value);
      }
    }
    forall u | u in s'.threads
      ensures ThreadPlaced(s'.sh, s'.threads[u])
    {
      assert u in s.threads ==> ThreadPlaced(s.sh, s.threads[u]);
    }
  }

  lemma TickKeepsNames(s: State, now: nat)
    requires NamesOk(s)
    ensures NamesOk(Next(s, Tick(now)))
  {
    hide UserPath, Directory, Tokens, PrefixClosed, PathIn, Apart;
    var s' := Next(s, Tick(now));
    forall u | u in s'.threads
      ensures ThreadPlaced(s'.sh, s'.threads[u])
    {
      assert ThreadPlaced(s.sh, s.threads[u]);
    }
  }

  lemma StepKeepsNames(s: State, l: Label)
    requires LockInv(s) && RemovalInv(s) && NamesOk(s) && Enabled(s, l)
    ensures NamesOk(Next(s, l))
  {
    hide LockInv, RemovalInv, NamesOk, Next, Enabled;
    match l
    case Run(t, c) => RunKeepsNames(s, t, c);
    case Spawn(_, _, _) => SpawnKeepsNames(s, l);
    case Tick(now) => TickKeepsNames(s, now);
  }

  lemma {:induction false} RunNames(states: seq<State>, labels: seq<Label>, i: nat)
    requires IsRun(states, labels) && i <= |labels| && Initial(states[0])
    ensures NamesOk(states[i])
  {
    hide LockInv, RemovalInv, DiskOk, Next, Enabled;
    if i > 0 {
      RunNames(states, labels, i - 1);
      RunKeepsRemoval(states, labels, i - 1);
      StepKeepsNames(states[i - 1], labels[i - 1]);
    }
  }

  // ---------------------------------------------------------------- what it gives

  /**
   Keys are names: in every reachable state two files with the same path string are the same
   key, and no file's path is a directory, so the map from keys is the map from path strings.
   */
  lemma FilesAreNamed(states: seq<State>, labels: seq<Label>, i: nat, j: Key, k: Key)
    requires IsRun(states, labels) && i <= |labels| && Initial(states[0])
    requires j in states[i].sh.files && k in states[i].sh.files
    ensures KeyPath(j) == KeyPath(k) ==> j == k
    ensures KeyPath(j) !in states[i].sh.dirs
  {
    hide UserPath, Next, Enabled, Tokens, VersionPath, Initial;
    RunNames(states, labels, i);
    if KeyPath(j) == KeyPath(k) {
      KeyPathInjective(j, k);
    }
    if j.Version? {
      VersionIsMarked(j.path, j.at);
    }
  }

  ghost predicate Named(files: Files) {
    forall j, k :: j in files && k in files && KeyPath(j) == KeyPath(k) ==> j == k
  }

  /** The disk as the operating system sees it: bytes under path strings. */
  ghost function DiskOf(files: Files): map<string, Bytes>
    requires Named(files)
  {
    map k | k in files :: KeyPath(k) := files[k]
  }

  lemma OnDisk(files: Files, path: string)
    requires Named(files) && UserPath(path) && forall k :: k in files ==> UserPath(k.path)
    ensures Lookup(DiskOf(files), path) == FileAt(files, User(path))
  {
    hide UserPath, VersionPath;
    if User(path) in files {
      assert KeyPath(User(path)) == path;
    } else if path in DiskOf(files) {
      var k :| k in files && KeyPath(k) == path;
      KeyPathInjective(k, User(path));
      assert false;
    }
  }

  /** The refinement on path strings: what the disk holds under a user path is what the atomic store holds. */
  lemma DiskRefinesStore(states: seq<State>, labels: seq<Label>, i: nat, path: string)
    requires IsRun(states, labels) && i <= |labels| && Initial(states[0])
    requires UserPath(path) && Settled(states[i].threads, path)
    ensures Named(states[i].sh.files)
    ensures Lookup(DiskOf(states[i].sh.files), path) == Lookup(SpecAt(states, labels, i).store, path)
  {
    hide UserPath, Next, Enabled, Tokens, VersionPath, Initial, LockInv, ThreadRel;
    var files := states[i].sh.files;
    forall j, k | j in files && k in files && KeyPath(j) == KeyPath(k)
      ensures j == k
    {
      FilesAreNamed(states, labels, i, j, k);
    }
    RunNames(states, labels, i);
    OnDisk(files, path);
    RunRefinesStore(states, labels, i);
  }

  /** A version name is at most 28 characters longer than the path, up to ten-digit seconds. */
  lemma VersionFits(path: string, at: nat)
    requires UserPath(path) && |Decimal(at / MICROS)| <= 10
    ensures |VersionPath(path, at)| + 1 <= MAX_PATH_LEN
  {
    hide Tokens, Pow10, Decimal;
    PathRebuilds(path);
    Million();
    DecimalLength(at % MICROS, 6);
  }

  /**
   The opens of a WRITE succeed: its file and its version are in existing folders, are not
   directories, are under no file, and the version's path fits its buffer.
   */
  lemma OpensSucceed(states: seq<State>, labels: seq<Label>, i: nat, t: Tid)
    requires IsRun(states, labels) && i <= |labels| && Initial(states[0]) && t in states[i].threads
    ensures var sh, th := states[i].sh, states[i].threads[t];
      && (th.pc.WTruncate? ==> Directory(th.req.path) in sh.dirs && RoomFor(sh, th.req.path))
      && (th.pc.WOpenNew? ==>
            && Directory(th.req.path) in sh.folders
            && VersionPath(th.req.path, th.pc.at) !in sh.dirs
            && (|Decimal(th.pc.at / MICROS)| <= 10 ==> |VersionPath(th.req.path, th.pc.at)| + 1 <= MAX_PATH_LEN))
  {
    hide Next, Enabled, UserPath, Initial, LockOk, PathIn, RoomFor, Tokens, Directory, VersionPath, Decimal;
    RunNames(states, labels, i);
    RunKeepsRemoval(states, labels, i);
    var th := states[i].threads[t];
    if WritePc(th.pc) {
      assert RequestOk(th) && ThreadPlaced(states[i].sh, th) && FolderReady(states[i].sh, th);
      WriterPath(th);
      PlacedHere(states[i].sh, th);
      assert DiskOk(states[i].sh);
      if th.pc.WOpenNew? {
        VersionIsMarked(th.req.path, th.pc.at);
        if |Decimal(th.pc.at / MICROS)| <= 10 {
          VersionFits(th.req.path, th.pc.at);
        }
      }
    }
  }
}
