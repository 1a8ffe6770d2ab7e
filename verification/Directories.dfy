/**
 `createNestedDirectories`: one call, and any number of calls at once, each a
 sequence of `mkdir`s that may find the directory already there.
 */
module Directories {
  import opened Wrappers
  import opened Text
  import opened Parsing
  import opened Paths

  /** `mkdir` makes a directory in an existing parent; a name without a slash is in the working directory. */
  datatype MkdirResult = Made | Exists | NoParent

  predicate ParentPresent(dirs: set<string>, d: string) {
    '/' in d ==> Directory(d) in dirs
  }

  predicate Relative(d: string) { d == "" || d[0] != '/' }

  /** The name a directory is held under: repeated and final slashes do not count. */
  function Resolve(d: string): string {
    (if Relative(d) then "" else "/") + Join(Tokens(d, '/'), '/')
  }

  /** `opendir`, which finds nothing under the empty name. */
  predicate Opens(dirs: set<string>, d: string) { d != "" && Resolve(d) in dirs }

  function Mkdir(dirs: set<string>, d: string): MkdirResult {
    if d in dirs then Exists else if ParentPresent(dirs, d) then Made else NoParent
  }

  function AfterMkdir(dirs: set<string>, d: string): set<string> {
    if Mkdir(dirs, d) == Made then dirs + {d} else dirs
  }

  /** A new directory appears only in a parent that is there, and then it does. */
  lemma MkdirKeepsClosed(dirs: set<string>, d: string)
    requires PrefixClosed(dirs) && Relative(d)
    ensures PrefixClosed(AfterMkdir(dirs, d)) && AfterMkdir(dirs, d) <= dirs + {d}
    ensures d in AfterMkdir(dirs, d) <==> d in dirs || '/' !in d || Directory(d) in dirs
  {
    hide Directory;
    forall e | e in AfterMkdir(dirs, d) && Relative(e)
      ensures ParentPresent(AfterMkdir(dirs, d), e)
    {
      assert e in dirs ==> ParentPresent(dirs, e);
    }
  }

  /** The directories on the way to `dir`, outermost first. */
  function Ancestor(dir: string, i: nat): string
    requires i <= |Tokens(dir, '/')|
  {
    Join(Tokens(dir, '/')[..i], '/')
  }

  function FirstAncestors(dir: string, n: nat): set<string>
    requires n <= |Tokens(dir, '/')|
  {
    set i: nat | 1 <= i <= n :: Ancestor(dir, i)
  }

  function Ancestors(dir: string): set<string> {
    FirstAncestors(dir, |Tokens(dir, '/')|)
  }

  lemma FirstAncestorsNext(dir: string, n: nat)
    requires n < |Tokens(dir, '/')|
    ensures FirstAncestors(dir, n + 1) == FirstAncestors(dir, n) + {Ancestor(dir, n + 1)}
  {
    hide Ancestor;
  }

  /** `strcpy` for the first token, `strcat` of a slash and the token after that. */
  function Extend(curr: string, token: string): string {
    if curr == "" then token else curr + "/" + token
  }

  lemma {:induction false} JoinSnoc(ts: seq<string>, a: string, d: char)
    requires ts != []
    ensures Join(ts + [a], d) == Join(ts, d) + [d] + a
  {
    if |ts| > 1 {
      JoinSnoc(ts[1..], a, d);
      assert (ts + [a])[1..] == ts[1..] + [a];
    }
  }

  lemma AncestorNext(dir: string, i: nat)
    requires i < |Tokens(dir, '/')|
    ensures Ancestor(dir, i + 1) == Extend(Ancestor(dir, i), Tokens(dir, '/')[i])
    ensures Ancestor(dir, i + 1) != ""
    ensures i == 0 <==> '/' !in Ancestor(dir, i + 1)
    ensures i > 0 ==> Directory(Ancestor(dir, i + 1)) == Ancestor(dir, i)
  {
    hide Tokens, Directory;
    JoinNext(Tokens(dir, '/'), i);
  }

  lemma JoinNext(ts: seq<string>, i: nat)
    requires i < |ts| && forall j :: 0 <= j < |ts| ==> ts[j] != "" && '/' !in ts[j]
    ensures var prefix, next := Join(ts[..i], '/'), Join(ts[..i + 1], '/');
      && next == Extend(prefix, ts[i]) && next != ""
      && (i == 0 <==> '/' !in next) && (i > 0 ==> Directory(next) == prefix)
  {
    hide Directory;
    assert ts[..i + 1] == ts[..i] + [ts[i]];
    if i > 0 {
      JoinSnoc(ts[..i], ts[i], '/');
      FirstPart(ts[..i]);
      PathParts(Join(ts[..i], '/'), ts[i]);
      assert Join(ts[..i + 1], '/')[|Join(ts[..i], '/')|] == '/';
    } else {
      assert ts[..0] == [];
    }
  }

  lemma FirstPart(ts: seq<string>)
    requires ts != [] && ts[0] != ""
    ensures Join(ts, '/') != "" && Join(ts, '/')[0] == ts[0][0]
  {
  }

  /** The loop starts from nothing, so even for a name with a leading slash. */
  lemma AncestorIsRelative(dir: string, i: nat)
    requires i <= |Tokens(dir, '/')|
    ensures Relative(Ancestor(dir, i))
  {
    hide Tokens;
    var ts := Tokens(dir, '/');
    if i > 0 {
      assert ts[..i][0] == ts[0];
      FirstPart(ts[..i]);
    } else {
      assert ts[..0] == [];
    }
  }

  lemma WholeAncestor(dir: string)
    requires Relative(dir)
    ensures Resolve(dir) == Ancestor(dir, |Tokens(dir, '/')|)
    ensures dir != "" ==> Tokens(dir, '/') != []
  {
    var ts := Tokens(dir, '/');
    assert ts[..|ts|] == ts && "" + Join(ts, '/') == Join(ts, '/');
  }

  /** The directories after one `createNestedDirectories` for a file in `dir`. */
  function AfterNested(dirs: set<string>, dir: string): set<string> {
    dirs + if Opens(dirs, dir) then {} else Ancestors(dir)
  }

  // ---------------------------------------------------------------- one call

  class Disk {
    var dirs: set<string>

    constructor (dirs: set<string>)
      ensures this.dirs == dirs
    {
      this.dirs := dirs;
    }

    method MakeDirectory(d: string) returns (r: MkdirResult)
      modifies this
      ensures r == Mkdir(old(dirs), d) && dirs == AfterMkdir(old(dirs), d)
    {
      r := Mkdir(dirs, d);
      dirs := AfterMkdir(dirs, d);
    }

    /** One turn of the loop: append the token, make the directory. */
    method MakeNext(curr: string, token: string, ghost dir: string, ghost i: nat) returns (next: string, ok: bool)
      requires i < |Tokens(dir, '/')| && token == Tokens(dir, '/')[i]
      requires curr == Ancestor(dir, i) && (i > 0 ==> curr in dirs)
      modifies this
      ensures ok && next == Ancestor(dir, i + 1)
      ensures next in dirs && dirs == old(dirs) + {next}
    {
      AncestorNext(dir, i);
      hide Ancestor, Tokens;
      next := Extend(curr, token);
      var status := MakeDirectory(next);
      ok := status != NoParent;
    }

    method MakeAncestors(dir: string) returns (ok: bool)
      requires NUL !in dir
      modifies this
      ensures ok && dirs == old(dirs) + Ancestors(dir)
    {
      hide CString, FirstAncestors, Ancestor, Tokens;
      ghost var all := Tokens(dir, '/');
      var splitter := new Tokenizer(dir);
      var curr := "";
      var token := splitter.Next('/');
      ghost var i := 0;
      NoAncestors(dir);
      while token.Some?
        invariant splitter.Valid() && fresh(splitter) && fresh(splitter.buf)
        invariant i <= |all| && curr == Ancestor(dir, i) && (i > 0 ==> curr in dirs)
        invariant all[i..] == if token.None? then [] else [token.value] + Tokens(splitter.Rest(), '/')
        invariant dirs == old(dirs) + FirstAncestors(dir, i)
        decreases |all| - i
      {
        NextToken(all, i, token.value, Tokens(splitter.Rest(), '/'));
        FirstAncestorsNext(dir, i);
        curr, ok := MakeNext(curr, token.value, dir, i);
        if !ok {
          return false;
        }
        token := splitter.Next('/');
        i := i + 1;
      }
      ok := true;
    }

    /** Fails only without a path; otherwise adds exactly the missing ancestors. */
    method CreateNestedDirectories(path: Option<string>) returns (ok: bool)
      requires path.Some? ==> NUL !in path.value
      modifies this
      ensures ok <==> path.Some? && path.value != ""
      ensures dirs == if ok then AfterNested(old(dirs), Directory(path.value)) else old(dirs)
    {
      if path.None? || path.value == "" {
        return false;
      }
      var dir := Directory(path.value);
      if Opens(dirs, dir) {
        return true;
      }
      ok := MakeAncestors(dir);
    }
  }

  lemma NextToken(all: seq<string>, i: nat, token: string, rest: seq<string>)
    requires i <= |all| && all[i..] == [token] + rest
    ensures i < |all| && all[i] == token && all[i + 1..] == rest
  {
    assert all[i] == all[i..][0] && all[i + 1..] == all[i..][1..];
  }

  lemma NoAncestors(dir: string)
    ensures Ancestor(dir, 0) == "" && FirstAncestors(dir, 0) == {}
  {
    assert Tokens(dir, '/')[..0] == [];
  }

  // ---------------------------------------------------------------- many calls at once

  datatype Progress = Opening | Making(i: nat) | Succeeded | Failed

  datatype Caller = Caller(dir: string, at: Progress)

  datatype Calls = Calls(dirs: set<string>, callers: map<nat, Caller>)

  /** A call starts, or an unfinished call takes its next step: the `opendir`, or one `mkdir`. */
  datatype CallLabel = Begin(id: nat, dir: string) | Go(id: nat)

  predicate CanGo(s: Calls, l: CallLabel) {
    match l
    case Begin(id, _) => id !in s.callers
    case Go(id) => id in s.callers && !s.callers[id].at.Succeeded? && !s.callers[id].at.Failed?
                   && (s.callers[id].at.Making? ==> s.callers[id].at.i <= |Tokens(s.callers[id].dir, '/')|)
  }

  function CallStep(dirs: set<string>, c: Caller): (set<string>, Progress)
    requires c.at.Making? ==> c.at.i <= |Tokens(c.dir, '/')|
  {
    match c.at
    case Opening => (dirs, if Opens(dirs, c.dir) then Succeeded else Making(0))
    case Making(i) =>
      if i == |Tokens(c.dir, '/')| then (dirs, Succeeded)
      else
        var d := Ancestor(c.dir, i + 1);
        (AfterMkdir(dirs, d), if Mkdir(dirs, d) == NoParent then Failed else Making(i + 1))
    case _ => (dirs, c.at)
  }

  function Gone(s: Calls, l: CallLabel): Calls
    requires CanGo(s, l)
  {
    match l
    case Begin(id, dir) => s.(callers := s.callers[id := Caller(dir, Opening)])
    case Go(id) =>
      var (dirs, at) := CallStep(s.dirs, s.callers[id]);
      Calls(dirs, s.callers[id := s.callers[id].(at := at)])
  }

  predicate PrefixClosed(dirs: set<string>) {
    forall d :: d in dirs && Relative(d) ==> ParentPresent(dirs, d)
  }

  ghost predicate CallOk(dirs: set<string>, c: Caller) {
    && !c.at.Failed?
    && (c.at.Making? ==>
          && c.at.i <= |Tokens(c.dir, '/')|
          && forall j :: 1 <= j <= c.at.i ==> Ancestor(c.dir, j) in dirs)
    && (c.at.Succeeded? ==>
          || (!Relative(c.dir) && Opens(dirs, c.dir))
          || forall j :: 1 <= j <= |Tokens(c.dir, '/')| ==> Ancestor(c.dir, j) in dirs)
  }

  ghost predicate CallsOk(s: Calls) {
    PrefixClosed(s.dirs) && forall id :: id in s.callers ==> CallOk(s.dirs, s.callers[id])
  }

  /** In a prefix-closed set a directory has all its ancestors. */
  lemma {:induction false} AncestorsPresent(dirs: set<string>, dir: string, i: nat, j: nat)
    requires PrefixClosed(dirs) && 1 <= j <= i <= |Tokens(dir, '/')|
    requires Ancestor(dir, i) in dirs
    ensures Ancestor(dir, j) in dirs
    decreases i
  {
    if j < i {
      AncestorNext(dir, i - 1);
      AncestorIsRelative(dir, i);
      assert ParentPresent(dirs, Ancestor(dir, i));
      AncestorsPresent(dirs, dir, i - 1, j);
    }
  }

  lemma OpenedIsWhole(dirs: set<string>, dir: string)
    requires PrefixClosed(dirs) && Relative(dir) && Opens(dirs, dir)
    ensures forall j :: 1 <= j <= |Tokens(dir, '/')| ==> Ancestor(dir, j) in dirs
  {
    hide Ancestor, Resolve;
    WholeAncestor(dir);
    forall j | 1 <= j <= |Tokens(dir, '/')|
      ensures Ancestor(dir, j) in dirs
    {
      AncestorsPresent(dirs, dir, |Tokens(dir, '/')|, j);
    }
  }

  lemma CallStepOk(dirs: set<string>, c: Caller)
    requires PrefixClosed(dirs) && CallOk(dirs, c)
    ensures var (dirs', at) := CallStep(dirs, c);
      && dirs <= dirs' && PrefixClosed(dirs') && CallOk(dirs', c.(at := at))
      && forall d :: d in dirs' && !Relative(d) ==> d in dirs
  {
    hide Directory, Tokens, Resolve, Ancestor;
    match c.at
    case Opening =>
      if Relative(c.dir) && Opens(dirs, c.dir) {
        OpenedIsWhole(dirs, c.dir);
      }
    case Making(i) =>
      if i < |Tokens(c.dir, '/')| {
        AncestorNext(c.dir, i);
        AncestorIsRelative(c.dir, i + 1);
        var d := Ancestor(c.dir, i + 1);
        assert ParentPresent(dirs, d);
        forall e | e in dirs + {d} && Relative(e)
          ensures ParentPresent(dirs + {d}, e)
        {
          assert ParentPresent(dirs, e);
        }
      }
    case _ =>
  }

  lemma StepKeepsCalls(s: Calls, l: CallLabel)
    requires CallsOk(s) && CanGo(s, l)
    ensures CallsOk(Gone(s, l)) && s.dirs <= Gone(s, l).dirs
    ensures forall d :: d in Gone(s, l).dirs && !Relative(d) ==> d in s.dirs
  {
    hide Ancestor;
    if l.Go? {
      CallStepOk(s.dirs, s.callers[l.id]);
      forall id | id in s.callers && id != l.id
        ensures CallOk(Gone(s, l).dirs, s.callers[id])
      {
        assert CallOk(s.dirs, s.callers[id]);
      }
    }
  }

  ghost predicate IsCallRun(states: seq<Calls>, labels: seq<CallLabel>) {
    && |states| == |labels| + 1
    && forall i :: 0 <= i < |labels| ==> CanGo(states[i], labels[i]) && states[i + 1] == Gone(states[i], labels[i])
  }

  // ---------------------------------------------------------------- what the calls make together

  /** What a call can make: nothing for an absolute name that is there from the start. */
  function Makes(start: set<string>, dir: string): set<string> {
    if !Relative(dir) && Opens(start, dir) then {} else Ancestors(dir)
  }

  /** The absolute names are the initial ones, and every other directory is one that some call makes. */
  ghost predicate Bounded(start: set<string>, s: Calls) {
    && start <= s.dirs
    && (forall d :: d in s.dirs && !Relative(d) ==> d in start)
    && (forall d :: d in s.dirs && d !in start ==>
          exists id :: id in s.callers && d in Makes(start, s.callers[id].dir))
    && (forall id :: id in s.callers && s.callers[id].at.Making? ==>
          Makes(start, s.callers[id].dir) == Ancestors(s.callers[id].dir))
  }

  /** An absolute directory is there for a call exactly when it was there at the start. */
  lemma AbsoluteStays(start: set<string>, dirs: set<string>, dir: string)
    requires start <= dirs && !Relative(dir) && forall d :: d in dirs && !Relative(d) ==> d in start
    ensures Opens(dirs, dir) <==> Opens(start, dir)
  {
  }

  lemma CallStepBounded(start: set<string>, s: Calls, id: nat)
    requires Bounded(start, s) && CallsOk(s) && CanGo(s, Go(id))
    ensures Bounded(start, Gone(s, Go(id)))
  {
    hide Ancestor, Resolve, Relative, Tokens, PrefixClosed, Opens, Mkdir;
    var c, s' := s.callers[id], Gone(s, Go(id));
    assert CallOk(s.dirs, c);
    CallStepOk(s.dirs, c);
    if c.at.Opening? && !Relative(c.dir) {
      AbsoluteStays(start, s.dirs, c.dir);
    }
    forall d | d in s'.dirs && d !in start
      ensures exists i :: i in s'.callers && d in Makes(start, s'.callers[i].dir)
    {
      if d in s.dirs {
        var i :| i in s.callers && d in Makes(start, s.callers[i].dir);
        assert s'.callers[i].dir == s.callers[i].dir;
      } else {
        assert d in Makes(start, s'.callers[id].dir);
      }
    }
  }

  lemma StepBounded(start: set<string>, s: Calls, l: CallLabel)
    requires Bounded(start, s) && CallsOk(s) && CanGo(s, l)
    ensures Bounded(start, Gone(s, l))
  {
    hide Makes, Relative, CallsOk;
    if l.Go? {
      CallStepBounded(start, s, l.id);
    } else {
      var s' := Gone(s, l);
      forall d | d in s'.dirs && d !in start
        ensures exists id :: id in s'.callers && d in Makes(start, s'.callers[id].dir)
      {
        var id :| id in s.callers && d in Makes(start, s.callers[id].dir);
        assert s'.callers[id].dir == s.callers[id].dir;
      }
    }
  }

  /** When a call has returned, its directory can be opened, but for an absolute one that was not there. */
  lemma SucceededOpens(start: set<string>, s: Calls, id: nat)
    requires Bounded(start, s) && CallsOk(s) && id in s.callers && s.callers[id].at.Succeeded?
    ensures var dir := s.callers[id].dir;
      && (Opens(s.dirs, dir) <==> dir != "" && (Relative(dir) || Opens(start, dir)))
      && Makes(start, dir) <= s.dirs
  {
    hide Ancestor, Resolve, Tokens;
    var dir := s.callers[id].dir;
    assert CallOk(s.dirs, s.callers[id]);
    if Relative(dir) {
      WholeAncestor(dir);
    } else {
      AbsoluteStays(start, s.dirs, dir);
    }
  }

  /**
   However the calls interleave, none fails and the directories stay prefix-closed. Only
   ancestors of the paths called with are made, and none outside the working directory. After
   a call has returned its directory can be opened if and only if the name has no leading
   slash, and is not empty, or the directory was there from the start.
   */
  lemma {:induction false} NestedDirectoriesSucceed(states: seq<Calls>, labels: seq<CallLabel>, i: nat)
    requires IsCallRun(states, labels) && i <= |labels|
    requires states[0].callers == map[] && PrefixClosed(states[0].dirs)
    ensures CallsOk(states[i]) && Bounded(states[0].dirs, states[i])
    ensures forall id :: id in states[i].callers && states[i].callers[id].at.Succeeded? ==>
              var dir := states[i].callers[id].dir;
              && (Opens(states[i].dirs, dir) <==> dir != "" && (Relative(dir) || Opens(states[0].dirs, dir)))
              && Makes(states[0].dirs, dir) <= states[i].dirs
    ensures forall id, dir :: CanGo(states[i], Begin(id, dir)) <==> id !in states[i].callers
    ensures forall id :: CanGo(states[i], Go(id)) <==> id in states[i].callers && !states[i].callers[id].at.Succeeded?
  {
    hide Gone, PrefixClosed, Opens, Relative, Makes, Bounded, CallOk;
    if i == 0 {
      StartIsBounded(states[0]);
    } else {
      NestedDirectoriesSucceed(states, labels, i - 1);
      StepKeepsCalls(states[i - 1], labels[i - 1]);
      StepBounded(states[0].dirs, states[i - 1], labels[i - 1]);
    }
    forall id | id in states[i].callers && states[i].callers[id].at.Succeeded?
      ensures var dir := states[i].callers[id].dir;
        && (Opens(states[i].dirs, dir) <==> dir != "" && (Relative(dir) || Opens(states[0].dirs, dir)))
        && Makes(states[0].dirs, dir) <= states[i].dirs
    {
      SucceededOpens(states[0].dirs, states[i], id);
    }
    forall id | id in states[i].callers
      ensures CanGo(states[i], Go(id)) <==> !states[i].callers[id].at.Succeeded?
    {
      UnfinishedGoes(states[i], id);
    }
  }

  lemma UnfinishedGoes(s: Calls, id: nat)
    requires CallsOk(s) && id in s.callers
    ensures CanGo(s, Go(id)) <==> !s.callers[id].at.Succeeded?
  {
    hide Ancestor, PrefixClosed;
    assert CallOk(s.dirs, s.callers[id]);
  }

  lemma StartIsBounded(s: Calls)
    requires s.callers == map[]
    ensures Bounded(s.dirs, s)
  {
  }

  // ---------------------------------------------------------------- calls as single steps

  /** Calls for these directories, each in one step. */
  function AfterAll(dirs: set<string>, order: seq<string>): set<string> {
    if order == [] then dirs
    else AfterNested(AfterAll(dirs, order[..|order| - 1]), order[|order| - 1])
  }

  lemma AfterOne(start: set<string>, dirs: set<string>, dir: string)
    requires PrefixClosed(dirs) && start <= dirs && forall d :: d in dirs && !Relative(d) ==> d in start
    ensures AfterNested(dirs, dir) == dirs + Makes(start, dir)
  {
    hide Ancestor, Resolve, Tokens, PrefixClosed;
    if !Relative(dir) {
      AbsoluteStays(start, dirs, dir);
    } else if Opens(dirs, dir) {
      OpenedIsWhole(dirs, dir);
      assert Ancestors(dir) <= dirs;
    }
  }

  lemma MadeAreRelative(start: set<string>, dir: string)
    ensures forall d :: d in Makes(start, dir) ==> Relative(d)
  {
    hide Ancestor, Relative;
    forall i: nat | 1 <= i <= |Tokens(dir, '/')|
      ensures Relative(Ancestor(dir, i))
    {
      AncestorIsRelative(dir, i);
    }
  }

  lemma NestedStaysClosed(dirs: set<string>, dir: string)
    requires PrefixClosed(dirs)
    ensures PrefixClosed(AfterNested(dirs, dir))
  {
    hide Ancestor, Tokens, Resolve, Opens;
    var dirs' := AfterNested(dirs, dir);
    forall d | d in dirs' && Relative(d)
      ensures ParentPresent(dirs', d)
    {
      if d !in dirs {
        var i: nat :| 1 <= i <= |Tokens(dir, '/')| && d == Ancestor(dir, i);
        AncestorNext(dir, i - 1);
        assert i > 1 ==> Ancestor(dir, i - 1) in Ancestors(dir);
      } else {
        assert ParentPresent(dirs, d);
      }
    }
  }

  lemma {:induction false} AfterAllIs(start: set<string>, order: seq<string>, d: string)
    requires PrefixClosed(start)
    ensures d in AfterAll(start, order) <==> d in start || exists j :: 0 <= j < |order| && d in Makes(start, order[j])
    ensures PrefixClosed(AfterAll(start, order)) && start <= AfterAll(start, order)
    ensures forall e :: e in AfterAll(start, order) && !Relative(e) ==> e in start
    decreases |order|
  {
    hide AfterNested, PrefixClosed, Makes, Relative;
    if order != [] {
      var init, last := order[..|order| - 1], order[|order| - 1];
      AfterAllIs(start, init, d);
      AfterOne(start, AfterAll(start, init), last);
      MadeAreRelative(start, last);
      NestedStaysClosed(AfterAll(start, init), last);
      assert forall j :: 0 <= j < |init| ==> init[j] == order[j];
    }
  }

  /**
   When every call has returned, the directories are those that the same calls, each in one
   step, would have left, in any order and however often each is listed.
   */
  lemma CallsAreAtomic(states: seq<Calls>, labels: seq<CallLabel>, order: seq<string>)
    requires IsCallRun(states, labels)
    requires states[0].callers == map[] && PrefixClosed(states[0].dirs)
    requires var callers := states[|labels|].callers;
      && (forall id :: id in callers ==> callers[id].at.Succeeded? && callers[id].dir in order)
      && (forall dir :: dir in order ==> exists id :: id in callers && callers[id].dir == dir)
    ensures states[|labels|].dirs == AfterAll(states[0].dirs, order)
  {
    hide CanGo, Gone, PrefixClosed, Makes, Opens, Relative, CallsOk, AfterAll;
    var start, s := states[0].dirs, states[|labels|];
    NestedDirectoriesSucceed(states, labels, |labels|);
    forall d
      ensures d in s.dirs <==> d in AfterAll(start, order)
    {
      AfterAllIs(start, order, d);
      if d in s.dirs && d !in start {
        var id :| id in s.callers && d in Makes(start, s.callers[id].dir);
        var j :| 0 <= j < |order| && order[j] == s.callers[id].dir;
      }
      if d in AfterAll(start, order) && d !in start {
        var j :| 0 <= j < |order| && d in Makes(start, order[j]);
        assert order[j] in order;
        var id :| id in s.callers && s.callers[id].dir == order[j];
        assert Makes(start, s.callers[id].dir) <= s.dirs;
      }
    }
  }

  /** For instance a call for a file in `/x/y`: it returns, `x` and `x/y` are made, and `/x/y` is still missing. */
  lemma LeadingSlash() returns (states: seq<Calls>, labels: seq<CallLabel>)
    ensures IsCallRun(states, labels) && states[0] == Calls({}, map[])
    ensures states[|labels|] == Calls({"x", "x/y"}, map[0 := Caller("/x/y", Succeeded)])
    ensures !Opens({"x", "x/y"}, "/x/y")
  {
    hide Directory, Tokens;
    SlashXY();
    var c, d := "/x/y", {"x"};
    labels := [Begin(0, c), Go(0), Go(0), Go(0), Go(0)];
    states := [Calls({}, map[]), Calls({}, map[0 := Caller(c, Opening)]), Calls({}, map[0 := Caller(c, Making(0))]),
               Calls({"x"}, map[0 := Caller(c, Making(1))]), Calls({"x", "x/y"}, map[0 := Caller(c, Making(2))]),
               Calls({"x", "x/y"}, map[0 := Caller(c, Succeeded)])];
  }

  lemma SlashXY()
    ensures Tokens("/x/y", '/') == ["x", "y"] && Resolve("/x/y") == "/x/y"
    ensures Ancestor("/x/y", 1) == "x" && Ancestor("/x/y", 2) == "x/y" && Directory("x/y") == "x" && '/' in "x/y"
  {
    hide Tokens, Directory;
    SplitXY();
    var ts := ["x", "y"];
    assert ts[..1] == ["x"] && ts[..2] == ts && ts[1..] == ["y"];
    assert "x" + "/" + "y" == "x/y" && "x/y"[1] == '/' && "/" + "x/y" == "/x/y";
    PathParts("x", "y");
  }

  lemma SplitXY()
    ensures Tokens("/x/y", '/') == ["x", "y"]
  {
    assert "/x/y"[1..] == "x/y" == "x" + ['/'] + "y";
    TokensSingle("y", '/');
    TokensCons("x", "y", '/');
  }
}
