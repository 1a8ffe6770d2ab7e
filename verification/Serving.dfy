/**
 The server does serve: for every two clients that Session composes there is a run from an
 empty disk in which the first is served to its end, then comes and is served the second.
 */
module Serving {
  import opened Wrappers
  import opened Protocol
  import opened Paths
  import opened Server
  import opened Locking
  import opened Refinement
  import opened Linearizability
  import opened Removal
  import opened Termination
  import opened Session
  import Interference
  import Naming

  // ---------------------------------------------------------------- runs put together

  lemma RunConcat(states: seq<State>, labels: seq<Label>, more: seq<State>, steps: seq<Label>)
    requires IsRun(states, labels) && IsRun(more, steps) && more[0] == states[|labels|]
    ensures IsRun(states + more[1..], labels + steps)
    ensures forall i :: 0 <= i <= |labels| ==> (states + more[1..])[i] == states[i]
    ensures forall i :: 0 <= i <= |steps| ==> (states + more[1..])[|labels| + i] == more[i]
  {
    hide Next, Enabled;
    var all, ls := states + more[1..], labels + steps;
    forall i | 0 <= i < |ls|
      ensures Enabled(all[i], ls[i]) && all[i + 1] == Next(all[i], ls[i])
    {
      if i < |labels| {
        assert all[i] == states[i] && all[i + 1] == states[i + 1] && ls[i] == labels[i];
      } else {
        var j := i - |labels|;
        assert all[i] == more[j] && all[i + 1] == more[j + 1] && ls[i] == steps[j];
      }
    }
  }

  // ---------------------------------------------------------------- the two clients

  predicate TheirLabel(l: Label, first: string, body: Bytes, second: string) {
    l.Run? || l == Spawn(0, first, body) || l == Spawn(1, second, [])
  }

  ghost predicate Theirs(s: State, first: string, body: Bytes, second: string) {
    && s.threads.Keys <= {0, 1}
    && (0 in s.threads ==> s.threads[0].header == first && s.threads[0].body == body)
    && (1 in s.threads ==> s.threads[1].header == second)
  }

  lemma StepTheirs(s: State, l: Label, first: string, body: Bytes, second: string)
    requires Enabled(s, l) && Theirs(s, first, body, second) && TheirLabel(l, first, body, second)
    ensures Theirs(Next(s, l), first, body, second)
    ensures l.Run? ==> Next(s, l).threads.Keys == s.threads.Keys
  {
    hide Step, CanStep, GoodClient, Placeable;
    if 0 in s.threads {
      StepKeepsThread(s, l, 0);
    }
    if 1 in s.threads {
      StepKeepsThread(s, l, 1);
    }
  }

  lemma {:induction false} RunTheirs(states: seq<State>, labels: seq<Label>, i: nat,
                                     first: string, body: Bytes, second: string)
    requires IsRun(states, labels) && i <= |labels| && states[0].threads == map[]
    requires forall k :: 0 <= k < |labels| ==> TheirLabel(labels[k], first, body, second)
    ensures Theirs(states[i], first, body, second)
  {
    hide Next, Enabled;
    if i > 0 {
      RunTheirs(states, labels, i - 1, first, body, second);
      StepTheirs(states[i - 1], labels[i - 1], first, body, second);
    }
  }

  lemma {:induction false} KeysStay(states: seq<State>, labels: seq<Label>, i: nat)
    requires IsRun(states, labels) && i <= |labels| && forall k :: 0 <= k < |labels| ==> labels[k].Run?
    ensures states[i].threads.Keys == states[0].threads.Keys
  {
    hide Step, CanStep;
    if i > 0 {
      KeysStay(states, labels, i - 1);
    }
  }

  /** A finished client of the pair has been served. */
  lemma FinishedIsDone(s: State, t: Tid)
    requires LockInv(s) && t in s.threads && Finished(s.threads[t])
    requires var r := ParseRequest(s.threads[t].header); r.Some? && r.value.command != LS
    ensures s.threads[t].pc.Done? && ParseRequest(s.threads[t].header) == Some(s.threads[t].req)
  {
    hide LockOk, ParseRequest, UserPath;
    assert RequestOk(s.threads[t]);
  }

  /** A step that changes a file is not the GET client's. */
  lemma ChangesIsFirst(s: State, l: Label, path: string, first: string, body: Bytes, second: string)
    requires LockInv(s) && Theirs(s, first, body, second) && Pair(first, body, second) && Changes(s, l, path)
    ensures EffectAt(s, l, 0)
  {
    hide LockOk, ParseRequest, UserPath, GoodClient;
    assert l.t in s.threads && RequestOk(s.threads[l.t]);
  }

  /** Between the first client's effect and the end nothing changes the file. */
  lemma NothingElse(states: seq<State>, labels: seq<Label>, k: nat, path: string,
                    first: string, body: Bytes, second: string)
    requires IsRun(states, labels) && Initial(states[0]) && Pair(first, body, second)
    requires forall n :: 0 <= n < |labels| ==> TheirLabel(labels[n], first, body, second)
    requires k < |labels| && EffectAt(states[k], labels[k], 0)
    ensures forall n :: k < n < |labels| ==> !Changes(states[n], labels[n], path)
  {
    hide Next, Enabled, Initial, LockInv, RemovalInv, Changes, EffectAt, Pair, TheirLabel;
    Fresh(states[0]);
    forall n | k < n < |labels|
      ensures !Changes(states[n], labels[n], path)
    {
      if Changes(states[n], labels[n], path) {
        RunTheirs(states, labels, n, first, body, second);
        RunKeepsRemoval(states, labels, n);
        ChangesIsFirst(states[n], labels[n], path, first, body, second);
        EffectOnce(states, labels, k, n, 0);
        assert false;
      }
    }
  }

  lemma Fresh(s: State)
    requires Initial(s)
    ensures s.threads == map[]
  {
  }

  // ---------------------------------------------------------------- the run

  const EMPTY: State := State(Shared(map[], {}, {}, [], [], None, 0, {}), map[])

  lemma EmptyIsInitial()
    ensures Initial(EMPTY)
  {
    Interference.NothingIsClosed();
  }

  /** The first client comes to the empty server and is served. */
  lemma FirstServed(first: string, body: Bytes, second: string) returns (states: seq<State>, labels: seq<Label>)
    requires Pair(first, body, second)
    ensures IsRun(states, labels) && states[0] == EMPTY
    ensures forall n :: 0 <= n < |labels| ==> TheirLabel(labels[n], first, body, second)
    ensures var s := states[|labels|]; s.threads.Keys == {0} && Finished(s.threads[0])
  {
    hide GoodClient, ParseRequest, Initial, IsRun, Finished;
    EmptyIsInitial();
    var l := Spawn(0, first, body);
    RoomOnEmpty(first);
    assert Enabled(EMPTY, l);
    var s1 := Next(EMPTY, l);
    SingleRun(s1);
    RunCons(EMPTY, l, [s1], []);
    var after, steps := ServerCanFinish([EMPTY] + [s1], [l] + [], 1);
    RunCons(EMPTY, l, after, steps);
    states, labels := [EMPTY] + after, [l] + steps;
    RunLength(after, steps);
    KeysStay(after, steps, |steps|);
    assert states[|labels|] == after[|steps|];
    assert 0 in after[|steps|].threads;
  }

  lemma RoomOnEmpty(header: string)
    ensures Placeable(EMPTY, header)
  {
    hide ParseRequest;
  }

  lemma SingleRun(s: State)
    ensures IsRun([s], [])
  {
  }

  lemma RunLength(states: seq<State>, labels: seq<Label>)
    requires IsRun(states, labels)
    ensures |states| == |labels| + 1
  {
  }

  /** After it, the disk holds what it wrote. */
  lemma FirstWrote(states: seq<State>, labels: seq<Label>, first: string, body: Bytes, second: string) returns (k: nat)
    requires Pair(first, body, second) && IsRun(states, labels) && Initial(states[0])
    requires forall n :: 0 <= n < |labels| ==> TheirLabel(labels[n], first, body, second)
    requires var s := states[|labels|]; s.threads.Keys == {0} && Finished(s.threads[0])
    ensures k < |labels| && EffectAt(states[k], labels[k], 0)
    ensures var s := states[|labels|];
      && s.threads[0].pc.Done? && s.threads[0].header == first && s.threads[0].body == body
      && ParseRequest(first) == Some(s.threads[0].req)
      && User(s.threads[0].req.path) in s.sh.files
  {
    hide GoodClient, ParseRequest, Initial, Next, Enabled, LockInv, RemovalInv, EffectAt, Changes, TheirLabel, Refines,
         Finished, InSection;
    var j, s := |labels|, states[|labels|];
    Fresh(states[0]);
    RunTheirs(states, labels, j, first, body, second);
    RunKeepsRemoval(states, labels, j);
    FinishedIsDone(s, 0);
    k := AtomicAnswer(states, labels, j, 0);
    var path := s.threads[0].req.path;
    NothingElse(states, labels, k, path, first, body, second);
    UnchangedRun(states, labels, k + 1, j, path);
    RunRefinesStore(states, labels, j);
    SettledIsThere(s, SpecAt(states, labels, j), path, body);
  }

  lemma SettledIsThere(s: State, spec: Spec, path: string, body: Bytes)
    requires Refines(s, spec) && Lookup(spec.store, path) == Some(body)
    requires forall t :: t in s.threads ==> Finished(s.threads[t])
    ensures User(path) in s.sh.files
  {
    hide ThreadRel;
    assert Settled(s.threads, path);
  }

  /** So the second client can come. */
  lemma SecondComes(states: seq<State>, labels: seq<Label>, first: string, body: Bytes, second: string) returns (k: nat)
    requires Pair(first, body, second) && IsRun(states, labels) && Initial(states[0])
    requires forall n :: 0 <= n < |labels| ==> TheirLabel(labels[n], first, body, second)
    requires var s := states[|labels|]; s.threads.Keys == {0} && Finished(s.threads[0])
    ensures k < |labels| && EffectAt(states[k], labels[k], 0)
    ensures var s := states[|labels|];
      && s.threads[0].pc.Done? && s.threads[0].header == first && s.threads[0].body == body
      && Enabled(s, Spawn(1, second, []))
  {
    hide GoodClient, ParseRequest, Initial, Next, CanStep, LockInv, RemovalInv, EffectAt, Finished, DiskOk, RoomFor,
         TheirLabel;
    k := FirstWrote(states, labels, first, body, second);
    Naming.RunNames(states, labels, |labels|);
    var s := states[|labels|];
    Naming.FilesAreApart(s.sh, s.threads[0].req.path, s.threads[0].req.path);
  }

  /** The second client is served too. */
  lemma SecondServed(states: seq<State>, labels: seq<Label>, first: string, body: Bytes, second: string)
    returns (all: seq<State>, ls: seq<Label>)
    requires Pair(first, body, second) && IsRun(states, labels) && Initial(states[0])
    requires forall n :: 0 <= n < |labels| ==> TheirLabel(labels[n], first, body, second)
    requires var s := states[|labels|]; s.threads.Keys == {0} && Enabled(s, Spawn(1, second, []))
    ensures IsRun(all, ls) && |labels| < |ls| && forall i :: 0 <= i <= |labels| ==> all[i] == states[i]
    ensures forall i :: 0 <= i < |labels| ==> ls[i] == labels[i]
    ensures forall n :: 0 <= n < |ls| ==> TheirLabel(ls[n], first, body, second)
    ensures 1 in all[|ls|].threads && Finished(all[|ls|].threads[1])
  {
    hide GoodClient, Placeable, Initial, IsRun, Finished, ParseRequest;
    RunLength(states, labels);
    var s, l := states[|labels|], Spawn(1, second, []);
    var s1 := Next(s, l);
    SingleRun(s1);
    RunCons(s, l, [s1], []);
    RunConcat(states, labels, [s] + [s1], [l] + []);
    var upTo, spawned := states + ([s] + [s1])[1..], labels + ([l] + []);
    assert upTo[0] == states[0];
    assert upTo[|labels| + 1] == s1;
    var after, steps := ServerCanFinish(upTo, spawned, |labels| + 1);
    RunLength(after, steps);
    KeysStay(after, steps, |steps|);
    RunConcat(upTo, spawned, after, steps);
    all, ls := upTo + after[1..], spawned + steps;
    assert all[|labels| + 1 + |steps|] == after[|steps|];
    assert 1 in after[|steps|].threads;
  }

  /** For every such pair of clients there is a run that serves them, so that a server as Session asks for exists. */
  lemma ServiceExists(first: string, body: Bytes, second: string) returns (v: Service)
    requires Pair(first, body, second)
    ensures Serves(v, first, body, second)
  {
    hide GoodClient, ParseRequest, Initial, IsRun, Finished, Enabled, EffectAt, Changes, TheirLabel, LockInv,
         RemovalInv;
    EmptyIsInitial();
    var states, labels := FirstServed(first, body, second);
    RunLength(states, labels);
    var k := SecondComes(states, labels, first, body, second);
    var all, ls := SecondServed(states, labels, first, body, second);
    RunLength(all, ls);
    var s, end := states[|labels|], all[|ls|];
    Fresh(all[0]);
    RunTheirs(all, ls, |ls|, first, body, second);
    RunKeepsRemoval(all, ls, |ls|);
    FinishedIsDone(end, 1);
    assert all[k] == states[k] && ls[k] == labels[k];
    NothingElse(all, ls, k, s.threads[0].req.path, first, body, second);
    v := Service(all, ls, |labels|, |ls|, 0, 1, k);
  }
}
