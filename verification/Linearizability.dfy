/**
 What the refinement means for clients: every finished operation took effect at
 exactly one step, inside its lock section, and its answer is the atomic one.
 */
module Linearizability {
  import opened Wrappers
  import opened Protocol
  import opened Paths
  import opened Server
  import opened Locking
  import opened Refinement

  /** The operation a thread's request asks for. */
  function OperationOf(th: Thread): Op
    requires th.req.command == WRITE || th.req.command == GET || th.req.command == RM
  {
    if th.req.command == WRITE then OpWrite(th.req.path, th.body)
    else if th.req.command == GET then OpGet(th.req.path)
    else OpRemove(th.req.path)
  }

  /** Step `k` completes an operation of thread `t`. */
  predicate EffectAt(s: State, l: Label, t: Tid) {
    l.Run? && l.t == t && t in s.threads && EffectOf(s.threads[t]).Some?
  }

  lemma StepKeepsThread(s: State, l: Label, t: Tid)
    requires Enabled(s, l) && t in s.threads
    ensures var s' := Next(s, l);
      t in s'.threads && s'.threads[t].header == s.threads[t].header && s'.threads[t].body == s.threads[t].body
  {
    hide Step, CanStep;
    if l.Run? {
      StepShape(s.sh, l.t, s.threads[l.t], l.c);
    }
  }

  lemma {:induction false} KeepsThread(states: seq<State>, labels: seq<Label>, i: nat, j: nat, t: Tid)
    requires IsRun(states, labels) && i <= j <= |labels| && t in states[i].threads
    ensures t in states[j].threads
    ensures states[j].threads[t].header == states[i].threads[t].header
    ensures states[j].threads[t].body == states[i].threads[t].body
  {
    hide Next, Enabled;
    if i < j {
      KeepsThread(states, labels, i, j - 1, t);
      StepKeepsThread(states[j - 1], labels[j - 1], t);
    }
  }

  /** A thread about to take effect has not taken effect before. */
  lemma EffectIsFirst(s: State, spec: Spec, l: Label, t: Tid)
    requires LockInv(s) && Refines(s, spec) && Enabled(s, l) && EffectAt(s, l, t)
    ensures t !in spec.outcome
    ensures EffectOf(s.threads[t]).value == OperationOf(s.threads[t])
    ensures var s' := Next(s, l); InSection(s'.threads[t])
  {
    hide LockOk, Accepted, GoodClient, StoreRel, ParseRequest, InFolder, NameMatches, Directory;
    assert RequestOk(s.threads[t]);
    assert ThreadRel(s.sh.files, OutcomeOf(spec, t), s.threads[t]);
  }

  lemma OutcomeStep(spec: Spec, s: State, l: Label, t: Tid)
    requires Enabled(s, l) && t in SpecNext(spec, s, l).outcome
    ensures EffectAt(s, l, t) || (t in spec.outcome && SpecNext(spec, s, l).outcome[t] == spec.outcome[t])
  {
    hide CanStep, EffectOf;
  }

  /** An outcome, once given, is given at one step and never changes. */
  lemma {:induction false} EffectTime(states: seq<State>, labels: seq<Label>, i: nat, t: Tid) returns (k: nat)
    requires IsRun(states, labels) && i <= |labels| && Initial(states[0])
    requires t in SpecAt(states, labels, i).outcome
    ensures k < i && EffectAt(states[k], labels[k], t)
    ensures t !in SpecAt(states, labels, k).outcome && t in SpecAt(states, labels, k + 1).outcome
    ensures SpecAt(states, labels, i).outcome[t] == SpecAt(states, labels, k + 1).outcome[t]
  {
    hide LockInv, Refines, Next, Enabled, Initial, SpecNext, EffectAt;
    if i == 0 {
      assert false;
    } else {
      RunRefinesStore(states, labels, i - 1);
      OutcomeStep(SpecAt(states, labels, i - 1), states[i - 1], labels[i - 1], t);
      if EffectAt(states[i - 1], labels[i - 1], t) {
        EffectIsFirst(states[i - 1], SpecAt(states, labels, i - 1), labels[i - 1], t);
        k := i - 1;
      } else {
        k := EffectTime(states, labels, i - 1, t);
      }
    }
  }

  lemma FinishedHasOutcome(s: State, spec: Spec, t: Tid)
    requires Refines(s, spec) && t in s.threads && (s.threads[t].pc.Unlock? || s.threads[t].pc.Done?)
    ensures t in spec.outcome && Answered(s.threads[t], spec.outcome[t])
  {
  }

  /** The outcome that the atomic store gives an operation. */
  function OutcomeFor(store: map<string, Bytes>, op: Op): Outcome {
    match op
    case OpWrite(_, _) => Written
    case OpGet(path) => Fetched(Lookup(store, path))
    case OpRemove(path) => Removed(path in store)
  }

  /**
   Linearizability: a finished thread's operation took effect at one step of its own,
   inside its lock section, and the client was told what the atomic store says there.
   */
  lemma AtomicAnswer(states: seq<State>, labels: seq<Label>, i: nat, t: Tid) returns (k: nat)
    requires IsRun(states, labels) && i <= |labels| && Initial(states[0])
    requires t in states[i].threads && states[i].threads[t].pc.Done?
    ensures k < i && EffectAt(states[k], labels[k], t)
    ensures InSection(states[k + 1].threads[t])
    ensures forall j :: 0 <= j < i && j != k ==> !EffectAt(states[j], labels[j], t)
    ensures states[i].threads[t].req.command in [WRITE, GET, RM]
    ensures SpecAt(states, labels, k + 1)
         == Perform(SpecAt(states, labels, k), t, OperationOf(states[i].threads[t]))
    ensures Answered(states[i].threads[t],
              OutcomeFor(SpecAt(states, labels, k).store, OperationOf(states[i].threads[t])))
  {
    hide LockInv, Refines, Next, Enabled, Initial, Answered;
    RunRefinesStore(states, labels, i);
    FinishedHasOutcome(states[i], SpecAt(states, labels, i), t);
    k := EffectTime(states, labels, i, t);
    RunRefinesStore(states, labels, k);
    EffectIsFirst(states[k], SpecAt(states, labels, k), labels[k], t);
    KeepsThread(states, labels, k, i, t);
    SameRequestLater(states[k], states[i], t);
    forall j | 0 <= j < i && j != k
      ensures !EffectAt(states[j], labels[j], t)
    {
      EffectOnce(states, labels, k, j, t);
    }
  }

  lemma SameRequestLater(s: State, s': State, t: Tid)
    requires LockInv(s) && LockInv(s') && t in s.threads && t in s'.threads
    requires s'.threads[t].header == s.threads[t].header && s'.threads[t].pc.Done?
    requires EffectOf(s.threads[t]).Some?
    ensures s'.threads[t].req == s.threads[t].req && s'.threads[t].req.command in [WRITE, GET, RM]
  {
    hide LockOk, ParseRequest, GoodClient, UserPath, ValidRequest;
    assert RequestOk(s.threads[t]) && RequestOk(s'.threads[t]);
  }

  lemma {:induction false} OutcomeStays(states: seq<State>, labels: seq<Label>, i: nat, j: nat, t: Tid)
    requires IsRun(states, labels) && i <= j <= |labels| && t in SpecAt(states, labels, i).outcome
    ensures t in SpecAt(states, labels, j).outcome
  {
    hide Next, Enabled, EffectOf;
    if i < j {
      OutcomeStays(states, labels, i, j - 1, t);
    }
  }

  lemma EffectRecorded(states: seq<State>, labels: seq<Label>, k: nat, t: Tid)
    requires IsRun(states, labels) && k < |labels| && EffectAt(states[k], labels[k], t)
    ensures t in SpecAt(states, labels, k + 1).outcome
  {
    hide Next, CanStep, EffectOf;
  }

  /** No thread takes effect at two steps of a run. */
  lemma EffectOnce(states: seq<State>, labels: seq<Label>, k: nat, j: nat, t: Tid)
    requires IsRun(states, labels) && k < |labels| && j < |labels| && j != k && Initial(states[0])
    requires EffectAt(states[k], labels[k], t)
    ensures !EffectAt(states[j], labels[j], t)
  {
    hide LockInv, Refines, Next, Enabled, Initial, SpecAt, EffectAt, InSection, OperationOf;
    if EffectAt(states[j], labels[j], t) {
      var a, b := if k < j then k else j, if k < j then j else k;
      EffectRecorded(states, labels, a, t);
      OutcomeStays(states, labels, a + 1, b, t);
      RunRefinesStore(states, labels, b);
      EffectIsFirst(states[b], SpecAt(states, labels, b), labels[b], t);
    }
  }

  /**
   GET snapshot: the announced length is the number of bytes sent, and they are the
   file as it was when the read lock was taken.
   */
  lemma GetSnapshot(states: seq<State>, labels: seq<Label>, i: nat, t: Tid) returns (k: nat)
    requires IsRun(states, labels) && i <= |labels| && Initial(states[0])
    requires t in states[i].threads && states[i].threads[t].pc.Done? && states[i].threads[t].req.command == GET
    ensures k < i && labels[k].Run? && labels[k].t == t && t in states[k].threads && states[k].threads[t].pc.WantLock?
    ensures var th := states[i].threads[t];
      match FileAt(states[k].sh.files, User(th.req.path))
      case None => th.reply == Some(Reply(false, MNoFile, 0)) && th.sent == []
      case Some(content) => th.reply == Some(Reply(true, MOk, |content|)) && th.sent == content
  {
    hide LockInv, Refines, Initial, CanStep, Step;
    k := AtomicAnswer(states, labels, i, t);
    RunRefinesStore(states, labels, k);
    EffectIsFirst(states[k], SpecAt(states, labels, k), labels[k], t);
    RequestStays(states, labels, k, i, t);
    AgreesWhenItMatters(states[k], SpecAt(states, labels, k), t, labels[k].c);
  }

  lemma RequestStays(states: seq<State>, labels: seq<Label>, k: nat, i: nat, t: Tid)
    requires IsRun(states, labels) && k <= i <= |labels| && Initial(states[0])
    requires t in states[k].threads && t in states[i].threads && states[i].threads[t].pc.Done?
    requires EffectOf(states[k].threads[t]).Some?
    ensures states[i].threads[t].req == states[k].threads[t].req
  {
    hide LockInv, Refines, Next, Enabled, Initial, EffectOf;
    KeepsThread(states, labels, k, i, t);
    RunRefinesStore(states, labels, k);
    RunRefinesStore(states, labels, i);
    SameRequestLater(states[k], states[i], t);
  }
}
