/**
 What every client is told, word for word: in every run the response that a client reads back
 is the one of its request and of the atomic store at the step where the request took effect.
 */
module Answers {
  import opened Wrappers
  import opened Text
  import opened Protocol
  import opened Paths
  import opened Server
  import opened Locking
  import opened Refinement
  import opened Linearizability
  import opened Session
  import Transfer

  /** The client reads this response off the wire. */
  predicate ReadsAs(reply: Option<Reply>, response: Response) {
    reply.Some? && reply.value.len >= 0 && ParseResponse(Wire(reply.value)) == Some(response)
  }

  /** What a client of a finished request reads, and the bytes it is sent, given the store at its step. */
  ghost predicate IsTold(th: Thread, store: map<string, Bytes>) {
    match th.req.command
    case WRITE => ReadsAs(th.reply, Response(true, "NULL", 0)) && th.sent == []
    case GET =>
      if th.req.path in store then
        ReadsAs(th.reply, Response(true, "OK", |store[th.req.path]|)) && th.sent == store[th.req.path]
      else
        && ReadsAs(th.reply, Response(false, "unable to open and/or get" + " size of the requested file", 0))
        && th.sent == []
    case RM =>
      && th.sent == []
      && if th.req.path in store then
           || ReadsAs(th.reply, Response(true, "OK", 0))
           || ReadsAs(th.reply, Response(false, "ERROR: unable to remove all" + " prior versions of this file", 0))
         else ReadsAs(th.reply, Response(false, "unable to remove file", 0))
    case LS => false
    case UNKNOWN => false
  }

  lemma ReadsBack(r: Reply)
    requires 0 <= r.len <= LONG_MAX
    ensures r.message.MNone? ==> ReadsAs(Some(r), Response(r.status, "NULL", r.len))
    ensures r.message.MOk? ==> ReadsAs(Some(r), Response(r.status, "OK", r.len))
    ensures r.message.MNoRequest? ==> ReadsAs(Some(r), Response(r.status, "unable to receive request", r.len))
    ensures r.message.MNoRemove? ==> ReadsAs(Some(r), Response(r.status, "unable to remove file", r.len))
  {
    hide Wire, ParseResponse;
    WireRoundTrip(r);
  }

  lemma LongReadsBack(r: Reply)
    requires 0 <= r.len <= LONG_MAX
    ensures r.message.MNoFile? ==>
              ReadsAs(Some(r), Response(r.status, "unable to open and/or get" + " size of the requested file", r.len))
    ensures r.message.MNoHistory? ==>
              ReadsAs(Some(r),
                      Response(r.status, "ERROR: unable to remove all" + " prior versions of this file", r.len))
    ensures r.message.MNoLs? ==>
              ReadsAs(Some(r), Response(r.status, "optional command" + " isn't implemented yet", r.len))
  {
    hide Wire, ParseResponse;
    WireRoundTrip(r);
  }

  lemma AnswerIsTold(th: Thread, store: map<string, Bytes>)
    requires th.req.command == WRITE || th.req.command == GET || th.req.command == RM
    requires Answered(th, OutcomeFor(store, OperationOf(th)))
    requires th.req.path in store ==> |store[th.req.path]| <= LONG_MAX
    ensures IsTold(th, store)
  {
    hide ReadsAs;
    var r := th.reply.value;
    ReadsBack(r);
    LongReadsBack(r);
  }

  /**
   In every run a client whose request is finished reads the literal response that belongs to
   what the atomic store held at the one step where its request took effect.
   */
  lemma FinishedIsTold(states: seq<State>, labels: seq<Label>, i: nat, t: Tid) returns (k: nat)
    requires IsRun(states, labels) && i <= |labels| && Initial(states[0])
    requires t in states[i].threads && states[i].threads[t].pc.Done?
    ensures k < i && EffectAt(states[k], labels[k], t)
    ensures var th, store := states[i].threads[t], SpecAt(states, labels, k).store;
      (th.req.path in store ==> |store[th.req.path]| <= LONG_MAX) ==> IsTold(th, store)
  {
    hide Next, Enabled, Initial, IsTold, Answered, OutcomeFor, OperationOf, SpecAt, EffectAt;
    k := AtomicAnswer(states, labels, i, t);
    var th, store := states[i].threads[t], SpecAt(states, labels, k).store;
    if th.req.path in store ==> |store[th.req.path]| <= LONG_MAX {
      AnswerIsTold(th, store);
    }
  }

  /**
   In every run a thread that has read its header is refused exactly when the header does not
   read as a request, or when it has reached its turn with an LS, and is told which it was.
   */
  lemma RefusedIsTold(states: seq<State>, labels: seq<Label>, i: nat, t: Tid)
    requires IsRun(states, labels) && i <= |labels| && Initial(states[0])
    requires t in states[i].threads && !states[i].threads[t].pc.Start?
    ensures var th := states[i].threads[t]; var r := ParseRequest(th.header);
      && (r.None? ==> th.pc.Refused?)
      && (r.Some? && r.value.command == LS ==> !InSection(th) && !th.pc.Done?)
      && (th.pc.Refused? ==>
            && (r.None? || r.value.command == LS)
            && (th.reply == Some(Reply(false, MNoRequest, 0)) <==> r.None?)
            && (th.reply == Some(Reply(false, MNoLs, 0)) <==> r.Some? && r.value.command == LS)
            && th.sent == []
            && ReadsAs(th.reply, if r.None? then Response(false, "unable to receive request", 0)
                               else Response(false, "optional command" + " isn't implemented yet", 0)))
  {
    hide ParseRequest, UserPath, Next, Enabled, Initial, LockOk, ReadsAs, Refines;
    RunRefinesStore(states, labels, i);
    var th := states[i].threads[t];
    assert RequestOk(th);
    NothingSent(states[i], SpecAt(states, labels, i), t);
    ReadsBack(Reply(false, MNoRequest, 0));
    LongReadsBack(Reply(false, MNoLs, 0));
  }

  lemma NothingSent(s: State, spec: Spec, t: Tid)
    requires Refines(s, spec) && t in s.threads
    ensures s.threads[t].pc.Refused? ==> s.threads[t].sent == []
  {
  }

  // ---------------------------------------------------------------- one answer

  /** A response has been sent exactly from the point on where the source sends it. */
  predicate Replied(th: Thread) {
    th.reply.Some? <==> th.pc.GRead? || th.pc.GSend? || th.pc.Unlock? || th.pc.Done? || th.pc.Refused?
  }

  predicate RepliesOnce(th: Thread, th': Thread) {
    Replied(th') && (th.reply.Some? ==> th'.reply == th.reply) && th.sent <= th'.sent
  }

  lemma StepReplies(sh: Shared, t: Tid, th: Thread, c: Choice)
    requires CanStep(sh, th, c) && Replied(th)
    ensures RepliesOnce(th, Step(sh, t, th, c).1)
  {
    hide ParseRequest, WriteStep, RemoveStep, GetStep;
    if WritePc(th.pc) {
      WriteReplies(sh, th, c);
    } else if RemovePc(th.pc) {
      RemoveReplies(sh, th, c);
    } else if GetPc(th.pc) {
      GetReplies(sh.files, th, c);
    }
  }

  lemma WriteReplies(sh: Shared, th: Thread, c: Choice)
    requires WritePc(th.pc) && CanStep(sh, th, c) && Replied(th)
    ensures RepliesOnce(th, WriteStep(sh, th, c).1)
  {
    hide Directory, Transfer.ChunkAt;
  }

  lemma RemoveReplies(sh: Shared, th: Thread, c: Choice)
    requires RemovePc(th.pc) && Replied(th)
    ensures RepliesOnce(th, RemoveStep(sh, th, c).1)
  {
    hide Directory, InFolder, NameMatches;
  }

  lemma GetReplies(files: Files, th: Thread, c: Choice)
    requires GetPc(th.pc) && Replied(th)
    requires th.pc.GSend? && th.pc.buf != [] ==> 1 <= c.n <= |th.pc.buf|
    ensures RepliesOnce(th, GetStep(files, th, c))
  {
    hide Transfer.ChunkAt;
  }

  lemma StepAnswers(s: State, l: Label, t: Tid)
    requires Enabled(s, l) && t in s.threads && Replied(s.threads[t])
    ensures t in Next(s, l).threads && RepliesOnce(s.threads[t], Next(s, l).threads[t])
  {
    hide Step, CanStep;
    if l.Run? && l.t == t {
      StepReplies(s.sh, t, s.threads[t], l.c);
    }
  }

  /**
   In every run a client is sent one response, at its point and never another, and what it has
   been sent of a file is only ever added to.
   */
  lemma {:induction false} AnsweredOnce(states: seq<State>, labels: seq<Label>, i: nat, j: nat, t: Tid)
    requires IsRun(states, labels) && Initial(states[0]) && i <= j <= |labels| && t in states[i].threads
    ensures t in states[j].threads && Replied(states[i].threads[t])
    ensures RepliesOnce(states[i].threads[t], states[j].threads[t])
    decreases i + j
  {
    hide Enabled, Next, Replied, DiskOk;
    if i < j {
      AnsweredOnce(states, labels, i, j - 1, t);
      StepAnswers(states[j - 1], labels[j - 1], t);
    } else if i > 0 {
      if t in states[i - 1].threads {
        AnsweredOnce(states, labels, i - 1, i - 1, t);
        StepAnswers(states[i - 1], labels[i - 1], t);
      } else {
        NewIsSilent(states[i - 1], labels[i - 1], t);
      }
    }
  }

  lemma NewIsSilent(s: State, l: Label, t: Tid)
    requires Enabled(s, l) && t !in s.threads && t in Next(s, l).threads
    ensures Replied(Next(s, l).threads[t])
  {
    hide Step, CanStep;
  }
}
