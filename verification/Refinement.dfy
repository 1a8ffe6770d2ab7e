/**
 Every interleaving of the multi-step handlers refines an atomic map from paths to
 bytes: a GET takes effect when it gets its read lock, a RM when it removes the
 file, a WRITE when its last byte is in place, each inside its lock section.
 */
module Refinement {
  import opened Wrappers
  import opened Protocol
  import opened Paths
  import opened Server
  import opened Locking

  // ---------------------------------------------------------------- the atomic store

  datatype Op = OpWrite(path: string, body: Bytes) | OpGet(path: string) | OpRemove(path: string)

  datatype Outcome = Written | Fetched(content: Option<Bytes>) | Removed(found: bool)

  /** The store, and what each thread's operation returned. */
  datatype Spec = Spec(store: map<string, Bytes>, outcome: map<Tid, Outcome>)

  function Lookup(store: map<string, Bytes>, path: string): Option<Bytes> {
    if path in store then Some(store[path]) else None
  }

  function Perform(spec: Spec, t: Tid, op: Op): Spec {
    match op
    case OpWrite(path, body) => Spec(spec.store[path := body], spec.outcome[t := Written])
    case OpGet(path) => Spec(spec.store, spec.outcome[t := Fetched(Lookup(spec.store, path))])
    case OpRemove(path) => Spec(spec.store - {path}, spec.outcome[t := Removed(path in spec.store)])
  }

  /** The operation that a thread's next step completes, if any. */
  function EffectOf(th: Thread): Option<Op> {
    match th.pc
    case WantLock => if th.req.command == GET then Some(OpGet(th.req.path)) else None
    case WFill(remaining) => if remaining <= 0 then Some(OpWrite(th.req.path, th.body)) else None
    case RRemove => Some(OpRemove(th.req.path))
    case _ => None
  }

  function PerformAny(spec: Spec, t: Tid, op: Option<Op>): Spec {
    if op.None? then spec else Perform(spec, t, op.value)
  }

  function SpecNext(spec: Spec, s: State, l: Label): Spec
    requires Enabled(s, l)
  {
    if l.Run? then PerformAny(spec, l.t, EffectOf(s.threads[l.t])) else spec
  }

  // ---------------------------------------------------------------- the relation

  /** A writer has the file of `path` open and half filled. */
  predicate Dirty(th: Thread, path: string) { th.pc.WFill? && th.req.path == path }

  predicate Settled(threads: Threads, path: string) {
    forall t :: t in threads ==> !Dirty(threads[t], path)
  }

  /** What the client has been sent is the answer of the atomic operation. */
  predicate Answered(th: Thread, o: Outcome) {
    match o
    case Written => th.req.command == WRITE && th.reply == Some(Reply(true, MNone, 0)) && th.sent == []
    case Fetched(None) => th.req.command == GET && th.reply == Some(Reply(false, MNoFile, 0)) && th.sent == []
    case Fetched(Some(c)) => th.req.command == GET && th.reply == Some(Reply(true, MOk, |c|)) && th.sent == c
    case Removed(false) => th.req.command == RM && th.reply == Some(Reply(false, MNoRemove, 0)) && th.sent == []
    case Removed(true) =>
      && th.req.command == RM && th.sent == []
      && (th.reply == Some(Reply(true, MOk, 0)) || th.reply == Some(Reply(false, MNoHistory, 0)))
  }

  /** A reader's position in the file it measured. */
  predicate Sending(files: Files, o: Option<Outcome>, th: Thread, off: nat, ahead: Bytes) {
    && User(th.req.path) in files
    && var c := files[User(th.req.path)];
       && o == Some(Fetched(Some(c)))
       && off <= |c| && th.sent + ahead == c[..off]
       && th.reply == Some(Reply(true, MOk, |c|))
  }

  predicate ThreadRel(files: Files, o: Option<Outcome>, th: Thread) {
    match th.pc
    case Start => o == None && th.inbox == th.body && th.sent == []
    case WantMutex => o == None && th.inbox == th.body && th.sent == []
    case Scan(_) => o == None && th.inbox == th.body && th.sent == []
    case WantLock => o == None && th.inbox == th.body && th.sent == []
    case WMkdirs => o == None && th.inbox == th.body && th.sent == []
    case WOpenOld => o == None && th.inbox == th.body && th.sent == []
    case WStamp => o == None && th.inbox == th.body && th.sent == []
    case WMkFolder(_) => o == None && th.inbox == th.body && th.sent == []
    case WOpenNew(_) => o == None && th.inbox == th.body && th.sent == []
    case WCopy(at, off) =>
      && o == None && th.inbox == th.body && th.sent == []
      && var c := ContentsOf(files, User(th.req.path));
         && off <= |c|
         && (Version(th.req.path, at) in files ==> files[Version(th.req.path, at)] == c[..off])
    case WTruncate => o == None && th.inbox == th.body && th.sent == []
    case WFill(remaining) =>
      && o == None && th.sent == [] && remaining == |th.inbox|
      && User(th.req.path) in files && files[User(th.req.path)] + th.inbox == th.body
    case GSize => o == Some(Fetched(FileAt(files, User(th.req.path)))) && th.sent == []
    case GRead(off) => Sending(files, o, th, off, [])
    case GSend(off, buf, eof) =>
      Sending(files, o, th, off, buf) && (eof ==> off == |files[User(th.req.path)]|)
    case RRemove => o == None && th.sent == []
    case ROpenDir => o == Some(Removed(true)) && th.sent == []
    case RRead(_, _, _) => o == Some(Removed(true)) && th.sent == []
    case RDelete(_, _, _) => o == Some(Removed(true)) && th.sent == []
    case Unlock => o.Some? && Answered(th, o.value)
    case Done => o.Some? && Answered(th, o.value)
    case Refused => o == None && th.sent == []
  }

  function OutcomeOf(spec: Spec, t: Tid): Option<Outcome> {
    if t in spec.outcome then Some(spec.outcome[t]) else None
  }

  ghost predicate StoreRel(s: State, spec: Spec) {
    forall path :: Settled(s.threads, path) ==> FileAt(s.sh.files, User(path)) == Lookup(spec.store, path)
  }

  ghost predicate Refines(s: State, spec: Spec) {
    && StoreRel(s, spec)
    && (forall t :: t in s.threads ==> ThreadRel(s.sh.files, OutcomeOf(spec, t), s.threads[t]))
    && spec.outcome.Keys <= s.threads.Keys
  }

  // ---------------------------------------------------------------- what a step does to the files

  /** A thread changes no user file but its own, and that only while filling or removing it. */
  ghost predicate FilesMove(files: Files, files': Files, th: Thread) {
    && (forall q :: q != th.req.path ==> FileAt(files', User(q)) == FileAt(files, User(q)))
    && (!(th.pc.WTruncate? || th.pc.WFill? || th.pc.RRemove?) ==>
          FileAt(files', User(th.req.path)) == FileAt(files, User(th.req.path)))
    && (forall q, at :: q != th.req.path && Version(q, at) in files' ==>
          Version(q, at) in files && files'[Version(q, at)] == files[Version(q, at)])
    && (!WritePc(th.pc) && !RemovePc(th.pc) ==> files' == files)
  }

  lemma WriteFiles(sh: Shared, th: Thread, c: Choice)
    requires WritePc(th.pc) && CanStep(sh, th, c)
    ensures FilesMove(sh.files, WriteStep(sh, th, c).0.files, th)
  {
  }

  lemma RemoveFiles(sh: Shared, th: Thread, c: Choice)
    requires RemovePc(th.pc) && (th.pc.RDelete? ==> th.pc.entry.Version?)
    ensures FilesMove(sh.files, RemoveStep(sh, th, c).0.files, th)
  {
    hide InFolder, NameMatches, Directory;
  }

  lemma StepFiles(sh: Shared, me: Tid, th: Thread, c: Choice)
    requires CanStep(sh, th, c) && (th.pc.RDelete? ==> th.pc.entry.Version?)
    ensures FilesMove(sh.files, Step(sh, me, th, c).0.files, th)
  {
    hide WriteStep, RemoveStep, GetStep, FilesMove;
    if WritePc(th.pc) {
      WriteFiles(sh, th, c);
    } else if RemovePc(th.pc) {
      RemoveFiles(sh, th, c);
    } else {
      Unmoved(sh.files, th);
    }
  }

  lemma Unmoved(files: Files, th: Thread)
    ensures FilesMove(files, files, th)
  {
  }

  // ---------------------------------------------------------------- the stepping thread

  lemma CopyStep(sh: Shared, th: Thread, c: Choice)
    requires th.pc.WCopy?
    ensures var v := Version(th.req.path, th.pc.at);
      var chunk := Transfer.ChunkAt(ContentsOf(sh.files, User(th.req.path)), th.pc.off);
      WriteStep(sh, th, c)
      == (sh.(files := if v in sh.files then sh.files[v := sh.files[v] + chunk] else sh.files),
          th.(pc := if |chunk| < CHUNK then WTruncate else WCopy(th.pc.at, th.pc.off + |chunk|)))
  {
    hide Directory, Transfer.ChunkAt;
  }

  lemma CopyRel(sh: Shared, th: Thread, c: Choice)
    requires th.pc.WCopy? && ThreadRel(sh.files, None, th)
    ensures var (sh', th') := WriteStep(sh, th, c); ThreadRel(sh'.files, None, th')
  {
    hide Directory, Transfer.ChunkAt, WriteStep, ContentsOf;
    CopyStep(sh, th, c);
    var content, files' := ContentsOf(sh.files, User(th.req.path)), WriteStep(sh, th, c).0.files;
    Transfer.ChunkExtends(content, th.pc.off);
    SameContents(sh.files, files', User(th.req.path));
  }

  lemma SameContents(files: Files, files': Files, k: Key)
    requires FileAt(files', k) == FileAt(files, k)
    ensures ContentsOf(files', k) == ContentsOf(files, k)
  {
  }

  lemma FillRel(sh: Shared, th: Thread, c: Choice)
    requires th.pc.WFill? && CanStep(sh, th, c) && th.req.command == WRITE && ThreadRel(sh.files, None, th)
    ensures var (sh', th') := WriteStep(sh, th, c);
      ThreadRel(sh'.files, if EffectOf(th).Some? then Some(Written) else None, th')
  {
    var content := ContentsOf(sh.files, User(th.req.path));
    if th.pc.remaining > 0 {
      assert (content + th.inbox[..c.n]) + th.inbox[c.n..] == content + th.inbox;
    }
  }

  lemma WriteRel(sh: Shared, th: Thread, c: Choice)
    requires WritePc(th.pc) && CanStep(sh, th, c) && RequestOk(th)
    requires ThreadRel(sh.files, None, th)
    ensures var (sh', th') := WriteStep(sh, th, c);
      var o := if EffectOf(th).Some? then Some(Written) else None;
      ThreadRel(sh'.files, o, th')
  {
    hide ParseRequest, ValidRequest, GoodClient, UserPath, Directory, Transfer.ChunkAt;
    if th.pc.WCopy? {
      CopyRel(sh, th, c);
    } else if th.pc.WFill? {
      FillRel(sh, th, c);
    }
  }

  lemma FilledIsBody(files: Files, o: Option<Outcome>, th: Thread)
    requires th.pc.WFill? && th.pc.remaining <= 0 && ThreadRel(files, o, th)
    ensures FileAt(files, User(th.req.path)) == Some(th.body)
  {
    var content := files[User(th.req.path)];
    assert content + th.inbox == content;
  }

  lemma ReadRel(files: Files, o: Option<Outcome>, th: Thread, c: Choice)
    requires th.pc.GRead? && ThreadRel(files, o, th)
    ensures ThreadRel(files, o, GetStep(files, th, c))
  {
    hide Transfer.ChunkAt;
    var content, off := files[User(th.req.path)], th.pc.off;
    var chunk := Transfer.ChunkAt(content, off);
    Transfer.ChunkExtends(content, off);
  }

  lemma SendRel(files: Files, o: Option<Outcome>, th: Thread, c: Choice)
    requires th.pc.GSend? && th.req.command == GET && ThreadRel(files, o, th)
    requires th.pc.buf != [] ==> 1 <= c.n <= |th.pc.buf|
    ensures ThreadRel(files, o, GetStep(files, th, c))
  {
    var content := files[User(th.req.path)];
    assert content[..|content|] == content;
    if th.pc.buf != [] {
      assert (th.sent + th.pc.buf[..c.n]) + th.pc.buf[c.n..] == th.sent + th.pc.buf;
    } else {
      assert th.sent + th.pc.buf == th.sent;
    }
  }

  lemma GetRel(files: Files, o: Option<Outcome>, th: Thread, c: Choice)
    requires GetPc(th.pc) && PcOk(th.pc, th.req.command) && ThreadRel(files, o, th)
    requires th.pc.GSend? && th.pc.buf != [] ==> 1 <= c.n <= |th.pc.buf|
    ensures ThreadRel(files, o, GetStep(files, th, c))
  {
    if th.pc.GRead? {
      ReadRel(files, o, th, c);
    } else if th.pc.GSend? {
      SendRel(files, o, th, c);
    }
  }

  lemma RemoveRel(sh: Shared, th: Thread, c: Choice, o: Option<Outcome>, found: bool)
    requires RemovePc(th.pc) && PcOk(th.pc, th.req.command) && CanStep(sh, th, c) && ThreadRel(sh.files, o, th)
    requires th.pc.RRemove? ==> th.req.path != "" && found == (User(th.req.path) in sh.files)
    ensures var (sh', th') := RemoveStep(sh, th, c);
      ThreadRel(sh'.files, if th.pc.RRemove? then Some(Removed(found)) else o, th')
  {
    hide InFolder, NameMatches, Directory;
  }

  lemma OtherRel(sh: Shared, me: Tid, th: Thread, c: Choice, o: Option<Outcome>)
    requires CanStep(sh, th, c) && ThreadRel(sh.files, o, th) && PcOk(th.pc, th.req.command)
    requires !WritePc(th.pc) && !GetPc(th.pc) && !RemovePc(th.pc)
    ensures var (sh', th') := Step(sh, me, th, c);
      var o' := if EffectOf(th).Some? then Some(Fetched(FileAt(sh.files, User(th.req.path)))) else o;
      ThreadRel(sh'.files, o', th')
  {
    hide ParseRequest, WriteStep, GetStep, RemoveStep;
  }

  /** The stepping thread stays related, given that the store agrees on its file when it takes effect. */
  lemma OwnStep(sh: Shared, t: Tid, th: Thread, c: Choice, spec: Spec)
    requires CanStep(sh, th, c) && RequestOk(th) && ThreadRel(sh.files, OutcomeOf(spec, t), th)
    requires (th.pc.WantLock? && th.req.command == GET) || th.pc.RRemove? ==>
               FileAt(sh.files, User(th.req.path)) == Lookup(spec.store, th.req.path)
    ensures var (sh', th') := Step(sh, t, th, c);
      ThreadRel(sh'.files, OutcomeOf(PerformAny(spec, t, EffectOf(th)), t), th')
  {
    hide ThreadRel, WriteStep, GetStep, RemoveStep, Accepted, GoodClient;
    if WritePc(th.pc) {
      NotYet(sh.files, OutcomeOf(spec, t), th);
      WriteRel(sh, th, c);
    } else if GetPc(th.pc) {
      GetRel(sh.files, OutcomeOf(spec, t), th, c);
    } else if RemovePc(th.pc) {
      AcceptedIsValid(th);
      RemoveRel(sh, th, c, OutcomeOf(spec, t), th.req.path in spec.store);
    } else {
      OtherRel(sh, t, th, c, OutcomeOf(spec, t));
    }
  }

  lemma NotYet(files: Files, o: Option<Outcome>, th: Thread)
    requires ThreadRel(files, o, th) && WritePc(th.pc)
    ensures o == None
  {
  }

  // ---------------------------------------------------------------- the other threads

  /** A thread that is not moved stays related when the files it works on are not moved either. */
  lemma FramedRel(files: Files, files': Files, o: Option<Outcome>, th: Thread)
    requires ThreadRel(files, o, th)
    requires InSection(th) ==> FileAt(files', User(th.req.path)) == FileAt(files, User(th.req.path))
    requires th.pc.WCopy? ==>
               var v := Version(th.req.path, th.pc.at);
               v in files' ==> v in files && files'[v] == files[v]
    ensures ThreadRel(files', o, th)
  {
  }

  lemma OtherThread(s: State, t: Tid, u: Tid, files': Files, o: Option<Outcome>)
    requires LockInv(s) && t in s.threads && u in s.threads && t != u
    requires FilesMove(s.sh.files, files', s.threads[t])
    requires ThreadRel(s.sh.files, o, s.threads[u])
    ensures ThreadRel(files', o, s.threads[u])
  {
    hide ThreadRel, LockOk, Accepted, GoodClient;
    var a, b := s.threads[t], s.threads[u];
    assert RequestOk(a) && RequestOk(b);
    if InSection(b) && a.req.path == b.req.path && (WritePc(a.pc) || RemovePc(a.pc)) {
      Exclusion(s, t, u);
    } else {
      FramedRel(s.sh.files, files', o, b);
    }
  }

  // ---------------------------------------------------------------- the store

  /** Inside its section and not filling, a thread knows that its file is the store's. */
  lemma SettledInside(s: State, t: Tid)
    requires LockInv(s) && t in s.threads && InSection(s.threads[t])
    requires !s.threads[t].pc.WFill?
    ensures Settled(s.threads, s.threads[t].req.path)
  {
    hide LockOk, Accepted, GoodClient;
    var path := s.threads[t].req.path;
    forall u | u in s.threads
      ensures !Dirty(s.threads[u], path)
    {
      if u != t && Dirty(s.threads[u], path) {
        assert RequestOk(s.threads[u]);
        Exclusion(s, t, u);
      }
    }
  }

  /** A reader about to lock finds the file settled: any writer inside would keep it out. */
  lemma SettledAtLock(s: State, t: Tid, c: Choice)
    requires LockInv(s) && Enabled(s, Run(t, c)) && s.threads[t].pc.WantLock? && s.threads[t].req.command == GET
    ensures Settled(s.threads, s.threads[t].req.path)
  {
    hide LockOk, RequestOk, LockMove, LockInv, PlacedOk, Step;
    var s' := Next(s, Run(t, c));
    StepKeepsLocks(s, Run(t, c));
    LockedHere(s, t, c);
    SettledInside(s', t);
    forall u | u in s.threads
      ensures !Dirty(s.threads[u], s.threads[t].req.path)
    {
      assert u in s'.threads && !Dirty(s'.threads[u], s.threads[t].req.path);
    }
  }

  lemma LockedHere(s: State, t: Tid, c: Choice)
    requires Enabled(s, Run(t, c)) && s.threads[t].pc.WantLock? && s.threads[t].req.command == GET
    ensures var th := Step(s.sh, t, s.threads[t], c).1;
      InSection(th) && th.pc.GSize? && th.req == s.threads[t].req
  {
  }

  lemma StoreStep(s: State, spec: Spec, t: Tid, sh: Shared, th: Thread)
    requires LockInv(s) && Refines(s, spec) && t in s.threads
    requires FilesMove(s.sh.files, sh.files, s.threads[t])
    requires th.req == s.threads[t].req || s.threads[t].pc.Start?
    requires s.threads[t].pc.RRemove? ==> User(th.req.path) !in sh.files
    requires s.threads[t].pc.WTruncate? ==> th.pc.WFill?
    requires s.threads[t].pc.WFill? ==> th.pc.WFill? || (s.threads[t].pc.remaining <= 0 && sh.files == s.sh.files)
    requires th.pc.WFill? ==> s.threads[t].pc.WTruncate? || (s.threads[t].pc.WFill? && s.threads[t].pc.remaining > 0)
    ensures StoreRel(State(sh, s.threads[t := th]), PerformAny(spec, t, EffectOf(s.threads[t])))
  {
    hide LockOk, RequestOk, PlacedOk, RegistryOk, MutexOk;
    var before, threads' := s.threads[t], s.threads[t := th];
    var spec' := PerformAny(spec, t, EffectOf(before));
    forall path | Settled(threads', path)
      ensures FileAt(sh.files, User(path)) == Lookup(spec'.store, path)
    {
      if before.pc.WFill? && path == before.req.path {
        assert !Dirty(threads'[t], path);
        FilledIsBody(s.sh.files, OutcomeOf(spec, t), before);
      } else {
        assert !Dirty(threads'[t], path);
        forall u | u in s.threads
          ensures !Dirty(s.threads[u], path)
        {
          assert u != t ==> !Dirty(threads'[u], path);
        }
        assert Settled(s.threads, path);
      }
    }
  }

  // ---------------------------------------------------------------- the simulation

  lemma FillShape(sh: Shared, th: Thread, c: Choice)
    requires WritePc(th.pc) && CanStep(sh, th, c)
    ensures var (sh', th') := WriteStep(sh, th, c);
      && (th.pc.WTruncate? ==> th'.pc.WFill?)
      && (th.pc.WFill? ==> th'.pc.WFill? || (th.pc.remaining <= 0 && sh'.files == sh.files))
      && (th'.pc.WFill? ==> th.pc.WTruncate? || (th.pc.WFill? && th.pc.remaining > 0))
  {
    hide Directory, Transfer.ChunkAt;
  }

  /** The facts about one step that the store argument needs. */
  lemma StepShape(sh: Shared, t: Tid, th: Thread, c: Choice)
    requires CanStep(sh, th, c)
    ensures var (sh', th') := Step(sh, t, th, c);
      && (th'.req == th.req || th.pc.Start?)
      && th'.header == th.header && th'.body == th.body
      && (th.pc.RRemove? && th.req.path != "" ==> User(th'.req.path) !in sh'.files)
      && (th.pc.WTruncate? ==> th'.pc.WFill?)
      && (th.pc.WFill? ==> th'.pc.WFill? || (th.pc.remaining <= 0 && sh'.files == sh.files))
      && (th'.pc.WFill? ==> th.pc.WTruncate? || (th.pc.WFill? && th.pc.remaining > 0))
  {
    hide ParseRequest, InFolder, NameMatches, Directory, WriteStep, GetStep;
    if WritePc(th.pc) {
      WriteFrame(sh, th, c);
      FillShape(sh, th, c);
    } else if GetPc(th.pc) {
      GetFrame(sh.files, th, c);
    }
  }

  lemma RunRefines(s: State, spec: Spec, t: Tid, c: Choice)
    requires LockInv(s) && Refines(s, spec) && Enabled(s, Run(t, c))
    ensures Refines(Next(s, Run(t, c)), SpecNext(spec, s, Run(t, c)))
  {
    hide Step, CanStep, ThreadRel, LockOk, Accepted, GoodClient, FilesMove, StoreRel, EffectOf;
    var th := s.threads[t];
    var r := Step(s.sh, t, th, c);
    var spec' := PerformAny(spec, t, EffectOf(th));
    assert RequestOk(th);
    StepFiles(s.sh, t, th, c);
    StepShape(s.sh, t, th, c);
    if th.pc.RRemove? {
      AcceptedIsValid(th);
    }
    AgreesWhenItMatters(s, spec, t, c);
    OwnStep(s.sh, t, th, c, spec);
    StoreStep(s, spec, t, r.0, r.1);
    forall u | u in s.threads && u != t
      ensures ThreadRel(r.0.files, OutcomeOf(spec', u), s.threads[u])
    {
      OtherThread(s, t, u, r.0.files, OutcomeOf(spec, u));
    }
  }

  lemma AgreesWhenItMatters(s: State, spec: Spec, t: Tid, c: Choice)
    requires LockInv(s) && Refines(s, spec) && Enabled(s, Run(t, c))
    ensures var th := s.threads[t];
      (th.pc.WantLock? && th.req.command == GET) || th.pc.RRemove? ==>
        FileAt(s.sh.files, User(th.req.path)) == Lookup(spec.store, th.req.path)
  {
    hide Step, CanStep, ThreadRel, LockInv;
    var th := s.threads[t];
    if th.pc.WantLock? && th.req.command == GET {
      SettledAtLock(s, t, c);
    } else if th.pc.RRemove? {
      SettledInside(s, t);
    }
  }

  /** One step of the server is nothing, or one whole operation, of the atomic store. */
  lemma StepRefines(s: State, spec: Spec, l: Label)
    requires LockInv(s) && Refines(s, spec) && Enabled(s, l)
    ensures Refines(Next(s, l), SpecNext(spec, s, l))
  {
    hide Step, CanStep, LockInv;
    match l
    case Run(t, c) => RunRefines(s, spec, t, c);
    case Spawn(t, header, body) =>
      assert t !in spec.outcome;
      forall path | Settled(s.threads[t := NewThread(header, body)], path)
        ensures Settled(s.threads, path)
      {
        forall u | u in s.threads
          ensures !Dirty(s.threads[u], path)
        {
          assert !Dirty(s.threads[t := NewThread(header, body)][u], path);
        }
      }
    case Tick(_) =>
  }

  function StoreOf(files: Files): map<string, Bytes> {
    map k | k in files && k.User? :: k.path := files[k]
  }

  function InitialSpec(s: State): Spec { Spec(StoreOf(s.sh.files), map[]) }

  lemma InitialRefines(s: State)
    requires Initial(s)
    ensures LockInv(s) && Refines(s, InitialSpec(s))
  {
    forall path | Settled(s.threads, path)
      ensures FileAt(s.sh.files, User(path)) == Lookup(StoreOf(s.sh.files), path)
    {
      assert User(path) in s.sh.files <==> path in StoreOf(s.sh.files);
    }
  }

  /** The atomic store after the first `i` steps of a run. */
  ghost function SpecAt(states: seq<State>, labels: seq<Label>, i: nat): Spec
    requires IsRun(states, labels) && i <= |labels|
  {
    if i == 0 then InitialSpec(states[0])
    else SpecNext(SpecAt(states, labels, i - 1), states[i - 1], labels[i - 1])
  }

  /**
   Refinement over whole runs: after every step of every interleaving the files
   are the atomic store's, and each thread has exactly its operation's answer.
   */
  lemma {:induction false} RunRefinesStore(states: seq<State>, labels: seq<Label>, i: nat)
    requires IsRun(states, labels) && i <= |labels| && Initial(states[0])
    ensures LockInv(states[i]) && Refines(states[i], SpecAt(states, labels, i))
  {
    hide LockInv, Refines, Next, SpecNext, Enabled, Initial;
    if i == 0 {
      InitialRefines(states[0]);
    } else {
      RunRefinesStore(states, labels, i - 1);
      StepKeepsLocks(states[i - 1], labels[i - 1]);
      StepRefines(states[i - 1], SpecAt(states, labels, i - 1), labels[i - 1]);
    }
  }
}
