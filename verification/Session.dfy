/**
 The client's half of a connection, and the two halves together: what a GET brings
 back is what the last WRITE sent.
 */
module Session {
  import opened Wrappers
  import opened Text
  import opened Protocol
  import opened Paths
  import opened Server
  import opened Locking
  import opened Refinement
  import opened Linearizability
  import Naming
  import Parsing
  import Transfer

  // ---------------------------------------------------------------- the client

  /** `formatPath`: every path of a command is below `data/`. */
  function FormatPath(s: string): string { "data/" + s }

  lemma FormatPathTokens(remote: string)
    ensures Tokens(FormatPath(remote), '/') == ["data"] + Tokens(remote, '/')
  {
    hide Tokens;
    assert FormatPath(remote) == "data" + ['/'] + remote;
    TokensCons("data", remote, '/');
  }

  lemma JoinData(names: seq<string>)
    requires names != []
    ensures Join(["data"] + names, '/') == FormatPath(Join(names, '/'))
  {
    assert (["data"] + names)[1..] == names;
    assert "data" + ['/'] == "data/";
  }

  lemma FormatPathBack(remote: string)
    ensures |FormatPath(remote)| == |remote| + 5 && FormatPath(remote)[5..] == remote
  {
  }

  lemma UserIsNormalised(remote: string)
    requires UserPath(FormatPath(remote))
    ensures Tokens(remote, '/') != [] && Join(Tokens(remote, '/'), '/') == remote
  {
    hide Tokens, UserPath, Join, FormatPath;
    var names := Tokens(remote, '/');
    FormatPathTokens(remote);
    Naming.OnlyNormalised(FormatPath(remote));
    assert |["data"] + names| >= 2;
    JoinData(names);
    FormatPathBack(remote);
    FormatPathBack(Join(names, '/'));
  }

  lemma NormalisedIsUser(remote: string, names: seq<string>)
    requires names == Tokens(remote, '/') != [] && Join(names, '/') == remote
    ensures UserPath(FormatPath(remote))
       <==> |remote| <= LONGEST_PATH - 5 && "." !in names && ".." !in names && ".versions" !in names
  {
    hide Tokens, UserPath, Join, FormatPath;
    JoinData(names);
    FormatPathBack(remote);
    DataIsPlain(names);
    Naming.JoinedIsUserPath(["data"] + names);
  }

  /** Which arguments of the client name a user file: not `/x`, `x//y` or `x/`, whose files have other spellings. */
  lemma FormatPathIsUser(remote: string)
    ensures UserPath(FormatPath(remote))
       <==> var names := Tokens(remote, '/');
            && remote != "" && Join(names, '/') == remote && |remote| <= LONGEST_PATH - 5
            && "." !in names && ".." !in names && ".versions" !in names
  {
    hide Tokens, UserPath, Join, FormatPath;
    NothingJoined();
    if UserPath(FormatPath(remote)) {
      UserIsNormalised(remote);
    }
    if Tokens(remote, '/') != [] && Join(Tokens(remote, '/'), '/') == remote {
      NormalisedIsUser(remote, Tokens(remote, '/'));
    }
  }

  lemma NothingJoined()
    ensures Join([], '/') == "" && Tokens("", '/') == []
  {
  }

  lemma DataIsPlain(names: seq<string>)
    ensures forall x :: x in ["data"] + names <==> x == "data" || x in names
  {
  }

  /** `createRequest`: a WRITE announces the size of its local file and fails without one. */
  function CreateRequest(command: Command, remote: string, local: Option<Bytes>): Option<Request> {
    if command == UNKNOWN || (command == WRITE && local.None?) then None
    else Some(Request(command, FormatPath(remote), if command == WRITE then |local.value| else 0))
  }

  lemma CreatedIsValid(command: Command, remote: string, local: Option<Bytes>)
    ensures var r := CreateRequest(command, remote, local); r.Some? ==> ValidRequest(r.value)
  {
    assert |FormatPath(remote)| >= 5;
  }

  lemma SentIsRead(command: Command, remote: string, local: Option<Bytes>)
    ensures var r := CreateRequest(command, remote, local);
      && (r.Some? <==> command != UNKNOWN && (command == WRITE ==> local.Some?))
      && (r.Some? && ',' !in remote && (command == WRITE ==> |local.value| <= LONG_MAX) ==>
            ValidRequest(r.value)
            && ParseRequest(PrintRequest(r.value))
               == Some(Request(command, "data/" + remote, if command == WRITE then |local.value| else 0)))
  {
    hide ParseRequest, PrintRequest;
    var r := CreateRequest(command, remote, local);
    CreatedIsValid(command, remote, local);
    if r.Some? && ',' !in remote && (command == WRITE ==> |local.value| <= LONG_MAX) {
      RequestRoundTrip(r.value);
    }
  }

  /** `sendRequest`: the header, then for a WRITE the file. */
  method SendRequest(command: Command, remote: string, local: Option<Bytes>, socket: Transfer.Socket)
    returns (header: Option<string>)
    modifies socket
    ensures var r := CreateRequest(command, remote, local);
      header == if r.None? then None else (CreatedIsValid(command, remote, local); Some(PrintRequest(r.value)))
    ensures socket.stream == old(socket.stream) + if command == WRITE && local.Some? then local.value else []
    ensures header.Some? <==> command != UNKNOWN && (command == WRITE ==> local.Some?)
    ensures header.Some? && ',' !in remote && (command == WRITE ==> |local.value| <= LONG_MAX) ==>
              ParseRequest(header.value)
              == Some(Request(command, "data/" + remote, if command == WRITE then |local.value| else 0))
  {
    var r := CreateRequest(command, remote, local);
    SentIsRead(command, remote, local);
    if r.None? {
      return None;
    }
    CreatedIsValid(command, remote, local);
    header := Some(PrintRequest(r.value));
    if command == WRITE {
      var _ := Transfer.SendFileContents(local, r.value.dataLen, socket);
    }
  }

  /** The client's reading of the response, and of the file after a GET's. */
  method ReceiveAnswer(command: Command, wire: string, socket: Transfer.Socket)
    returns (response: Option<Response>, file: Transfer.OutputFile?)
    requires Parsing.NUL !in wire
    requires ParseResponse(wire).Some? ==> ParseResponse(wire).value.dataLen <= |socket.stream|
    modifies socket
    ensures response == ParseResponse(wire)
    ensures file != null <==> response.Some? && command == GET && response.value.dataLen > 0
    ensures file != null ==>
              file.contents + socket.stream == old(socket.stream) && response.value.dataLen <= |file.contents|
    ensures file == null ==> socket.stream == old(socket.stream)
    ensures file != null && response.value.dataLen == |old(socket.stream)| ==> file.contents == old(socket.stream)
  {
    response := Parsing.DeSerializeResponse(Some(wire));
    file := null;
    if response.Some? && command == GET && response.value.dataLen > 0 {
      var _, f := Transfer.ReceiveFileContents(response.value.dataLen, socket);
      file := f;
    }
  }

  // ---------------------------------------------------------------- headers and answers on the wire

  /** What the server sends for a reply. */
  function Wire(r: Reply): string
    requires r.len >= 0
  {
    PrintResponse(CreateResponse(r.status, Some(MessageText(r.message)), r.len).value)
  }

  lemma NoFileText()
    ensures ',' !in MessageText(MNoFile)
  {
  }

  lemma NoHistoryText()
    ensures ',' !in MessageText(MNoHistory)
  {
  }

  lemma NoLsText()
    ensures ',' !in MessageText(MNoLs)
  {
  }

  lemma FileText(m: Message)
    requires m.MNone? || m.MOk? || m.MNoPath? || m.MNoRemove?
    ensures ',' !in MessageText(m)
  {
  }

  lemma RequestText(m: Message)
    requires m.MNoRequest? || m.MNoLock? || m.MNoCommand?
    ensures ',' !in MessageText(m)
  {
  }

  lemma MessagesHaveNoComma(m: Message)
    ensures ',' !in Normalise(Some(MessageText(m)))
  {
    hide MessageText;
    match m
    case MNoFile => NoFileText();
    case MNoHistory => NoHistoryText();
    case MNoLs => NoLsText();
    case MNoRequest => RequestText(m);
    case MNoLock => RequestText(m);
    case MNoCommand => RequestText(m);
    case _ => FileText(m);
  }

  /** The client reads the status, the length and the text that the server replied, for every reply it has. */
  lemma WireRoundTrip(r: Reply)
    requires 0 <= r.len <= LONG_MAX
    ensures ParseResponse(Wire(r)).Some?
    ensures var told := ParseResponse(Wire(r)).value;
      && told.status == r.status && told.dataLen == r.len
      && match r.message
         case MNone => told.message == "NULL"
         case MOk => told.message == "OK"
         case MNoRequest => told.message == "unable to receive request"
         case MNoLock => told.message == "failed to get file lock"
         case MNoLs => told.message == "optional command" + " isn't implemented yet"
         case MNoCommand => told.message == "didn't receive valid command"
         case MNoFile => told.message == "unable to open and/or get" + " size of the requested file"
         case MNoPath => told.message == "didn't receive file path"
         case MNoRemove => told.message == "unable to remove file"
         case MNoHistory => told.message == "ERROR: unable to remove all" + " prior versions of this file"
  {
    hide ParseResponse, PrintResponse;
    MessagesHaveNoComma(r.message);
    ResponseRoundTrip(r.status, Some(MessageText(r.message)), r.len);
  }

  /** And on the wire the status is a 1 or a 0, and the length is printed. */
  lemma WireText(r: Reply)
    requires r.len >= 0
    ensures (if r.status then "1," else "0,") + Decimal(r.len) + "," <= Wire(r)
  {
    hide Normalise, MessageText;
    assert "1" + "," == "1," && "0" + "," == "0,";
  }

  /** A thread that has read its header works on the request the client made, and turns only an LS away. */
  lemma HeaderRoundTrip(s: State, t: Tid, r: Request)
    requires LockInv(s) && t in s.threads && !s.threads[t].pc.Start?
    requires ValidRequest(r) && r.dataLen <= LONG_MAX && ',' !in r.path && s.threads[t].header == PrintRequest(r)
    ensures s.threads[t].req == r
    ensures s.threads[t].pc.Refused? ==> r.command == LS && s.threads[t].reply == Some(Reply(false, MNoLs, 0))
  {
    hide LockOk, ParseRequest, PrintRequest, UserPath;
    RequestRoundTrip(r);
    assert RequestOk(s.threads[t]);
  }

  // ---------------------------------------------------------------- WRITE, then GET

  /** The step completes a WRITE of `path`, or an RM that finds it. */
  predicate Changes(s: State, l: Label, path: string) {
    && l.Run? && l.t in s.threads && EffectOf(s.threads[l.t]).Some?
    && match EffectOf(s.threads[l.t]).value
       case OpWrite(p, _) => p == path
       case OpRemove(p) => p == path && User(path) in s.sh.files
       case OpGet(_) => false
  }

  lemma UnchangedStep(s: State, spec: Spec, l: Label, path: string)
    requires LockInv(s) && Refines(s, spec) && Enabled(s, l) && !Changes(s, l, path)
    ensures Lookup(SpecNext(spec, s, l).store, path) == Lookup(spec.store, path)
  {
    hide CanStep, LockInv, ThreadRel;
    if l.Run? && s.threads[l.t].pc.RRemove? {
      SettledInside(s, l.t);
    }
  }

  lemma {:induction false} UnchangedRun(states: seq<State>, labels: seq<Label>, i: nat, j: nat, path: string)
    requires IsRun(states, labels) && Initial(states[0]) && i <= j <= |labels|
    requires forall k :: i <= k < j ==> !Changes(states[k], labels[k], path)
    ensures Lookup(SpecAt(states, labels, j).store, path) == Lookup(SpecAt(states, labels, i).store, path)
  {
    hide LockInv, Refines, Next, Enabled, Changes, SpecNext;
    if i < j {
      UnchangedRun(states, labels, i, j - 1, path);
      RunRefinesStore(states, labels, j - 1);
      UnchangedStep(states[j - 1], SpecAt(states, labels, j - 1), labels[j - 1], path);
    }
  }

  /** A thread takes effect after it was spawned, and before it is done. */
  lemma EffectOrder(states: seq<State>, labels: seq<Label>, j: nat, k: nat, t: Tid)
    requires IsRun(states, labels) && j <= |labels| && k < |labels|
    requires EffectAt(states[k], labels[k], t) && t !in states[j].threads
    ensures j <= k
  {
    if k < j {
      KeepsThread(states, labels, k, j, t);
    }
  }

  /**
   A client that GETs `path` after a finished WRITE of it, with no WRITE or successful RM
   of it taking effect in between, is announced the WRITE's length and sent its body.
   */
  lemma WriteThenGet(states: seq<State>, labels: seq<Label>, j: nat, i: nat, w: Tid, g: Tid, path: string, body: Bytes)
    returns (kw: nat, kg: nat)
    requires IsRun(states, labels) && Initial(states[0]) && j <= i <= |labels|
    requires path != "" && ',' !in path && |body| <= LONG_MAX
    requires w in states[j].threads && states[j].threads[w].pc.Done? && g !in states[j].threads
    requires g in states[i].threads && states[i].threads[g].pc.Done?
    requires states[j].threads[w].header == PrintRequest(Request(WRITE, path, |body|))
    requires states[j].threads[w].body == body
    requires states[i].threads[g].header == PrintRequest(Request(GET, path, 0))
    ensures kw < j <= kg < i && EffectAt(states[kw], labels[kw], w) && EffectAt(states[kg], labels[kg], g)
    ensures (forall k :: kw < k < kg ==> !Changes(states[k], labels[k], path)) ==>
      var th := states[i].threads[g];
      th.reply == Some(Reply(true, MOk, |body|)) && th.sent == body
  {
    hide LockInv, Refines, Next, Enabled, Initial, PrintRequest, Changes, EffectAt, InSection;
    kw := AtomicAnswer(states, labels, j, w);
    kg := AtomicAnswer(states, labels, i, g);
    EffectOrder(states, labels, j, kg, g);
    RunRefinesStore(states, labels, j);
    RunRefinesStore(states, labels, i);
    HeaderRoundTrip(states[j], w, Request(WRITE, path, |body|));
    HeaderRoundTrip(states[i], g, Request(GET, path, 0));
    if forall k :: kw < k < kg ==> !Changes(states[k], labels[k], path) {
      UnchangedRun(states, labels, kw + 1, kg, path);
      assert Lookup(SpecAt(states, labels, kg).store, path) == Some(body);
    }
  }

  lemma AnswerHasNoNul(len: nat)
    ensures Parsing.NUL !in Wire(Reply(true, MOk, len))
  {
    DecimalHasOnlyDigits(len, Parsing.NUL);
  }

  /** A run, and in it a thread that finishes before another comes and finishes. */
  datatype Service = Service(states: seq<State>, labels: seq<Label>, j: nat, i: nat, w: Tid, g: Tid, k: nat)

  /**
   The first thread serves the first client, the second the second one, and after the step at
   which the first takes effect nothing else changes its file.
   */
  ghost predicate Serves(v: Service, first: string, body: Bytes, second: string) {
    && IsRun(v.states, v.labels) && Initial(v.states[0]) && v.j <= v.i <= |v.labels| && v.k < |v.labels|
    && v.w in v.states[v.j].threads && v.g !in v.states[v.j].threads && v.g in v.states[v.i].threads
    && var w, g := v.states[v.j].threads[v.w], v.states[v.i].threads[v.g];
       && w.pc.Done? && w.header == first && w.body == body
       && g.pc.Done? && g.header == second
       && EffectAt(v.states[v.k], v.labels[v.k], v.w)
       && forall k :: v.k < k < v.i ==> !Changes(v.states[k], v.labels[k], w.req.path)
  }

  /** A WRITE client and a GET client of the same file, as the server takes them. */
  predicate Pair(first: string, body: Bytes, second: string) {
    var w, g := ParseRequest(first), ParseRequest(second);
    && GoodClient(first, body) && GoodClient(second, [])
    && w.Some? && w.value.command == WRITE
    && g.Some? && g.value.command == GET && g.value.path == w.value.path
  }

  /**
   End to end: whatever run serves what the two clients send, the second client is told
   the length of the first one's file and ends up with its content.
   */
  method GetAfterWrite(remote: string, local: Bytes, server: (string, Bytes, string) -> Service)
    returns (response: Option<Response>, file: Transfer.OutputFile?)
    requires UserPath(FormatPath(remote)) && ',' !in remote && Parsing.NUL !in remote && |local| <= LONG_MAX
    requires forall first, body, second :: Pair(first, body, second) ==>
               Serves(server(first, body, second), first, body, second)
    ensures response == Some(Response(true, "OK", |local|))
    ensures if |local| > 0 then file != null && file.contents == local else file == null
  {
    hide IsRun, Initial, PrintRequest, Changes, EffectAt, Wire, ParseResponse, MessageText, Normalise, UserPath,
         GoodClient, ParseRequest, LockInv;
    var writer := new Transfer.Socket();
    var first := SendRequest(WRITE, remote, Some(local), writer);
    var reader := new Transfer.Socket();
    var second := SendRequest(GET, remote, None, reader);
    assert [] + local == local;
    PairSent(remote, local);
    var v := server(first.value, writer.stream, second.value);
    ServedBody(v, remote, local);
    var th := v.states[v.i].threads[v.g];
    var back := new Transfer.Socket();
    back.stream := th.sent;
    WireRoundTrip(Reply(true, MOk, |local|));
    AnswerHasNoNul(|local|);
    response, file := ReceiveAnswer(GET, Wire(th.reply.value), back);
  }

  /** What the two clients send is such a pair. */
  lemma PairSent(remote: string, local: Bytes)
    requires UserPath(FormatPath(remote)) && ',' !in remote && Parsing.NUL !in remote && |local| <= LONG_MAX
    ensures var path := FormatPath(remote);
      Pair(PrintRequest(Request(WRITE, path, |local|)), local, PrintRequest(Request(GET, path, 0)))
  {
    hide UserPath, GoodClient, ParseRequest, PrintRequest;
    var path := FormatPath(remote);
    PathChars(remote);
    Naming.PrintedIsGood(Request(WRITE, path, |local|), local);
    Naming.PrintedIsGood(Request(GET, path, 0), []);
  }

  lemma PathChars(remote: string)
    requires ',' !in remote && Parsing.NUL !in remote
    ensures ',' !in FormatPath(remote) && Parsing.NUL !in FormatPath(remote) && FormatPath(remote) != ""
  {
  }

  lemma ServedBody(v: Service, remote: string, local: Bytes)
    requires ',' !in remote && Parsing.NUL !in remote && |local| <= LONG_MAX
    requires var path := FormatPath(remote);
      Serves(v, PrintRequest(Request(WRITE, path, |local|)), local, PrintRequest(Request(GET, path, 0)))
    ensures v.i < |v.states| && v.g in v.states[v.i].threads
    ensures var th := v.states[v.i].threads[v.g]; th.reply == Some(Reply(true, MOk, |local|)) && th.sent == local
  {
    hide Initial, PrintRequest, Changes, EffectAt, Next, Enabled, LockInv, Refines;
    var path := FormatPath(remote);
    PathChars(remote);
    RunRefinesStore(v.states, v.labels, v.j);
    HeaderRoundTrip(v.states[v.j], v.w, Request(WRITE, path, |local|));
    SentIsBody(v.states, v.labels, v.j, v.i, v.w, v.g, path, local, v.k);
  }

  lemma SentIsBody(states: seq<State>, labels: seq<Label>, j: nat, i: nat, w: Tid, g: Tid,
                   path: string, body: Bytes, kw: nat)
    requires IsRun(states, labels) && Initial(states[0]) && j <= i <= |labels|
    requires path != "" && ',' !in path && |body| <= LONG_MAX
    requires w in states[j].threads && states[j].threads[w].pc.Done? && g !in states[j].threads
    requires g in states[i].threads && states[i].threads[g].pc.Done?
    requires states[j].threads[w].header == PrintRequest(Request(WRITE, path, |body|))
    requires states[j].threads[w].body == body
    requires states[i].threads[g].header == PrintRequest(Request(GET, path, 0))
    requires kw < |labels| && EffectAt(states[kw], labels[kw], w)
    requires forall k :: kw < k < i ==> !Changes(states[k], labels[k], path)
    ensures var th := states[i].threads[g]; th.reply == Some(Reply(true, MOk, |body|)) && th.sent == body
  {
    hide Next, Enabled, Initial, PrintRequest, Changes, EffectAt;
    var kw', kg := WriteThenGet(states, labels, j, i, w, g, path, body);
    if kw' != kw {
      EffectOnce(states, labels, kw, kw', w);
    }
  }
}
