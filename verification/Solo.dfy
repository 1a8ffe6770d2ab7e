/**
 One thread alone: from taking its lock to releasing it, whatever bytes move at a time and
 in whatever order entries are listed, the steps do what the handlers of Handlers do.
 */
module Solo {
  import opened Wrappers
  import opened Protocol
  import opened Paths
  import opened Server
  import opened Locking
  import opened Refinement
  import opened Removal
  import opened Handlers
  import Directories
  import Transfer

  // ---------------------------------------------------------------- runs of one thread

  /** The thread can take these steps, one after the other, with nobody else stepping. */
  predicate Alone(sh: Shared, t: Tid, th: Thread, cs: seq<Choice>)
    decreases |cs|
  {
    cs == [] || (CanStep(sh, th, cs[0]) && var (sh', th') := Step(sh, t, th, cs[0]); Alone(sh', t, th', cs[1..]))
  }

  function AloneEnd(sh: Shared, t: Tid, th: Thread, cs: seq<Choice>): (Shared, Thread)
    requires Alone(sh, t, th, cs)
    decreases |cs|
  {
    if cs == [] then (sh, th)
    else var (sh', th') := Step(sh, t, th, cs[0]); AloneEnd(sh', t, th', cs[1..])
  }

  // ---------------------------------------------------------------- what holds on the way

  predicate WriteDone(files: Files, now: nat, sh: Shared, th: Thread) {
    sh.files == AfterWrite(files, th.req.path, now, th.body) && th.reply == Some(Reply(true, MNone, 0))
  }

  /** The file system while a WRITE of `path` that started from `files` is under way. */
  ghost predicate Writing(files: Files, now: nat, sh: Shared, th: Thread) {
    var file, version := User(th.req.path), Version(th.req.path, now);
    && sh.clock == now
    && match th.pc
       case WMkdirs => sh.files == files && th.inbox == th.body
       case WOpenOld => sh.files == files && th.inbox == th.body
       case WStamp => sh.files == files && th.inbox == th.body && file in files
       case WMkFolder(at) => at == now && sh.files == files && th.inbox == th.body && file in files
       case WOpenNew(at) => at == now && sh.files == files && th.inbox == th.body && file in files
       case WCopy(at, off) =>
         && at == now && th.inbox == th.body && file in files && off <= |files[file]|
         && sh.files == files[version := files[file][..off]]
       case WTruncate => sh.files == AfterSave(files, th.req.path, now) && th.inbox == th.body
       case WFill(remaining) =>
         && remaining == |th.inbox| && file in sh.files && sh.files[file] + th.inbox == th.body
         && sh.files == AfterSave(files, th.req.path, now)[file := sh.files[file]]
       case Unlock => WriteDone(files, now, sh, th)
       case Done => WriteDone(files, now, sh, th)
       case _ => false
  }

  /** The directories made so far by a WRITE that started from `was`. */
  ghost predicate Made(was: Shared, sh: Shared, th: Thread) {
    var dir := Directory(th.req.path);
    var saved := if User(th.req.path) in was.files then {dir} else {};
    && sh.dirs == (if th.pc.WMkdirs? then was.dirs else Directories.AfterNested(was.dirs, dir))
    && sh.folders == match th.pc
                     case WMkdirs => was.folders
                     case WOpenOld => was.folders
                     case WStamp => was.folders
                     case WMkFolder(_) => was.folders
                     case _ => was.folders + saved
  }

  /** Of `files`, all are left but the removed file and the removed entries among those met. */
  ghost predicate LeftAfter(files: Files, left: Files, path: string, met: set<Key>) {
    && (forall k :: k in left <==> k in files && k != User(path) && !(k in met && Removes(path, k)))
    && forall k :: k in left ==> left[k] == files[k]
  }

  ghost predicate Removing(files: Files, sh: Shared, th: Thread) {
    var path := th.req.path;
    match th.pc
    case RRemove => sh.files == files
    case ROpenDir => path != "" && User(path) in files && LeftAfter(files, sh.files, path, {})
    case RRead(must, seen, ok) =>
      && path != "" && User(path) in files && ok
      && (forall k :: k in must <==> k in files && InFolder(k, path))
      && LeftAfter(files, sh.files, path, seen)
    case RDelete(must, seen, entry) =>
      && path != "" && User(path) in files && Removes(path, entry) && entry.Version?
      && entry in sh.files && entry in seen
      && (forall k :: k in must <==> k in files && InFolder(k, path))
      && LeftAfter(files, sh.files, path, seen - {entry})
    case Unlock => sh.files == AfterRemove(files, path) && th.reply == Some(RemoveReply(files, path))
    case Done => sh.files == AfterRemove(files, path) && th.reply == Some(RemoveReply(files, path))
    case _ => false
  }

  // ---------------------------------------------------------------- each step

  lemma CopyGoesOn(files: Files, now: nat, sh: Shared, th: Thread, c: Choice)
    requires th.pc.WCopy? && Writing(files, now, sh, th)
    ensures var (sh', th') := WriteStep(sh, th, c); Writing(files, now, sh', th')
  {
    hide Directory, Transfer.ChunkAt;
    var content, off := files[User(th.req.path)], th.pc.off;
    var chunk := Transfer.ChunkAt(content, off);
    Transfer.ChunkExtends(content, off);
    assert content[..|content|] == content;
  }

  lemma FillGoesOn(files: Files, now: nat, sh: Shared, th: Thread, c: Choice)
    requires th.pc.WTruncate? || th.pc.WFill?
    requires CanStep(sh, th, c) && Writing(files, now, sh, th) && |th.body| == th.req.dataLen
    ensures var (sh', th') := WriteStep(sh, th, c); Writing(files, now, sh', th')
  {
    var file := User(th.req.path);
    if th.pc.WFill? && th.pc.remaining > 0 {
      assert (sh.files[file] + th.inbox[..c.n]) + th.inbox[c.n..] == sh.files[file] + th.inbox;
    } else if th.pc.WFill? {
      assert sh.files[file] + th.inbox == sh.files[file];
    }
  }

  lemma SaveGoesOn(files: Files, now: nat, sh: Shared, th: Thread, c: Choice)
    requires th.pc.WMkdirs? || th.pc.WOpenOld? || th.pc.WStamp? || th.pc.WMkFolder? || th.pc.WOpenNew?
    requires Writing(files, now, sh, th)
    ensures var (sh', th') := WriteStep(sh, th, c); Writing(files, now, sh', th')
  {
    hide Directory, Directories.AfterNested;
    if th.pc.WOpenNew? {
      assert files[User(th.req.path)][..0] == [];
    }
  }

  lemma WriteGoesOn(files: Files, now: nat, sh: Shared, t: Tid, th: Thread, c: Choice)
    requires CanStep(sh, th, c) && Writing(files, now, sh, th) && th.req.command == WRITE
    requires |th.body| == th.req.dataLen
    ensures var (sh', th') := Step(sh, t, th, c);
      Writing(files, now, sh', th') && th'.req == th.req && th'.body == th.body
  {
    hide WriteStep, AfterSave, AfterWrite;
    if WritePc(th.pc) {
      WriteFrame(sh, th, c);
      if th.pc.WCopy? {
        CopyGoesOn(files, now, sh, th, c);
      } else if th.pc.WTruncate? || th.pc.WFill? {
        FillGoesOn(files, now, sh, th, c);
      } else {
        SaveGoesOn(files, now, sh, th, c);
      }
    }
  }

  lemma MadeGoesOn(was: Shared, sh: Shared, t: Tid, th: Thread, c: Choice)
    requires CanStep(sh, th, c) && Writing(was.files, was.clock, sh, th) && Made(was, sh, th)
    requires th.req.command == WRITE
    ensures var (sh', th') := Step(sh, t, th, c); Made(was, sh', th')
  {
    hide Directory, Directories.AfterNested, Transfer.ChunkAt, AfterSave, AfterWrite;
  }

  lemma OpenDirGoesOn(files: Files, sh: Shared, th: Thread, c: Choice)
    requires th.pc.RRemove? || th.pc.ROpenDir?
    requires Removing(files, sh, th)
    requires forall k :: k in files && k.Version? ==> Directory(k.path) in sh.folders
    ensures var (sh', th') := RemoveStep(sh, th, c); Removing(files, sh', th')
  {
    hide Directory, NameMatches;
    var path := th.req.path;
    if th.pc.ROpenDir? && Directory(path) !in sh.folders {
      assert sh.files == AfterRemove(files, path);
    }
  }

  lemma ScanGoesOn(files: Files, sh: Shared, th: Thread, c: Choice)
    requires th.pc.RRead? && CanStep(sh, th, c) && Removing(files, sh, th)
    ensures var (sh', th') := RemoveStep(sh, th, c); Removing(files, sh', th')
  {
    hide Directory, NameMatches;
    var path := th.req.path;
    if c.entry.None? {
      assert sh.files == AfterRemove(files, path);
    } else {
      var k := c.entry.value;
      assert k in sh.files;
      assert th.pc.seen + {k} - {k} == th.pc.seen;
    }
  }

  lemma DeleteGoesOn(files: Files, sh: Shared, th: Thread, c: Choice)
    requires th.pc.RDelete? && Removing(files, sh, th)
    ensures var (sh', th') := RemoveStep(sh, th, c); Removing(files, sh', th')
  {
    hide Directory, NameMatches, InFolder;
  }

  lemma RemoveGoesOn(files: Files, sh: Shared, t: Tid, th: Thread, c: Choice)
    requires CanStep(sh, th, c) && Removing(files, sh, th) && th.req.command == RM
    requires forall k :: k in files && k.Version? ==> Directory(k.path) in sh.folders
    ensures var (sh', th') := Step(sh, t, th, c);
      Removing(files, sh', th') && th'.req == th.req && sh'.folders == sh.folders
  {
    hide Directory, NameMatches, InFolder, RemoveStep, AfterRemove, LeftAfter, RemoveReply;
    if RemovePc(th.pc) {
      RemoveFrame(sh, th, c);
      if th.pc.RRead? {
        ScanGoesOn(files, sh, th, c);
      } else if th.pc.RDelete? {
        DeleteGoesOn(files, sh, th, c);
      } else {
        OpenDirGoesOn(files, sh, th, c);
      }
    }
  }

  // ---------------------------------------------------------------- to the end

  lemma {:induction false} WriteEnds(was: Shared, sh: Shared, t: Tid, th: Thread, cs: seq<Choice>)
    requires Alone(sh, t, th, cs) && Writing(was.files, was.clock, sh, th) && Made(was, sh, th)
    requires th.req.command == WRITE && |th.body| == th.req.dataLen
    ensures var (sh', th') := AloneEnd(sh, t, th, cs);
      Writing(was.files, was.clock, sh', th') && Made(was, sh', th') && th'.req == th.req && th'.body == th.body
    decreases |cs|
  {
    hide Writing, Made, Step, CanStep;
    if cs != [] {
      WriteGoesOn(was.files, was.clock, sh, t, th, cs[0]);
      MadeGoesOn(was, sh, t, th, cs[0]);
      var (sh', th') := Step(sh, t, th, cs[0]);
      WriteEnds(was, sh', t, th', cs[1..]);
    }
  }

  lemma {:induction false} RemoveEnds(files: Files, sh: Shared, t: Tid, th: Thread, cs: seq<Choice>)
    requires Alone(sh, t, th, cs) && Removing(files, sh, th) && th.req.command == RM
    requires forall k :: k in files && k.Version? ==> Directory(k.path) in sh.folders
    ensures var (sh', th') := AloneEnd(sh, t, th, cs); Removing(files, sh', th') && th'.req == th.req
    decreases |cs|
  {
    hide Removing, Step, CanStep;
    if cs != [] {
      RemoveGoesOn(files, sh, t, th, cs[0]);
      var (sh', th') := Step(sh, t, th, cs[0]);
      RemoveEnds(files, sh', t, th', cs[1..]);
    }
  }

  lemma {:induction false} GetEnds(sh: Shared, t: Tid, th: Thread, cs: seq<Choice>, o: Option<Outcome>)
    requires Alone(sh, t, th, cs) && ThreadRel(sh.files, o, th) && th.req.command == GET
    requires GetPc(th.pc) || th.pc.Unlock? || th.pc.Done?
    ensures var (sh', th') := AloneEnd(sh, t, th, cs);
      && sh'.files == sh.files && ThreadRel(sh'.files, o, th') && th'.req == th.req
      && (GetPc(th'.pc) || th'.pc.Unlock? || th'.pc.Done?)
    decreases |cs|
  {
    if cs != [] {
      GetGoesOn(sh, t, th, cs[0], o);
      hide ThreadRel, Step, CanStep;
      var (sh', th') := Step(sh, t, th, cs[0]);
      GetEnds(sh', t, th', cs[1..], o);
    }
  }

  lemma GetGoesOn(sh: Shared, t: Tid, th: Thread, c: Choice, o: Option<Outcome>)
    requires CanStep(sh, th, c) && ThreadRel(sh.files, o, th) && th.req.command == GET
    requires GetPc(th.pc) || th.pc.Unlock?
    ensures var (sh', th') := Step(sh, t, th, c);
      && sh'.files == sh.files && ThreadRel(sh'.files, o, th') && th'.req == th.req
      && (GetPc(th'.pc) || th'.pc.Unlock? || th'.pc.Done?)
  {
    hide GetStep, ThreadRel;
    if GetPc(th.pc) {
      GetFrame(sh.files, th, c);
      GetRel(sh.files, o, th, c);
    } else {
      AnsweredStays(sh.files, o, th);
    }
  }

  lemma AnsweredStays(files: Files, o: Option<Outcome>, th: Thread)
    requires th.pc.Unlock? && ThreadRel(files, o, th)
    ensures ThreadRel(files, o, th.(pc := Done))
  {
  }

  // ---------------------------------------------------------------- what it gives

  /** A thread that has its request and its node, and next takes its lock. */
  predicate AtLock(th: Thread, command: Command) {
    && th.pc.WantLock? && th.req.command == command && th.inbox == th.body && th.sent == []
    && (command == WRITE ==> |th.body| == th.req.dataLen)
  }

  /** A WRITE alone leaves the files and directories that the handler does, with its reply. */
  lemma SoloWrite(sh: Shared, t: Tid, th: Thread, cs: seq<Choice>)
    requires AtLock(th, WRITE) && Alone(sh, t, th, cs) && AloneEnd(sh, t, th, cs).1.pc.Done?
    ensures var (sh', th') := AloneEnd(sh, t, th, cs);
      && sh'.files == AfterWrite(sh.files, th.req.path, sh.clock, th.body)
      && sh'.dirs == Directories.AfterNested(sh.dirs, Directory(th.req.path))
      && sh'.folders == sh.folders + (if User(th.req.path) in sh.files then {Directory(th.req.path)} else {})
      && th'.reply == Some(Reply(true, MNone, 0))
  {
    hide WriteStep, GetStep, RemoveStep, AfterWrite, AfterSave, Directory, Directories.AfterNested;
    var (sh1, th1) := Step(sh, t, th, cs[0]);
    WriteEnds(sh, sh1, t, th1, cs[1..]);
  }

  /** An RM alone removes what the handler does, with its reply. */
  lemma SoloRemove(sh: Shared, t: Tid, th: Thread, cs: seq<Choice>)
    requires AtLock(th, RM) && Alone(sh, t, th, cs) && AloneEnd(sh, t, th, cs).1.pc.Done?
    requires FoldersOk(sh)
    ensures var (sh', th') := AloneEnd(sh, t, th, cs);
      sh'.files == AfterRemove(sh.files, th.req.path) && th'.reply == Some(RemoveReply(sh.files, th.req.path))
  {
    hide WriteStep, GetStep, RemoveStep, AfterRemove, RemoveReply, Directory;
    var (sh1, th1) := Step(sh, t, th, cs[0]);
    RemoveEnds(sh.files, sh1, t, th1, cs[1..]);
  }

  /** A GET alone changes no file, and sends what the handler does, with its reply. */
  lemma SoloGet(sh: Shared, t: Tid, th: Thread, cs: seq<Choice>)
    requires AtLock(th, GET) && Alone(sh, t, th, cs) && AloneEnd(sh, t, th, cs).1.pc.Done?
    ensures var (sh', th') := AloneEnd(sh, t, th, cs);
      && sh'.files == sh.files
      && th'.reply == Some(GetReply(sh.files, th.req.path))
      && th'.sent == ContentsOf(sh.files, User(th.req.path))
  {
    hide Step, CanStep, ThreadRel;
    var (sh1, th1) := Step(sh, t, th, cs[0]);
    var o := FileAt(sh.files, User(th.req.path));
    GetStarts(sh, t, th, cs[0]);
    GetEnds(sh1, t, th1, cs[1..], Some(Fetched(o)));
    GetAnswered(sh.files, AloneEnd(sh1, t, th1, cs[1..]).1);
  }

  lemma GetStarts(sh: Shared, t: Tid, th: Thread, c: Choice)
    requires AtLock(th, GET) && CanStep(sh, th, c)
    ensures var (sh', th') := Step(sh, t, th, c);
      && sh'.files == sh.files && th'.req == th.req && th'.pc.GSize?
      && ThreadRel(sh'.files, Some(Fetched(FileAt(sh.files, User(th.req.path)))), th')
  {
    hide WriteStep, GetStep, RemoveStep;
  }

  lemma GetAnswered(files: Files, th: Thread)
    requires th.pc.Done? && ThreadRel(files, Some(Fetched(FileAt(files, User(th.req.path)))), th)
    ensures th.reply == Some(GetReply(files, th.req.path)) && th.sent == ContentsOf(files, User(th.req.path))
  {
  }
}
