/**
 The three request handlers as they are written, one call at a time over a mutable
 file system, and what one undisturbed call means for the atomic store and the history.
 */
module Handlers {
  import opened Wrappers
  import opened Paths
  import opened Server
  import opened Refinement
  import opened History
  import Directories
  import Locking
  import Parsing
  import Removal
  import Transfer

  // ---------------------------------------------------------------- the files after a call

  function AfterSave(files: Files, path: string, at: nat): Files {
    if User(path) in files then files[Version(path, at) := files[User(path)]] else files
  }

  function AfterWrite(files: Files, path: string, at: nat, body: Bytes): Files {
    AfterSave(files, path, at)[User(path) := body]
  }

  predicate Removes(path: string, k: Key) {
    k == User(path) || (InFolder(k, path) && NameMatches(k, path))
  }

  function AfterRemove(files: Files, path: string): Files {
    if path != "" && User(path) in files then map k | k in files && !Removes(path, k) :: files[k] else files
  }

  /** The replies of calls that nothing disturbs. */
  function GetReply(files: Files, path: string): Reply {
    if User(path) in files then Reply(true, MOk, |files[User(path)]|) else Reply(false, MNoFile, 0)
  }

  function RemoveReply(files: Files, path: string): Reply {
    if path == "" then Reply(false, MNoPath, 0)
    else if User(path) in files then Reply(true, MOk, 0)
    else Reply(false, MNoRemove, 0)
  }

  class FileSystem {
    var files: Files
    var folders: set<string>
    var clock: nat
    const disk: Directories.Disk

    constructor (files: Files, folders: set<string>, clock: nat, disk: Directories.Disk)
      ensures this.files == files && this.folders == folders && this.clock == clock && this.disk == disk
    {
      this.files, this.folders, this.clock, this.disk := files, folders, clock, disk;
    }

    /** Version entries live in existing folders. */
    ghost predicate Valid()
      reads this
    {
      forall k :: k in files && k.Version? ==> Directory(k.path) in folders
    }

    method SaveCurrentVersion(path: string) returns (ok: bool)
      requires Valid()
      modifies this
      ensures Valid() && ok && clock == old(clock)
      ensures files == AfterSave(old(files), path, clock)
      ensures folders == old(folders) + if User(path) in old(files) then {Directory(path)} else {}
    {
      hide Directory;
      if User(path) !in files {
        return true;
      }
      var currFile := new Transfer.InputFile(files[User(path)]);
      var version := Version(path, clock);
      folders := folders + {Directory(path)};
      var newFile := new Transfer.OutputFile();
      ok := Transfer.CopyFile(currFile, newFile);
      assert newFile.contents == currFile.contents[0..] == currFile.contents;
      files := files[version := newFile.contents];
    }

    /** Makes the missing directories, saves what was there, then puts the `dataLen` bytes on the wire in its place. */
    method HandleWriteRequest(path: string, dataLen: nat, socket: Transfer.Socket) returns (reply: Reply)
      requires Valid() && dataLen == |socket.stream| && Parsing.NUL !in path
      modifies this, disk, socket
      ensures Valid() && clock == old(clock)
      ensures disk.dirs == Directories.AfterNested(old(disk.dirs), Directory(path))
      ensures folders == old(folders) + if User(path) in old(files) then {Directory(path)} else {}
      ensures files == AfterWrite(old(files), path, clock, old(socket.stream))
      ensures reply == Reply(true, MNone, 0) && socket.stream == []
    {
      hide Directory;
      NothingAbove(disk.dirs, path);
      var _ := disk.CreateNestedDirectories(Some(path));
      var status := SaveCurrentVersion(path);
      if status {
        var ok, file := Transfer.ReceiveFileContents(dataLen, socket);
        files := files[User(path) := file.contents];
        status := ok;
      }
      reply := Reply(status, MNone, 0);
    }

    /** Announces the size, then sends exactly that many bytes. */
    method HandleGetRequest(path: string, socket: Transfer.Socket) returns (reply: Reply)
      modifies socket
      ensures files == old(files) && reply == GetReply(files, path)
      ensures socket.stream == old(socket.stream) + ContentsOf(files, User(path))
    {
      if User(path) !in files {
        return Reply(false, MNoFile, 0);
      }
      var size := |files[User(path)]|;
      reply := Reply(true, MOk, size);
      var _ := Transfer.SendFileContents(Some(files[User(path)]), size, socket);
    }

    /** Removes the file, then every entry of the version folder that passes the name test. */
    method HandleRemoveRequest(path: string) returns (reply: Reply)
      requires Valid()
      modifies this
      ensures Valid() && folders == old(folders) && clock == old(clock)
      ensures files == AfterRemove(old(files), path)
      ensures reply == RemoveReply(old(files), path)
    {
      hide Directory, NameMatches;
      if |path| == 0 {
        return Reply(false, MNoPath, 0);
      }
      if User(path) !in files {
        return Reply(false, MNoRemove, 0);
      }
      files := files - {User(path)};
      if Directory(path) !in folders {
        return Reply(true, MOk, 0);
      }
      var success := true;
      var entries := set k | k in files && InFolder(k, path);
      while entries != {}
        invariant Valid() && success && folders == old(folders) && clock == old(clock)
        invariant files.Keys <= old(files).Keys && forall k :: k in files ==> files[k] == old(files)[k]
        invariant forall k :: k in old(files) && k !in files ==> Removes(path, k)
        invariant User(path) !in files && forall k :: k in files && Removes(path, k) ==> k in entries
        invariant entries <= files.Keys && forall k :: k in entries ==> InFolder(k, path)
        decreases entries
      {
        var entry :| entry in entries;
        entries := entries - {entry};
        if NameMatches(entry, path) {
          success := success && entry in files;
          files := files - {entry};
        }
      }
      reply := if success then Reply(true, MOk, 0) else Reply(false, MNoHistory, 0);
    }
  }

  lemma NothingAbove(dirs: set<string>, path: string)
    ensures path == "" ==> Directories.AfterNested(dirs, Directory(path)) == dirs
  {
    Directories.NoAncestors("");
  }

  // ---------------------------------------------------------------- what a call means

  lemma StoreOfLookup(files: Files, path: string)
    ensures Lookup(StoreOf(files), path) == FileAt(files, User(path))
  {
    assert User(path) in files <==> path in StoreOf(files);
  }

  lemma SameStore(files: Files, store: map<string, Bytes>)
    requires forall path :: FileAt(files, User(path)) == Lookup(store, path)
    ensures StoreOf(files) == store
  {
    forall path
      ensures Lookup(StoreOf(files), path) == Lookup(store, path)
    {
      StoreOfLookup(files, path);
    }
    assert forall path :: path in StoreOf(files) <==> Lookup(StoreOf(files), path).Some?;
    assert forall path :: path in store <==> Lookup(store, path).Some?;
    forall path | path in store
      ensures StoreOf(files)[path] == store[path]
    {
      assert Lookup(StoreOf(files), path) == Lookup(store, path);
    }
  }

  lemma WriteStores(files: Files, path: string, at: nat, body: Bytes)
    ensures StoreOf(AfterWrite(files, path, at, body)) == StoreOf(files)[path := body]
  {
    var files' := AfterWrite(files, path, at, body);
    forall q
      ensures FileAt(files', User(q)) == Lookup(StoreOf(files)[path := body], q)
    {
      StoreOfLookup(files, q);
    }
    SameStore(files', StoreOf(files)[path := body]);
  }

  lemma WriteExtends(files: Files, path: string, at: nat, body: Bytes)
    requires forall x :: x in Stamps(files, path) ==> x < at
    ensures Timeline(AfterWrite(files, path, at, body), path) == Timeline(files, path) + [body]
  {
    hide Stamps, Saved;
    var files' := AfterWrite(files, path, at, body);
    var stamps := Stamps(files, path);
    SameStamps(AfterSave(files, path, at), files', path);
    SavedFrame(files, files', path, stamps);
    if User(path) in files {
      StampsInsert(files, path, at, files[User(path)]);
      SavedNewest(files', path, stamps, at);
    }
  }

  /** An undisturbed WRITE is the atomic store's, adds the body to its path's history, and nothing to any other. */
  lemma WriteCall(files: Files, path: string, at: nat, body: Bytes, spec: Spec, t: Tid)
    requires spec.store == StoreOf(files)
    requires forall x :: x in Stamps(files, path) ==> x < at
    ensures var files' := AfterWrite(files, path, at, body);
      && StoreOf(files') == Perform(spec, t, OpWrite(path, body)).store
      && Timeline(files', path) == Timeline(files, path) + [body]
      && forall q :: q != path ==> Timeline(files', q) == Timeline(files, q)
  {
    hide Timeline, StoreOf;
    WriteStores(files, path, at, body);
    WriteExtends(files, path, at, body);
    forall q | q != path
      ensures Timeline(AfterWrite(files, path, at, body), q) == Timeline(files, q)
    {
      Spared(files, AfterWrite(files, path, at, body), q);
    }
  }

  /**
   An undisturbed RM is the atomic store's and empties the history of its path; it spares
   the history of another path exactly when none of that path's versions passes the test.
   */
  lemma RemoveCall(files: Files, path: string, spec: Spec, t: Tid, q: string)
    requires spec.store == StoreOf(files) && path != "" && User(path) in files && q != path
    ensures var files' := AfterRemove(files, path);
      && StoreOf(files') == Perform(spec, t, OpRemove(path)).store
      && Timeline(files', path) == []
      && (Timeline(files', q) == Timeline(files, q)
          <==> forall at: nat :: Version(q, at) in files ==> !Removes(path, Version(q, at)))
  {
    hide NameMatches, InFolder;
    var files' := AfterRemove(files, path);
    forall r
      ensures FileAt(files', User(r)) == Lookup(spec.store - {path}, r)
    {
      StoreOfLookup(files, r);
      NotUserEntry(r, path);
    }
    SameStore(files', spec.store - {path});
    forall at: nat
      ensures Version(path, at) !in files'
    {
      Removal.OwnVersionMatches(path, at);
    }
    Emptied(files', path);
    SparedExactly(files, path, q);
  }

  lemma NotUserEntry(r: string, path: string)
    ensures !InFolder(User(r), path)
  {
  }

  lemma SparedExactly(files: Files, path: string, q: string)
    requires path != "" && User(path) in files && q != path
    ensures var files' := AfterRemove(files, path);
      && (Timeline(files', q) == Timeline(files, q)
          <==> forall at: nat :: Version(q, at) in files ==> !Removes(path, Version(q, at)))
  {
    hide NameMatches, InFolder, Timeline;
    var files' := AfterRemove(files, path);
    NotUserEntry(q, path);
    if at: nat :| Version(q, at) in files && Removes(path, Version(q, at)) {
      FewerStamps(files, files', q, at);
    } else {
      Spared(files, files', q);
    }
  }

  lemma Spared(files: Files, files': Files, q: string)
    requires forall k: Key :: k.path == q ==> FileAt(files', k) == FileAt(files, k)
    ensures Timeline(files', q) == Timeline(files, q)
  {
    forall at: nat
      ensures Version(q, at) in files' <==> Version(q, at) in files
      ensures ContentsOf(files', Version(q, at)) == ContentsOf(files, Version(q, at))
    {
      assert FileAt(files', Version(q, at)) == FileAt(files, Version(q, at));
    }
    assert FileAt(files', User(q)) == FileAt(files, User(q));
    SameStamps(files, files', q);
    SavedFrame(files, files', q, Stamps(files, q));
  }

  lemma FewerStamps(files: Files, files': Files, q: string, at: nat)
    requires files'.Keys <= files.Keys && Version(q, at) in files && Version(q, at) !in files'
    requires FileAt(files', User(q)) == FileAt(files, User(q))
    ensures Timeline(files', q) != Timeline(files, q)
  {
    SavedCount(files, q, Stamps(files, q));
    SavedCount(files', q, Stamps(files', q));
    InStamps(files, q, at);
    InStamps(files', q, at);
    forall x | x in Stamps(files', q)
      ensures x in Stamps(files, q) - {at}
    {
      InStamps(files', q, x);
      InStamps(files, q, x);
    }
    Locking.SubsetSize(Stamps(files', q), Stamps(files, q) - {at});
  }
}
