/**
 Publication of an exchange document (internal/exchangefile/publish.go): a temporary
 is written, synchronised, closed, and renamed without replacing anything, with a
 hook before and after each step and cleanup that runs on every way out.
 */
module ExchangeFile {
  import opened ByteCoding

  type Name = string

  datatype Stage = Write | FileSync | Close | Rename | DirectorySync

  /** Where something outside may fail: a hook, an action, or cleanup. */
  datatype Point =
    | Before(stage: Stage)
    | Action(stage: Stage)
    | After(stage: Stage)
    | ResolveDestination
    | OpenParent
    | ReadRandom
    | CreateTemporary
    | ParentMoved
    | UnlinkTemporary
    | CloseParent

  class Directory {
    var files: map<Name, seq<Byte>>

    constructor (files: map<Name, seq<Byte>>)
      ensures this.files == files
    {
      this.files := files;
    }

    method Put(name: Name, contents: seq<Byte>)
      modifies this
      ensures files == old(files)[name := contents]
    {
      files := files[name := contents];
    }

    method Unlink(name: Name)
      modifies this
      ensures files == old(files) - {name}
    {
      files := files - {name};
    }

    /** An exclusive rename: it fails rather than replace. */
    method RenameNoReplace(from: Name, to: Name) returns (ok: bool)
      requires from in files
      modifies this
      ensures ok <==> to !in old(files)
      ensures files == if ok then (old(files) - {from})[to := old(files)[from]] else old(files)
    {
      if to in files { return false; }
      files := (files - {from})[to := files[from]];
      return true;
    }
  }

  /**
   One attempt: the points that fail, how many bytes the write reports, and from
   which of its four observations on the context is cancelled.
   */
  datatype Attempt = Attempt(leaf: Name, temporary: Name, data: seq<Byte>, failing: set<Point>, written: nat,
      cancelledFrom: nat)
  {
    predicate Fails(p: Point) { p in failing }

    predicate Cancelled(observation: nat) { observation >= cancelledFrom }

    /** What stands between the call and the exclusive rename. */
    predicate Prevented() {
      || Cancelled(2) || written != |data|
      || exists p | p in failing ::
           p == ResolveDestination || p == OpenParent || p == ReadRandom || p == CreateTemporary || p == ParentMoved
           || p == Before(Write) || p == Action(Write) || p == After(Write)
           || p == Before(FileSync) || p == Action(FileSync) || p == After(FileSync)
           || p == Before(Close) || p == Action(Close) || p == After(Close)
           || p == Before(Rename) || p == Action(Rename)
    }

    /** What can still go wrong after it. */
    predicate Spoiled() {
      || Cancelled(3) || After(Rename) in failing
      || Before(DirectorySync) in failing || Action(DirectorySync) in failing || After(DirectorySync) in failing
      || CloseParent in failing
    }
  }

  /**
   `Published` is the truth about the destination: it holds exactly when nothing
   prevented the rename and no file of that name was there, and then the destination
   holds precisely the data and nothing else changed. Otherwise nothing changed but a
   temporary that could not be removed, and that is an error. No error means published.
   */
  method Publish(directory: Directory, a: Attempt) returns (published: bool, ok: bool)
    requires a.written <= |a.data|
    modifies directory
    ensures published <==>
        !a.Prevented() && a.leaf !in old(directory.files) && a.temporary !in old(directory.files)
        && a.leaf != a.temporary
    ensures published ==> directory.files == old(directory.files)[a.leaf := a.data]
    ensures !published ==>
              || directory.files == old(directory.files)
              || (directory.files == old(directory.files)[a.temporary := a.data[..a.written]]
                   && a.temporary !in old(directory.files)
                  && UnlinkTemporary in a.failing)
              || (directory.files == old(directory.files)[a.temporary := []] && a.temporary !in old(directory.files)
                  && UnlinkTemporary in a.failing)
    ensures ok <==> published && !a.Spoiled()
  {
    if a.Cancelled(0) || a.Fails(ResolveDestination) || a.Fails(OpenParent) { return false, false; }
    published, ok := PublishOpened(directory, a);
    if a.Fails(CloseParent) { ok := false; }
  }

  /** Everything under the open parent. */
  method PublishOpened(directory: Directory, a: Attempt) returns (published: bool, ok: bool)
    requires a.written <= |a.data| && !a.Cancelled(0) && !a.Fails(ResolveDestination) && !a.Fails(OpenParent)
    modifies directory
    ensures published <==>
        !a.Prevented() && a.leaf !in old(directory.files) && a.temporary !in old(directory.files)
        && a.leaf != a.temporary
    ensures published ==> directory.files == old(directory.files)[a.leaf := a.data]
    ensures !published ==>
              || directory.files == old(directory.files)
              || (directory.files == old(directory.files)[a.temporary := a.data[..a.written]]
                   && a.temporary !in old(directory.files)
                  && UnlinkTemporary in a.failing)
              || (directory.files == old(directory.files)[a.temporary := []] && a.temporary !in old(directory.files)
                  && UnlinkTemporary in a.failing)
    ensures ok ==> published
    ensures published ==> (ok <==> !a.(failing := a.failing - {CloseParent}).Spoiled())
  {
    if a.Fails(ReadRandom) || a.Fails(CreateTemporary) || a.temporary in directory.files { return false, false; }
    directory.Put(a.temporary, []);
    var written := WriteTemporary(directory, a);
    published, ok := false, false;
    if written && !a.Cancelled(1) && !a.Fails(ParentMoved) {
      published, ok := Commit(directory, a);
    }
    // The deferred cleanup: an open file is closed, an existing temporary removed.
    if !published {
      if !a.Fails(UnlinkTemporary) {
        directory.Unlink(a.temporary);
        assert directory.files == old(directory.files);
      }
      return false, false;
    }
  }

  /** Write, sync and close; the temporary is left open or closed, but there. */
  method WriteTemporary(directory: Directory, a: Attempt) returns (ok: bool)
    requires a.written <= |a.data| && a.temporary in directory.files && directory.files[a.temporary] == []
    modifies directory
    ensures directory.files == old(directory.files)[a.temporary := a.data[..a.written]]
        || (!ok && directory.files == old(directory.files))
    ensures ok ==> directory.files[a.temporary] == a.data
    ensures ok <==> a.written == |a.data|
                    && !a.Fails(Before(Write)) && !a.Fails(Action(Write)) && !a.Fails(After(Write))
                    && !a.Fails(Before(FileSync)) && !a.Fails(Action(FileSync)) && !a.Fails(After(FileSync))
                    && !a.Fails(Before(Close)) && !a.Fails(Action(Close)) && !a.Fails(After(Close))
  {
    if a.Fails(Before(Write)) { return false; }
    directory.Put(a.temporary, a.data[..a.written]);
    if a.Fails(Action(Write)) || a.written != |a.data| || a.Fails(After(Write)) { return false; }
    if a.Fails(Before(FileSync)) || a.Fails(Action(FileSync)) || a.Fails(After(FileSync)) { return false; }
    if a.Fails(Before(Close)) || a.Fails(Action(Close)) || a.Fails(After(Close)) { return false; }
    return true;
  }

  /** The publish step and what follows it; cancellation is observed last before the rename. */
  method Commit(directory: Directory, a: Attempt) returns (published: bool, ok: bool)
    requires a.temporary in directory.files && directory.files[a.temporary] == a.data
    modifies directory
    ensures published <==>
        !a.Fails(Before(Rename)) && !a.Cancelled(2) && !a.Fails(Action(Rename)) && a.leaf !in old(directory.files)
    ensures directory.files == if published then (old(directory.files) - {a.temporary})[a.leaf := a.data]
        else old(directory.files)
    ensures ok <==> published && !a.Fails(After(Rename)) && !a.Cancelled(3)
                    && !a.Fails(Before(DirectorySync)) && !a.Fails(Action(DirectorySync))
                         && !a.Fails(After(DirectorySync))
  {
    if a.Fails(Before(Rename)) || a.Cancelled(2) || a.Fails(Action(Rename)) { return false, false; }
    var renamed := directory.RenameNoReplace(a.temporary, a.leaf);
    if !renamed { return false, false; }
    published, ok := true, !a.Fails(After(Rename));
    // Durability is attempted even when the hook after the rename failed.
    if a.Fails(Before(DirectorySync)) || a.Fails(Action(DirectorySync))
        || a.Fails(After(DirectorySync)) { ok := false; }
    if a.Cancelled(3) { ok := false; }
  }
}
