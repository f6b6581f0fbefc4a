/** The file-sharing widget: uploading one chosen file into the shared file list (with an
    "uploading" flag raised while the transfer runs) and deleting a file by id. */
module FileSharing {
  import opened Util
  import opened Store

  /** New file ids are the prefix and the upload instant in milliseconds. */
  const FileIdPrefix: string := "file-"

  /** The record kept for a file named `name` uploaded at instant `now`, whose object URL is
      `url`. */
  function NewRecord(name: string, url: string, current: Option<TeamMember>, now: nat): (f: FileRecord)
    ensures f.id == StampedId(FileIdPrefix, now) && f.name == name && f.url == url
    ensures f.uploadedBy == NameOrUnknown(current) && f.uploadedAt == now
  {
    FileRecord(StampedId(FileIdPrefix, now), name, url, NameOrUnknown(current), now)
  }

  /** `handleFileDelete`: every file with the id goes, the rest keep their order. */
  function WithoutFile(files: seq<FileRecord>, id: string): (r: seq<FileRecord>)
    ensures forall f :: f in r <==> f in files && f.id != id
    ensures forall f :: multiset(r)[f] == if f.id != id then multiset(files)[f] else 0
    ensures IsSubseq(r, files)
  {
    Filter(files, (f: FileRecord) => f.id != id)
  }

  /** Deleting a file just uploaded under a fresh id gives back the list before the upload. */
  lemma {:induction false} DeleteUndoesUpload(files: seq<FileRecord>, f: FileRecord)
    requires forall g :: g in files ==> g.id != f.id
    ensures WithoutFile(files + [f], f.id) == files
  {
    var p := (g: FileRecord) => g.id != f.id;
    FilterConcat(files, [f], p);
    FilterKeepsAll(files, p);
    assert [f][..0] == [];
  }

  class FileSharing {
    const store: AppStore
    var uploading: bool

    constructor (store: AppStore)
      ensures this.store == store && !uploading
    {
      this.store := store;
      uploading := false;
    }

    /** First half of `handleFileUpload`: with no file chosen nothing happens; otherwise the
        flag goes up and the transfer starts. The handler sees the signed-in user of the
        render it was created in, so that user is captured here. */
    method BeginUpload(chosen: Option<string>) returns (started: bool, user: Option<TeamMember>)
      modifies this
      ensures started <==> chosen.Some?
      ensures user == store.currentUser
      ensures uploading == (old(uploading) || chosen.Some?)
    {
      user := store.currentUser;
      if chosen.None? {
        return false, user;
      }
      uploading := true;
      started := true;
    }

    /** Second half, after the transfer: the record, naming the user captured when the
        upload began, is appended and the flag goes down. */
    method FinishUpload(name: string, url: string, user: Option<TeamMember>, now: nat)
      modifies this, store
      ensures !uploading
      ensures store.State() == old(store.State()).(files := old(store.files) + [NewRecord(name, url, user, now)])
    {
      var f := NewRecord(name, url, user, now);
      store.SetFiles(Updater((prev: seq<FileRecord>) => prev + [f]));
      uploading := false;
    }

    /** `handleFileUpload` run to completion without other events in between. */
    method HandleFileUpload(chosen: Option<string>, url: string, now: nat)
      modifies this, store
      ensures chosen.None? ==> store.State() == old(store.State()) && uploading == old(uploading)
      ensures chosen.Some? ==>
        && !uploading
        && store.State() == old(store.State()).(files := old(store.files) + [NewRecord(chosen.value, url, old(store.currentUser), now)])
    {
      var started, user := BeginUpload(chosen);
      if started {
        FinishUpload(chosen.value, url, user, now);
      }
    }

    /** `handleFileDelete`. */
    method HandleFileDelete(id: string)
      modifies store
      ensures store.State() == old(store.State()).(files := WithoutFile(old(store.files), id))
    {
      store.SetFiles(Updater((prev: seq<FileRecord>) => WithoutFile(prev, id)));
    }
  }
}
