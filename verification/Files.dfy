// The few file operations the transfer runtime relies on, and the commit of a
// finished partial file (internal/agentd/transfer_runtime.go). A file system
// is a map from path to bytes; no other process touches it.
module Files {
  import opened Wrappers
  import opened ChunkCrypto
  import opened Frames

  type Disk = map<string, Bytes>

  // What becomes of the partial file once it has been committed: it is removed,
  // it is left where it is because it cannot be recognised again, or its
  // removal fails.
  datatype Dropping = Dropped | Skipped | Refused

  // What goes wrong during a commit, if anything: at most the first matters,
  // and then whether the new destination can be removed again.
  datatype CommitFaults = CommitFaults(torn: Option<nat>, closeFails: bool, verifyFails: bool, cleanupFails: bool,
                                       drop: Dropping)

  // The destination holding the first n bytes of the partial file.
  function CopyOf(d: Disk, partial: string, destination: string, n: nat): Disk
    requires partial in d
  {
    d[destination := d[partial][..if n < |d[partial]| then n else |d[partial]|]]
  }

  predicate Describes(m: Manifest, digest: Hash, data: Bytes) { |data| == m.totalBytes && digest(data) == m.sha256Hex }

  // commitDestinationNoReplace on a disk.
  function CommitOutcome(d: Disk, partial: string, destination: string, m: Manifest, digest: Hash, f: CommitFaults)
    : (Disk, Option<P2PError>)
  {
    if partial !in d then (d, Some(FileMissing))
    else if destination in d then (d, Some(FileExists))
    else
      var n := if f.torn.Some? then f.torn.value else |d[partial]|;
      var copied := CopyOf(d, partial, destination, n);
      var failed := if f.cleanupFails then copied else d;
      if f.torn.Some? then (failed, Some(TransferFailed))
      else if !Describes(m, digest, d[partial]) then (failed, Some(ManifestMismatch))
      else if f.closeFails || f.verifyFails then (failed, Some(TransferFailed))
      else match f.drop
        case Dropped => (copied - {partial}, None)
        case Skipped => (copied, None)
        case Refused => (copied, Some(TransferFailed))
  }

  // A commit never replaces anything: it succeeds only where nothing was, with
  // exactly the verified bytes, and whatever happens the only paths it can
  // change are the new destination and the partial it consumes, which is left
  // in place exactly when it is not recognised again. What it can
  // leave behind when it fails is some beginning of the partial: a part of it
  // exactly when the copy was cut short and could not be removed again.
  lemma CommitNeverReplaces(d: Disk, partial: string, destination: string, m: Manifest, digest: Hash, f: CommitFaults)
    requires partial != destination
    ensures var (t, e) := CommitOutcome(d, partial, destination, m, digest, f);
      && t - {partial, destination} == d - {partial, destination}
      && (destination in d ==> e.Some? && t == d)
      && (e == None ==>
            && partial in d && destination in t && t[destination] == d[partial]
            && (partial in t <==> f.drop.Skipped?) && (partial in t ==> t[partial] == d[partial])
            && Describes(m, digest, t[destination]))
      && (e.Some? ==> partial in d ==> partial in t && t[partial] == d[partial])
      && (destination !in d && destination in t ==>
            && partial in d && t[destination] <= d[partial]
            && (t[destination] != d[partial] <==> f.cleanupFails && f.torn.Some? && f.torn.value < |d[partial]|)
            && (e.Some? && !f.cleanupFails ==> f.drop.Refused? && Describes(m, digest, t[destination])))
      && (destination !in d && partial in d && f.cleanupFails && f.torn.Some? ==> destination in t)
  {
    if partial in d { assert d[partial][..|d[partial]|] == d[partial]; }
  }

  // When it succeeds, which error it gives otherwise, and what it leaves on the
  // disk each time.
  lemma CommitsExactly(d: Disk, partial: string, destination: string, m: Manifest, digest: Hash, f: CommitFaults)
    requires partial != destination
    ensures var (t, e) := CommitOutcome(d, partial, destination, m, digest, f);
      var begun := partial in d && destination !in d;
      var described := partial in d && |d[partial]| == m.totalBytes && digest(d[partial]) == m.sha256Hex;
      var copied := begun && f.torn.None? && described && !f.closeFails && !f.verifyFails;
      && (e.None? <==> copied && !f.drop.Refused?)
      && (e.Some? ==>
            e.value == if partial !in d then FileMissing
                       else if destination in d then FileExists
                       else if f.torn.Some? then TransferFailed
                       else if !described then ManifestMismatch
                       else TransferFailed)
      && (!begun ==> t == d)
      && (begun && !copied && !f.cleanupFails ==> t == d)
      && (begun && !copied && f.cleanupFails ==>
            && t - {destination} == d && destination in t
            && t[destination] == if f.torn.Some? && f.torn.value < |d[partial]| then d[partial][..f.torn.value] else d[partial])
      && (copied ==> destination in t && t[destination] == d[partial]
                     && t - {destination} == if f.drop.Dropped? then d - {partial} else d)
  {
    if partial in d { assert d[partial][..|d[partial]|] == d[partial]; }
  }

  class FileStore {
    var files: Disk

    constructor ()
      ensures files == map[]
    {
      files := map[];
    }

    // os.OpenFile with O_CREATE|O_EXCL.
    method CreateExclusive(path: string) returns (created: bool)
      modifies this
      ensures created <==> path !in old(files)
      ensures files == if created then old(files)[path := []] else old(files)
    {
      if path in files { return false; }
      files := files[path := []];
      return true;
    }

    method Append(path: string, data: Bytes)
      requires path in files
      modifies this
      ensures files == old(files)[path := old(files)[path] + data]
    {
      files := files[path := files[path] + data];
    }

    method Truncate(path: string, size: nat)
      requires path in files && size <= |files[path]|
      modifies this
      ensures files == old(files)[path := old(files)[path][..size]]
    {
      files := files[path := files[path][..size]];
    }

    method Remove(path: string)
      modifies this
      ensures files == old(files) - {path}
    {
      files := files - {path};
    }

    // commitDestinationNoReplace: exclusive create, copy under a running
    // digest, re-read and compare, then drop the partial. Whatever fails
    // before the end removes the destination again, if that can be done.
    method CommitDestinationNoReplace(partial: string, destination: string, m: Manifest, digest: Hash, f: CommitFaults)
      returns (e: Option<P2PError>)
      requires partial != destination
      modifies this
      ensures (files, e) == CommitOutcome(old(files), partial, destination, m, digest, f)
    {
      if partial !in files { return Some(FileMissing); }
      var created := CreateExclusive(destination);
      if !created { return Some(FileExists); }
      assert files - {destination} == old(files);
      var source := files[partial];
      var n := if f.torn.Some? && f.torn.value < |source| then f.torn.value else |source|;
      var copied := source[..n];
      Append(destination, copied);
      assert [] + copied == copied;
      e := None;
      if f.torn.Some? {
        e := Some(TransferFailed);
      } else {
        assert copied == source;
        if |copied| != m.totalBytes || digest(copied) != m.sha256Hex {
          e := Some(ManifestMismatch);
        } else if f.closeFails || f.verifyFails {
          e := Some(TransferFailed);
        } else {
          var again := files[destination];
          if |again| != m.totalBytes || digest(again) != m.sha256Hex {
            e := Some(ManifestMismatch);
          }
        }
      }
      assert files == CopyOf(old(files), partial, destination, n);
      if e.Some? {
        if f.cleanupFails { return e; }
        Remove(destination);
        assert files == old(files);
        return e;
      }
      match f.drop {
        case Dropped => Remove(partial);
        case Skipped =>
        case Refused => return Some(TransferFailed);
      }
    }
  }
}
