/**
 * Writing several files as one: every file is snapshotted first, and a write
 * that fails makes the transaction put all of them back.
 */
module FileTransactions {
  import opened Wrappers

  /** The files of a disk: a path that is not a key is a file that does not exist. */
  type Disk<P(==), C> = map<P, C>

  /** A new content for a path, or none to remove the file. */
  datatype Mutation<P, C> = Mutation(path: P, content: Option<C>)

  /** A file operation works, or fails and leaves whatever it leaves at its own path. */
  datatype Attempt<C> = Succeeds | Fails(left: Option<C>)

  datatype Outcome = Committed | Compensated | PartlyCompensated

  function Get<P(==,!new), C>(disk: Disk<P, C>, path: P): Option<C> {
    if path in disk then Some(disk[path]) else None
  }

  function Put<P(==,!new), C>(disk: Disk<P, C>, path: P, content: Option<C>): (r: Disk<P, C>)
    ensures Get(r, path) == content
    ensures forall p :: p != path ==> Get(r, p) == Get(disk, p)
  {
    match content
    case Some(c) => disk[path := c]
    case None => disk - {path}
  }

  /** One file operation under what becomes of it. */
  function Perform<P(==,!new), C>(disk: Disk<P, C>, file: Mutation<P, C>, attempt: Attempt<C>): Disk<P, C> {
    Put(disk, file.path, if attempt.Succeeds? then file.content else attempt.left)
  }

  function Snapshots<P(==,!new), C>(disk: Disk<P, C>, files: seq<Mutation<P, C>>): (r: seq<Mutation<P, C>>)
    ensures |r| == |files|
    ensures forall i :: 0 <= i < |r| ==> r[i] == Mutation(files[i].path, Get(disk, files[i].path))
  {
    seq(|files|, i requires 0 <= i < |files| => Mutation(files[i].path, Get(disk, files[i].path)))
  }

  /** The forward pass stops at the first failure. */
  function WriteAll<P(==,!new), C>(disk: Disk<P, C>, files: seq<Mutation<P, C>>, writes: seq<Attempt<C>>): (Disk<P, C>, bool)
    requires |writes| == |files|
    decreases |files|
  {
    if files == [] then (disk, true)
    else
      var next := Perform(disk, files[0], writes[0]);
      if writes[0].Fails? then (next, false) else WriteAll(next, files[1..], writes[1..])
  }

  /** The compensation tries every snapshot, last one first, whatever became of the others. */
  function RestoreAll<P(==,!new), C>(disk: Disk<P, C>, snapshots: seq<Mutation<P, C>>, restores: seq<Attempt<C>>): Disk<P, C>
    requires |restores| == |snapshots|
    decreases |snapshots|
  {
    if snapshots == [] then disk
    else
      var last := |snapshots| - 1;
      RestoreAll(Perform(disk, snapshots[last], restores[last]), snapshots[..last], restores[..last])
  }

  predicate AllSucceed<C>(attempts: seq<Attempt<C>>) {
    forall i :: 0 <= i < |attempts| ==> attempts[i].Succeeds?
  }

  function Transact<P(==,!new), C>(
    disk: Disk<P, C>,
    files: seq<Mutation<P, C>>,
    writes: seq<Attempt<C>>,
    restores: seq<Attempt<C>>): (Disk<P, C>, Outcome)
    requires |writes| == |files| && |restores| == |files|
  {
    var written := WriteAll(disk, files, writes);
    if written.1 then (written.0, Committed)
    else
      (RestoreAll(written.0, Snapshots(disk, files), restores),
       if AllSucceed(restores) then Compensated else PartlyCompensated)
  }

  predicate Listed<P(==,!new), C>(files: seq<Mutation<P, C>>, path: P) {
    exists i :: 0 <= i < |files| && files[i].path == path
  }

  predicate DistinctPaths<P(==,!new), C>(files: seq<Mutation<P, C>>) {
    forall i, j :: 0 <= i < j < |files| ==> files[i].path != files[j].path
  }

  lemma SameFiles<P(!new), C>(a: Disk<P, C>, b: Disk<P, C>)
    requires forall p :: Get(a, p) == Get(b, p)
    ensures a == b
  {
    assert forall p :: p in a <==> Get(a, p).Some?;
    assert forall p :: p in b <==> Get(b, p).Some?;
    assert forall p :: p in a ==> Get(a, p) == Some(a[p]) && Get(b, p) == Some(b[p]);
  }

  lemma {:induction false} WriteAllTouchesListed<P(!new), C>(
    disk: Disk<P, C>, files: seq<Mutation<P, C>>, writes: seq<Attempt<C>>, path: P)
    requires |writes| == |files| && !Listed(files, path)
    ensures Get(WriteAll(disk, files, writes).0, path) == Get(disk, path)
    decreases |files|
  {
    if files != [] {
      assert files[0].path != path;
      assert forall i :: 0 <= i < |files[1..]| ==> files[1..][i] == files[i + 1];
      WriteAllTouchesListed(Perform(disk, files[0], writes[0]), files[1..], writes[1..], path);
    }
  }

  lemma {:induction false} RestoreAllTouchesListed<P(!new), C>(
    disk: Disk<P, C>, snapshots: seq<Mutation<P, C>>, restores: seq<Attempt<C>>, path: P)
    requires |restores| == |snapshots| && !Listed(snapshots, path)
    ensures Get(RestoreAll(disk, snapshots, restores), path) == Get(disk, path)
    decreases |snapshots|
  {
    if snapshots != [] {
      var last := |snapshots| - 1;
      assert snapshots[last].path != path;
      assert forall i :: 0 <= i < last ==> snapshots[..last][i] == snapshots[i];
      RestoreAllTouchesListed(Perform(disk, snapshots[last], restores[last]), snapshots[..last], restores[..last], path);
    }
  }

  /** What the last restore of a path leaves there. */
  lemma {:induction false} RestoreAllLeaves<P(!new), C>(
    disk: Disk<P, C>, snapshots: seq<Mutation<P, C>>, restores: seq<Attempt<C>>, i: nat)
    requires |restores| == |snapshots| && i < |snapshots|
    requires forall j :: 0 <= j < i ==> snapshots[j].path != snapshots[i].path
    ensures Get(RestoreAll(disk, snapshots, restores), snapshots[i].path)
      == if restores[i].Succeeds? then snapshots[i].content else restores[i].left
    decreases |snapshots|
  {
    var last := |snapshots| - 1;
    var next := Perform(disk, snapshots[last], restores[last]);
    if i == last {
      RestoreAllTouchesListed(next, snapshots[..last], restores[..last], snapshots[i].path);
    } else {
      RestoreAllLeaves(next, snapshots[..last], restores[..last], i);
    }
  }

  function FirstListing<P(==,!new), C>(files: seq<Mutation<P, C>>, path: P): (i: nat)
    requires Listed(files, path)
    ensures i < |files| && files[i].path == path
    ensures forall j :: 0 <= j < i ==> files[j].path != path
  {
    if files[0].path == path then 0
    else
      assert forall j :: 0 < j < |files| ==> files[1..][j - 1] == files[j];
      FirstListing(files[1..], path) + 1
  }

  /**
   * A failed transaction whose restores all work leaves the disk exactly as it
   * was, wherever the failure struck and whatever it left behind.
   */
  lemma CompensationRestoresTheDisk<P(!new), C>(
    disk: Disk<P, C>, files: seq<Mutation<P, C>>, writes: seq<Attempt<C>>, restores: seq<Attempt<C>>)
    requires |writes| == |files| && |restores| == |files|
    requires AllSucceed(restores)
    ensures Transact(disk, files, writes, restores).1.Committed? <==> AllSucceed(writes)
    ensures !AllSucceed(writes) ==> Transact(disk, files, writes, restores) == (disk, Compensated)
  {
    CommittedExactly(disk, files, writes);
    if !AllSucceed(writes) {
      var snapshots := Snapshots(disk, files);
      var written := WriteAll(disk, files, writes).0;
      var after := RestoreAll(written, snapshots, restores);
      forall p
        ensures Get(after, p) == Get(disk, p)
      {
        if Listed(files, p) {
          RestoreAllLeaves(written, snapshots, restores, FirstListing(files, p));
        } else {
          WriteAllTouchesListed(disk, files, writes, p);
          RestoreAllTouchesListed(written, snapshots, restores, p);
        }
      }
      SameFiles(after, disk);
    }
  }

  lemma {:induction false} CommittedExactly<P(!new), C>(disk: Disk<P, C>, files: seq<Mutation<P, C>>, writes: seq<Attempt<C>>)
    requires |writes| == |files|
    ensures WriteAll(disk, files, writes).1 <==> AllSucceed(writes)
    decreases |files|
  {
    if files != [] {
      CommittedExactly(Perform(disk, files[0], writes[0]), files[1..], writes[1..]);
      assert forall i :: 0 < i < |writes| ==> writes[i] == writes[1..][i - 1];
    }
  }

  /** A failed restore damages its own file only, and every other listed file is back. */
  lemma FailedRestoresDamageTheirOwnFile<P(!new), C>(
    disk: Disk<P, C>, files: seq<Mutation<P, C>>, writes: seq<Attempt<C>>, restores: seq<Attempt<C>>)
    requires |writes| == |files| && |restores| == |files|
    requires DistinctPaths(files) && !AllSucceed(writes)
    ensures
      var after := Transact(disk, files, writes, restores).0;
      && (forall i :: 0 <= i < |files| ==>
        Get(after, files[i].path) == if restores[i].Succeeds? then Get(disk, files[i].path) else restores[i].left)
      && (forall p :: !Listed(files, p) ==> Get(after, p) == Get(disk, p))
  {
    CommittedExactly(disk, files, writes);
    var snapshots := Snapshots(disk, files);
    var written := WriteAll(disk, files, writes).0;
    var after := RestoreAll(written, snapshots, restores);
    forall i | 0 <= i < |files|
      ensures Get(after, files[i].path) == if restores[i].Succeeds? then Get(disk, files[i].path) else restores[i].left
    {
      RestoreAllLeaves(written, snapshots, restores, i);
    }
    forall p | !Listed(files, p)
      ensures Get(after, p) == Get(disk, p)
    {
      WriteAllTouchesListed(disk, files, writes, p);
      RestoreAllTouchesListed(written, snapshots, restores, p);
    }
  }

  /** A committed transaction has written each file of its list and nothing else. */
  lemma {:induction false} CommitWritesTheList<P(!new), C>(disk: Disk<P, C>, files: seq<Mutation<P, C>>, writes: seq<Attempt<C>>)
    requires |writes| == |files| && DistinctPaths(files) && AllSucceed(writes)
    ensures
      var after := WriteAll(disk, files, writes).0;
      && (forall i :: 0 <= i < |files| ==> Get(after, files[i].path) == files[i].content)
      && (forall p :: !Listed(files, p) ==> Get(after, p) == Get(disk, p))
    decreases |files|
  {
    forall p | !Listed(files, p)
      ensures Get(WriteAll(disk, files, writes).0, p) == Get(disk, p)
    {
      WriteAllTouchesListed(disk, files, writes, p);
    }
    if files != [] {
      var next := Perform(disk, files[0], writes[0]);
      assert forall i :: 0 < i < |files| ==> files[i] == files[1..][i - 1];
      CommitWritesTheList(next, files[1..], writes[1..]);
      assert !Listed(files[1..], files[0].path);
      WriteAllTouchesListed(next, files[1..], writes[1..], files[0].path);
    }
  }
}
