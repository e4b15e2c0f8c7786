/** The agent's rotating log. File 0 is the one being written, file 1 the newest old one and file
    `keep` the oldest. A file is kept as the writes it holds, in order. */
module LogFile {

  type Write = string
  type Contents = seq<Write>
  type Files = map<nat, Contents>

  function Length(c: Contents): nat {
    if c == [] then 0 else Length(c[..|c| - 1]) + |c[|c| - 1]|
  }

  function Get(files: Files, i: nat): Contents {
    if i in files then files[i] else []
  }

  /** Files i down to 1, oldest first. */
  function Old(files: Files, i: nat): Contents {
    if i == 0 then [] else Get(files, i) + Old(files, i - 1)
  }

  /** Everything on disk, oldest first. */
  function OnDisk(files: Files, keep: nat): Contents {
    Old(files, keep) + Get(files, 0)
  }

  /** os.Rename of one numbered file: it replaces the target, and without a source it fails. */
  function Rename(files: Files, from: nat, to: nat): Files {
    if from in files then (files - {from})[to := files[from]] else files
  }

  // ----- what a rename does to the order

  lemma {:induction false} OldFrame(files: Files, other: Files, k: nat)
    requires forall i :: 0 < i <= k ==> Get(files, i) == Get(other, i)
    ensures Old(files, k) == Old(other, k)
  {
    if k > 0 {
      OldFrame(files, other, k - 1);
    }
  }

  /** Moving a file one up into a free place changes nothing in the order. */
  lemma {:induction false} MoveUpKeepsOrder(files: Files, i: nat, k: nat)
    requires 2 <= i <= k && i !in files
    ensures Old(Rename(files, i - 1, i), k) == Old(files, k)
  {
    var next := Rename(files, i - 1, i);
    if k > i {
      MoveUpKeepsOrder(files, i, k - 1);
    } else {
      OldFrame(files, next, i - 2);
      assert Old(files, i) == Get(files, i) + (Get(files, i - 1) + Old(files, i - 2));
      assert Old(next, i) == Get(next, i) + (Get(next, i - 1) + Old(next, i - 2));
    }
  }

  /** Putting the current file aside as file 1 appends it to the old ones. */
  lemma {:induction false} PutAside(files: Files, k: nat)
    requires k >= 1 && 1 !in files
    ensures Old(Rename(files, 0, 1), k) == Old(files, k) + Get(files, 0)
  {
    var next := Rename(files, 0, 1);
    if k == 1 {
      assert Old(next, 1) == Get(next, 1) + Old(next, 0);
      assert Old(files, 1) == Get(files, 1) + Old(files, 0);
    } else {
      PutAside(files, k - 1);
      assert Get(next, k) == Get(files, k);
      assert Get(files, k) + (Old(files, k - 1) + Get(files, 0)) == (Get(files, k) + Old(files, k - 1)) + Get(files, 0);
    }
  }

  // ----- a rotation

  /** The renames i-1 to i, i-2 to i-1, down to 1 to 2. */
  function Shift(files: Files, i: nat): Files
    decreases i
  {
    if i <= 1 then files else Shift(Rename(files, i - 1, i), i - 1)
  }

  /** Within the limit, or all its bytes are one write. */
  predicate Bounded(c: Contents, max: nat) {
    Length(c) <= max || Length(c[..|c| - 1]) == 0
  }

  /** Numbers up to `keep`, each file within the limit or with a single write in it. */
  predicate InBounds(files: Files, keep: nat, max: nat) {
    forall i :: i in files ==> i <= keep && Bounded(files[i], max)
  }

  predicate Numbered(files: Files, keep: nat) {
    forall i :: i in files ==> i <= keep
  }

  /** Into a free place, a shift keeps the order and frees file 1. */
  lemma {:induction false} ShiftKeepsOrder(files: Files, i: nat, keep: nat)
    requires 1 <= i <= keep && i !in files
    ensures var next := Shift(files, i);
      && Old(next, keep) == Old(files, keep) && 1 !in next
      && (0 in next <==> 0 in files) && Get(next, 0) == Get(files, 0)
      && (forall k :: k > i ==> (k in next <==> k in files) && Get(next, k) == Get(files, k))
    decreases i
  {
    if i > 1 {
      MoveUpKeepsOrder(files, i, keep);
      ShiftKeepsOrder(Rename(files, i - 1, i), i - 1, keep);
    }
  }

  lemma {:induction false} ShiftKeepsBounds(files: Files, i: nat, keep: nat, max: nat)
    requires i <= keep
    ensures Numbered(files, keep) ==> Numbered(Shift(files, i), keep)
    ensures InBounds(files, keep, max) ==> InBounds(Shift(files, i), keep, max)
    decreases i
  {
    if i > 1 {
      ShiftKeepsBounds(Rename(files, i - 1, i), i - 1, keep, max);
    }
  }

  /** What a rotation's first renames lose: the oldest file, and only to the one behind it. */
  function Overwritten(files: Files, keep: nat): Contents {
    if keep >= 2 && keep - 1 in files then Get(files, keep) else []
  }

  lemma FirstRename(files: Files, keep: nat)
    requires keep >= 2
    ensures var next := Rename(files, keep - 1, keep);
      && Overwritten(files, keep) + Old(next, keep) == Old(files, keep)
      && keep - 1 !in next && (0 in next <==> 0 in files) && Get(next, 0) == Get(files, 0)
  {
    var next := Rename(files, keep - 1, keep);
    OldFrame(files, next, keep - 2);
    if keep - 1 in files {
      assert Old(next, keep - 1) == Get(next, keep - 1) + Old(next, keep - 2) == Old(files, keep - 2);
      assert Old(next, keep) == Old(files, keep - 1);
    }
  }

  lemma ShiftAll(files: Files, keep: nat)
    requires keep >= 2
    ensures var next := Shift(files, keep);
      && Overwritten(files, keep) + Old(next, keep) == Old(files, keep)
      && 1 !in next && (0 in next <==> 0 in files) && Get(next, 0) == Get(files, 0)
  {
    FirstRename(files, keep);
    ShiftKeepsOrder(Rename(files, keep - 1, keep), keep - 1, keep);
  }

  /** All the renames of a rotation. The last one fails when `stuck`. */
  function Rotated(files: Files, keep: nat, stuck: bool): Files {
    if stuck then Shift(files, keep) else Rename(Shift(files, keep), 0, 1)
  }

  function Lost(files: Files, keep: nat, stuck: bool): Contents {
    if keep >= 2 then Overwritten(files, keep) else if stuck || 0 !in files then [] else Get(files, 1)
  }

  lemma Regroup(a: Contents, b: Contents, c: Contents)
    ensures (a + b) + c == a + (b + c)
  {
  }

  /** What is on disk keeps its order across a rotation and loses at most the oldest file, whole. */
  lemma RotationKeepsOrder(files: Files, keep: nat, stuck: bool)
    requires keep >= 1
    ensures Lost(files, keep, stuck) + OnDisk(Rotated(files, keep, stuck), keep) == OnDisk(files, keep)
    ensures if stuck then Get(Rotated(files, keep, stuck), 0) == Get(files, 0) else 0 !in Rotated(files, keep, stuck)
  {
    var shifted, lost := Shift(files, keep), Lost(files, keep, stuck);
    if keep >= 2 {
      ShiftAll(files, keep);
      if !stuck && 0 in shifted {
        PutAside(shifted, keep);
      }
      Regroup(lost, Old(shifted, keep), Get(files, 0));
    } else {
      var next := Rotated(files, 1, stuck);
      assert Old(files, 1) == Get(files, 1) + Old(files, 0);
      assert Old(next, 1) == Get(next, 1) + Old(next, 0);
    }
  }

  /** The rename loop of Write. */
  method Rotate(files: Files, keep: nat, stuck: bool) returns (next: Files)
    requires keep >= 1
    ensures next == Rotated(files, keep, stuck)
  {
    next := files;
    var i := keep;
    while i > 1
      invariant i >= 1 && Shift(next, i) == Shift(files, keep)
    {
      next := Rename(next, i - 1, i);
      i := i - 1;
    }
    if !stuck {
      next := Rename(next, 0, 1);
    }
  }

  // ----- the log

  lemma LengthAppend(c: Contents, w: Write)
    ensures Length(c + [w]) == Length(c) + |w|
  {
    assert (c + [w])[..|c|] == c;
  }

  class Log {
    const max: nat
    const keep: nat
    var files: Files
    var open: bool
    var size: nat
    // Every write that reached a file, what rotations have dropped of it, and whether a rename of
    // the current file has ever failed.
    ghost var stream: Contents
    ghost var dropped: Contents
    ghost var everStuck: bool

    ghost predicate Valid()
      reads this
    {
      && keep >= 1 && Numbered(files, keep)
      && (open ==> 0 in files && size == Length(files[0]))
      && stream == dropped + OnDisk(files, keep)
      && (!everStuck ==> InBounds(files, keep, max) && (!open ==> 0 !in files))
    }

    constructor (max: nat, keep: nat)
      requires keep >= 1
      ensures Valid() && open && this.max == max && this.keep == keep
      ensures stream == [] && dropped == [] && !everStuck
    {
      this.max, this.keep := max, keep;
      files, open, size := map[0 := []], true, 0;
      stream, dropped, everStuck := [], [], false;
      EmptyOld(keep);
    }

    predicate Full(p: Write)
      reads this
    {
      open && size > 0 && size + |p| > max
    }

    /** Moves a full file aside. */
    method MakeRoom(p: Write, stuck: bool)
      requires Valid() && Full(p)
      modifies this`files, this`open, this`dropped, this`everStuck
      ensures Valid() && !open && everStuck == (old(everStuck) || stuck)
      ensures dropped == old(dropped) || (keep in old(files) && dropped == old(dropped) + old(files)[keep])
      ensures if stuck then Get(files, 0) == old(files)[0] else 0 !in files
    {
      open := false;
      RotationKeepsOrder(files, keep, stuck);
      ShiftKeepsBounds(files, keep, keep, max);
      ghost var lost := Lost(files, keep, stuck);
      Regroup(dropped, lost, OnDisk(Rotated(files, keep, stuck), keep));
      files := Rotate(files, keep, stuck);
      dropped, everStuck := dropped + lost, everStuck || stuck;
      assert old(dropped) + [] == old(dropped);
    }

    method Reopen()
      requires Valid() && !open
      modifies this`files, this`open, this`size
      ensures Valid() && open && files[0] == Get(old(files), 0)
    {
      if 0 !in files {
        OpenKeepsOrder(files, keep);
        files := files[0 := []];
      }
      open, size := true, Length(files[0]);
    }

    method Append(w: Write)
      requires Valid() && open && (everStuck || Bounded(files[0] + [w], max))
      modifies this`files, this`size, this`stream
      ensures Valid() && files[0] == old(files)[0] + [w] && stream == old(stream) + [w]
    {
      LengthAppend(files[0], w);
      AppendKeepsOrder(files, keep, w);
      Regroup(dropped, OnDisk(files, keep), [w]);
      files := files[0 := files[0] + [w]];
      size := size + |w|;
      stream := stream + [w];
    }

    /** One write. The rename of the current file fails when `stuck`, opening a new one fails when
        `broken`, and the write itself gets `n` bytes out. */
    method WriteLog(p: Write, stuck: bool, broken: bool, n: nat) returns (ok: bool)
      requires Valid() && n <= |p|
      modifies this
      ensures Valid()
      ensures stream == if ok then old(stream) + [p[..n]] else old(stream)
      ensures ok <==> !broken || (old(open) && !old(Full(p)))
      ensures ok ==> open && size == Length(files[0])
      ensures dropped == old(dropped) || (keep in old(files) && dropped == old(dropped) + old(files)[keep])
      ensures everStuck == (old(everStuck) || (stuck && old(Full(p))))
      ensures ok && n == |p| && stuck && old(Full(p)) ==> Length(files[0]) > max
    {
      if Full(p) {
        MakeRoom(p, stuck);
      }
      if !open {
        if broken {
          return false;
        }
        Reopen();
      }
      LengthAppend(files[0], p[..n]);
      assert (files[0] + [p[..n]])[..|files[0]|] == files[0];
      Append(p[..n]);
      return true;
    }
  }

  lemma {:induction false} EmptyOld(k: nat)
    ensures Old(map[0 := []], k) == []
  {
    if k > 0 {
      EmptyOld(k - 1);
    }
  }

  lemma OpenKeepsOrder(files: Files, keep: nat)
    requires 0 !in files
    ensures OnDisk(files[0 := []], keep) == OnDisk(files, keep)
  {
    OldFrame(files, files[0 := []], keep);
  }

  lemma AppendKeepsOrder(files: Files, keep: nat, w: Write)
    requires 0 in files
    ensures OnDisk(files[0 := files[0] + [w]], keep) == OnDisk(files, keep) + [w]
  {
    OldFrame(files, files[0 := files[0] + [w]], keep);
    Regroup(Old(files, keep), files[0], [w]);
  }
}
