/** The report queue under concurrency: reports are added, and the file trimmed, at any moment,
    also while a flush has a batch on its way to the server. The file is kept as its lines;
    `Reports` proves that each step on the bytes is this step on the lines. */
module ReportFlow {
  import opened Reports

  /** Where the one flush stands. `gone` is how many lines had left the file when it read `batch`. */
  datatype Phase = Idle | Posting(batch: seq<Bytes>, gone: nat) | Accepted(batch: seq<Bytes>, gone: nat)

  /** Beside the file: every line ever queued, every line that left it in the order they left, split
      by why they left, every line the server took, and those of them that were left to go again. */
  datatype State = State(
    file: seq<Bytes>,
    phase: Phase,
    queued: seq<Bytes>,
    gone: seq<Bytes>,
    cut: multiset<Bytes>,
    sent: multiset<Bytes>,
    discarded: multiset<Bytes>,
    accepted: multiset<Bytes>,
    again: multiset<Bytes>)

  const EMPTY := State([], Idle, [], [], multiset{}, multiset{}, multiset{}, multiset{}, multiset{})

  datatype Action = Add(report: Bytes) | ReadBatch | PostOk | PostFails | RemoveBatch | Discard

  predicate Enabled(s: State, a: Action) {
    match a
    case Add(report) => NL !in report
    case ReadBatch => s.phase.Idle?
    case PostOk => s.phase.Posting?
    case PostFails => s.phase.Posting?
    case RemoveBatch => s.phase.Accepted?
    case Discard => s.phase.Idle?
  }

  /** The lines `add` cuts off the front. */
  function CutBy(file: seq<Bytes>, line: Bytes): seq<Bytes> {
    var kept := AddLine(file, line);
    if |kept| <= |file| + 1 then (file + [line])[..|file| + 1 - |kept|] else []
  }

  function Next(s: State, a: Action): State
    requires Enabled(s, a)
  {
    match a
    case Add(report) =>
      if |report| >= MAX_BATCH then s
      else
        var line := report + [NL];
        s.(file := AddLine(s.file, line), queued := s.queued + [line],
           gone := s.gone + CutBy(s.file, line), cut := s.cut + multiset(CutBy(s.file, line)))
    case ReadBatch =>
      var k := Fitting(s.file, MAX_BATCH);
      if k == 0 then s else s.(phase := Posting(s.file[..k], |s.gone|))
    case PostOk => s.(phase := Accepted(s.phase.batch, s.phase.gone), accepted := s.accepted + multiset(s.phase.batch))
    case PostFails => s.(phase := Idle)
    case RemoveBatch =>
      if s.phase.batch <= s.file then
        s.(phase := Idle, file := s.file[|s.phase.batch|..], gone := s.gone + s.phase.batch,
           sent := s.sent + multiset(s.phase.batch))
      else s.(phase := Idle, again := s.again + multiset(s.phase.batch))
    case Discard => s.(file := [], gone := s.gone + s.file, discarded := s.discarded + multiset(s.file))
  }

  predicate Schedule(s: State, actions: seq<Action>)
    decreases |actions|
  {
    actions == [] || (Enabled(s, actions[0]) && Schedule(Next(s, actions[0]), actions[1..]))
  }

  function Exec(s: State, actions: seq<Action>): State
    requires Schedule(s, actions)
    decreases |actions|
  {
    if actions == [] then s else Exec(Next(s, actions[0]), actions[1..])
  }

  // ----- what every step keeps

  /** What the server has taken and the flush has not yet removed. */
  function Pending(s: State): multiset<Bytes> {
    if s.phase.Accepted? then multiset(s.phase.batch) else multiset{}
  }

  ghost predicate Inv(s: State) {
    && InOrder(s) && Counted(s)
    && (!s.phase.Idle? ==> BatchOk(s))
  }

  ghost predicate InOrder(s: State) {
    AllLines(s.file) && Size(s.file) <= MAX_QUEUE && s.queued == s.gone + s.file
  }

  ghost predicate Counted(s: State) {
    && multiset(s.gone) == s.cut + s.sent + s.discarded
    && s.accepted == s.sent + Pending(s) + s.again
    && (s.cut == multiset{} ==> s.again == multiset{})
  }

  /** The lines that have left the file since the flush read its batch. */
  function LeftSince(s: State): seq<Bytes>
    requires !s.phase.Idle? && s.phase.gone <= |s.gone|
  {
    s.gone[s.phase.gone..]
  }

  /** The batch is the start of what has left since and what is still there, and what has left was
      cut. */
  ghost predicate BatchOk(s: State)
    requires !s.phase.Idle?
  {
    && s.phase.gone <= |s.gone|
    && s.phase.batch <= LeftSince(s) + s.file
    && multiset(LeftSince(s)) <= s.cut
  }

  lemma {:induction false} SizeSuffix(ls: seq<Bytes>, k: nat)
    requires k <= |ls|
    ensures Size(ls[k..]) <= Size(ls)
  {
    if k > 0 {
      SizeSuffix(ls[1..], k - 1);
      assert ls[1..][k - 1..] == ls[k..];
    } else {
      assert ls[0..] == ls;
    }
  }

  /** `add` keeps every line or cuts at least one off the front, and stays within the cap. */
  lemma AddSplits(file: seq<Bytes>, line: Bytes)
    requires AllLines(file) && IsLine(line)
    ensures var kept := AddLine(file, line);
      && AllLines(kept) && Size(kept) <= MAX_QUEUE
      && file + [line] == CutBy(file, line) + kept
      && (CutBy(file, line) == [] ==> kept == file + [line])
  {
    var all := file + [line];
    KeptIsSuffix(all, AddLine(file, line));
    if Size(all) <= MAX_QUEUE {
      assert all[..|all| - |all|] == [];
    }
  }

  lemma KeptIsSuffix(all: seq<Bytes>, kept: seq<Bytes>)
    requires AllLines(all) && |kept| <= |all| && kept == all[|all| - |kept|..]
    ensures AllLines(kept) && all == all[..|all| - |kept|] + kept
    ensures all[..|all| - |kept|] == [] ==> kept == all
  {
    assert forall i :: 0 <= i < |kept| ==> kept[i] == all[|all| - |kept| + i];
  }

  lemma AddKeepsOrder(s: State, line: Bytes)
    requires InOrder(s) && IsLine(line)
    ensures InOrder(
      s.(file := AddLine(s.file, line), gone := s.gone + CutBy(s.file, line), queued := s.queued + [line]))
  {
    AddSplits(s.file, line);
    Regroup(s.gone, s.file, [line]);
    Regroup(s.gone, CutBy(s.file, line), AddLine(s.file, line));
  }

  lemma AddKeepsInv(s: State, report: Bytes)
    requires Inv(s) && NL !in report && |report| < MAX_BATCH
    ensures Inv(Next(s, Add(report)))
  {
    var line := report + [NL];
    assert line[..|line| - 1] == report;
    assert InOrder(Next(s, Add(report))) by {
      AddKeepsOrder(s, line);
    }
    if !s.phase.Idle? {
      AddKeepsBatch(s, line);
    }
  }

  lemma AddKeepsBatch(s: State, line: Bytes)
    requires AllLines(s.file) && IsLine(line) && !s.phase.Idle? && BatchOk(s)
    ensures var lost := CutBy(s.file, line);
      BatchOk(s.(file := AddLine(s.file, line), gone := s.gone + lost, cut := s.cut + multiset(lost)))
  {
    AddSplits(s.file, line);
    var lost, kept, left := CutBy(s.file, line), AddLine(s.file, line), LeftSince(s);
    assert (s.gone + lost)[s.phase.gone..] == left + lost;
    PrefixGrows(s.phase.batch, left, s.file, line, lost, kept);
  }

  lemma PrefixGrows<T>(batch: seq<T>, left: seq<T>, file: seq<T>, line: T, lost: seq<T>, kept: seq<T>)
    requires batch <= left + file && file + [line] == lost + kept
    ensures batch <= (left + lost) + kept
  {
    Regroup(left, lost, kept);
    Regroup(left, file, [line]);
    assert (left + lost) + kept == (left + file) + [line];
  }

  lemma RemoveKeepsOrder(s: State, batch: seq<Bytes>)
    requires InOrder(s) && batch <= s.file
    ensures InOrder(s.(file := s.file[|batch|..], gone := s.gone + batch))
  {
    var rest := s.file[|batch|..];
    assert s.file == batch + rest;
    Regroup(s.gone, batch, rest);
    SizeSuffix(s.file, |batch|);
  }

  lemma RemoveKeepsInv(s: State)
    requires Inv(s) && s.phase.Accepted? && s.phase.batch <= s.file
    ensures Inv(Next(s, RemoveBatch))
  {
    var next := Next(s, RemoveBatch);
    assert InOrder(next) by {
      RemoveKeepsOrder(s, s.phase.batch);
    }
    assert Counted(next) by {
      assert multiset(s.gone + s.phase.batch) == multiset(s.gone) + multiset(s.phase.batch);
    }
  }

  /** A batch nothing was cut under is still at the front. */
  lemma UncutIsInPlace(s: State)
    requires !s.phase.Idle? && BatchOk(s)
    ensures LeftSince(s) == [] || s.cut == multiset{} ==> s.phase.batch <= s.file
  {
    if s.cut == multiset{} {
      assert |LeftSince(s)| == |multiset(LeftSince(s))|;
    }
    assert LeftSince(s) == [] ==> LeftSince(s) + s.file == s.file;
  }

  lemma NextKeepsInv(s: State, a: Action)
    requires Inv(s) && Enabled(s, a)
    ensures Inv(Next(s, a))
  {
    match a
    case Add(report) =>
      if |report| < MAX_BATCH {
        AddKeepsInv(s, report);
      }
    case RemoveBatch =>
      if s.phase.batch <= s.file {
        RemoveKeepsInv(s);
      } else {
        UncutIsInPlace(s);
      }
    case ReadBatch => assert s.gone[|s.gone|..] == [];
    case Discard => assert multiset(s.gone + s.file) == multiset(s.gone) + multiset(s.file);
    case _ =>
  }

  lemma {:induction false} ScheduleKeepsInv(s: State, actions: seq<Action>)
    requires Inv(s) && Schedule(s, actions)
    ensures Inv(Exec(s, actions))
    decreases |actions|
  {
    if actions != [] {
      NextKeepsInv(s, actions[0]);
      ScheduleKeepsInv(Next(s, actions[0]), actions[1..]);
    }
  }

  // ----- the results

  /** In every interleaving the lines ever queued are, in order, the ones that left the file followed
      by the ones still in it. Those that left were cut by a trim, sent or discarded. What the server
      accepted is what left as sent, what is about to, and what goes again, counting repeats, and
      nothing goes again unless a trim has cut something. The file is whole lines within the cap. */
  lemma NothingGoesMissing(actions: seq<Action>)
    requires Schedule(EMPTY, actions)
    ensures var s := Exec(EMPTY, actions);
      && s.queued == s.gone + s.file
      && multiset(s.queued) == multiset(s.file) + s.cut + s.sent + s.discarded
      && s.accepted == s.sent + Pending(s) + s.again
      && (s.cut == multiset{} ==> s.again == multiset{})
      && AllLines(s.file) && Size(s.file) <= MAX_QUEUE
  {
    ScheduleKeepsInv(EMPTY, actions);
  }

  /** How many lines of the batch have been cut since it was read. */
  function Overtaken(s: State): nat
    requires !s.phase.Idle? && s.phase.gone <= |s.gone|
  {
    if |LeftSince(s)| <= |s.phase.batch| then |LeftSince(s)| else |s.phase.batch|
  }

  /** The batch splits in two: its first lines are the ones that left meanwhile, in order, and all of
      them were cut; the rest is at the front of the file. */
  ghost predicate SplitInTwo(s: State)
    requires !s.phase.Idle?
  {
    && s.phase.gone <= |s.gone|
    && var k, batch := Overtaken(s), s.phase.batch;
    && batch[..k] == LeftSince(s)[..k] && multiset(batch[..k]) <= s.cut
    && batch[k..] <= s.file
  }

  lemma BatchSplits(s: State)
    requires !s.phase.Idle? && BatchOk(s)
    ensures SplitInTwo(s)
  {
    var k, batch, left := Overtaken(s), s.phase.batch, LeftSince(s);
    assert batch == (left + s.file)[..|batch|];
    assert left == left[..k] + left[k..];
    assert batch[..k] == left[..k];
    if |left| <= |batch| {
      assert batch[k..] == s.file[..|batch| - k];
    }
  }

  /** A trim while a batch is on its way only makes part of it go again. At every moment the batch
      splits in two, what has been cut of it and what is at the front of the file. When the server
      has taken it and nothing was cut, it leaves as it was sent. Otherwise it leaves only if the file
      happens to start with the same lines, and if not, the file stays as it is and exactly the uncut
      rest, at its front, goes again. */
  lemma CutOnlyResends(actions: seq<Action>)
    requires Schedule(EMPTY, actions) && !Exec(EMPTY, actions).phase.Idle?
    ensures var s := Exec(EMPTY, actions);
      && SplitInTwo(s)
      && (LeftSince(s) == [] ==> s.phase.batch <= s.file)
      && (s.phase.Accepted? && !(s.phase.batch <= s.file) ==>
            var next := Next(s, RemoveBatch);
            && Overtaken(s) > 0 && next.file == s.file && next.gone == s.gone
            && s.phase.batch[Overtaken(s)..] <= next.file)
  {
    ScheduleKeepsInv(EMPTY, actions);
    var s := Exec(EMPTY, actions);
    BatchSplits(s);
    UncutIsInPlace(s);
    assert s.phase.batch[0..] == s.phase.batch;
  }
}
