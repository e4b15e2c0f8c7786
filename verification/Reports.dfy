/** The agent's error report queue: a bounded file of lines. Reports are appended at the end, the
    oldest are trimmed when the file is full, and a flush posts a batch from the front without
    holding the lock and then removes it if it is still there. */
module Reports {

  /** The file's bytes, as characters: nothing here looks at a byte but to find newlines. */
  type Bytes = string

  const NL := '\n'
  const MAX_QUEUE := 2097152
  const MAX_BATCH := 49152
  const TRIM_TO := MAX_QUEUE * 3 / 4

  // ----- bytes and lines

  function IndexNl(raw: Bytes): (i: int)
    ensures -1 <= i < |raw|
    ensures i >= 0 ==> raw[i] == NL && forall j :: 0 <= j < i ==> raw[j] != NL
    ensures i < 0 ==> NL !in raw
  {
    if raw == [] then -1
    else if raw[0] == NL then 0
    else
      var i := IndexNl(raw[1..]);
      if i < 0 then -1 else i + 1
  }

  function LastIndexNl(raw: Bytes): (i: int)
    ensures -1 <= i < |raw|
    ensures i >= 0 ==> raw[i] == NL
    ensures forall j :: i < j < |raw| ==> raw[j] != NL
  {
    if raw == [] then -1
    else if raw[|raw| - 1] == NL then |raw| - 1
    else LastIndexNl(raw[..|raw| - 1])
  }

  /** The lines of a file, each with its newline. A last piece without one counts as a line. */
  function Lines(raw: Bytes): seq<Bytes>
    decreases |raw|
  {
    if raw == [] then []
    else
      var i := IndexNl(raw);
      if i < 0 then [raw] else [raw[..i + 1]] + Lines(raw[i + 1..])
  }

  function Flat(lines: seq<Bytes>): Bytes {
    if lines == [] then [] else lines[0] + Flat(lines[1..])
  }

  /** A line as `add` writes it: one newline, at the end, and small enough for one upload. */
  predicate IsLine(l: Bytes) {
    0 < |l| <= MAX_BATCH && l[|l| - 1] == NL && NL !in l[..|l| - 1]
  }

  predicate AllLines(ls: seq<Bytes>) {
    forall i :: 0 <= i < |ls| ==> IsLine(ls[i])
  }

  /** The file is whole lines. */
  predicate Whole(raw: Bytes) {
    AllLines(Lines(raw))
  }

  lemma FlatCons(l: Bytes, ls: seq<Bytes>)
    ensures Flat([l] + ls) == l + Flat(ls)
  {
    assert ([l] + ls)[1..] == ls;
  }

  lemma {:induction false} FlatLines(raw: Bytes)
    ensures Flat(Lines(raw)) == raw
    decreases |raw|
  {
    if raw != [] {
      var i := IndexNl(raw);
      if i < 0 {
        FlatCons(raw, []);
      } else {
        FlatLines(raw[i + 1..]);
        FlatCons(raw[..i + 1], Lines(raw[i + 1..]));
        assert raw == raw[..i + 1] + raw[i + 1..];
      }
    }
  }

  lemma LinesCons(l: Bytes, rest: Bytes)
    requires IsLine(l)
    ensures Lines(l + rest) == [l] + Lines(rest)
  {
    var raw := l + rest;
    var i := IndexNl(raw);
    assert raw[|l| - 1] == NL;
    assert forall j :: 0 <= j < |l| - 1 ==> raw[j] == l[..|l| - 1][j];
    assert raw[..i + 1] == l && raw[i + 1..] == rest;
  }

  lemma {:induction false} LinesFlat(ls: seq<Bytes>)
    requires AllLines(ls)
    ensures Lines(Flat(ls)) == ls
  {
    if ls != [] {
      LinesFlat(ls[1..]);
      LinesCons(ls[0], Flat(ls[1..]));
    }
  }

  lemma {:induction false} FlatConcat(a: seq<Bytes>, b: seq<Bytes>)
    ensures Flat(a + b) == Flat(a) + Flat(b)
  {
    if a == [] {
      assert a + b == b;
    } else {
      FlatConcat(a[1..], b);
      assert (a + b)[1..] == a[1..] + b;
      Regroup(a[0], Flat(a[1..]), Flat(b));
    }
  }

  /** Whole files are put together and taken apart at line boundaries. */
  lemma LinesConcat(a: Bytes, b: Bytes)
    requires Whole(a) && Whole(b)
    ensures Lines(a + b) == Lines(a) + Lines(b)
  {
    FlatLines(a);
    FlatLines(b);
    FlatConcat(Lines(a), Lines(b));
    LinesFlat(Lines(a) + Lines(b));
  }

  lemma OneLine(l: Bytes)
    requires IsLine(l)
    ensures Lines(l) == [l]
  {
    LinesCons(l, []);
    assert l + [] == l;
  }

  lemma {:induction false} FlatPositive(ls: seq<Bytes>)
    requires AllLines(ls)
    ensures |Flat(ls)| >= |ls|
  {
    if ls != [] {
      FlatPositive(ls[1..]);
    }
  }

  /** How many bytes the lines take in the file. */
  function Size(ls: seq<Bytes>): nat {
    if ls == [] then 0 else |ls[0]| + Size(ls[1..])
  }

  lemma {:induction false} FlatSize(ls: seq<Bytes>)
    ensures |Flat(ls)| == Size(ls)
  {
    if ls != [] {
      FlatSize(ls[1..]);
    }
  }

  // ----- trimming

  /** Dropping lines from the front until what is left is a quarter under the cap. */
  function Trimmed(ls: seq<Bytes>): (kept: seq<Bytes>)
    ensures |kept| <= |ls| && kept == ls[|ls| - |kept|..] && Size(kept) <= TRIM_TO
  {
    if Size(ls) <= TRIM_TO then ls else Trimmed(ls[1..])
  }

  /** Trimming keeps the longest line-aligned suffix within three quarters of the cap. */
  lemma {:induction false} TrimmedIsLongest(ls: seq<Bytes>, k: nat)
    requires k <= |ls| && Size(ls[k..]) <= TRIM_TO
    ensures |ls| - k <= |Trimmed(ls)|
  {
    assert ls[0..] == ls;
    if Size(ls) > TRIM_TO {
      TrimmedIsLongest(ls[1..], k - 1);
      assert ls[1..][k - 1..] == ls[k..];
    }
  }

  /** The lines of the file after `add` has written a line. */
  function AddLine(ls: seq<Bytes>, line: Bytes): seq<Bytes> {
    if Size(ls + [line]) > MAX_QUEUE then Trimmed(ls + [line]) else ls + [line]
  }

  /** What follows the first newline, which is nothing when there is none. */
  function AfterLine(raw: Bytes): Bytes {
    if IndexNl(raw) < 0 then [] else raw[IndexNl(raw) + 1..]
  }

  lemma TailLines(raw: Bytes)
    requires raw != []
    ensures Lines(raw) != [] && Lines(raw)[1..] == Lines(AfterLine(raw))
  {
  }

  lemma TrimStep(raw: Bytes)
    requires |raw| > TRIM_TO
    ensures Trimmed(Lines(raw)) == Trimmed(Lines(AfterLine(raw)))
  {
    FlatLines(raw);
    FlatSize(Lines(raw));
    TailLines(raw);
  }

  lemma TrimDone(raw: Bytes)
    requires |raw| <= TRIM_TO
    ensures Trimmed(Lines(raw)) == Lines(raw)
  {
    FlatLines(raw);
    FlatSize(Lines(raw));
  }

  /** The loop of `trim` on the raw bytes. */
  method TrimBytes(file: Bytes) returns (raw: Bytes)
    ensures Lines(raw) == Trimmed(Lines(file))
    ensures |raw| <= TRIM_TO
  {
    raw := file;
    while |raw| > TRIM_TO
      invariant Trimmed(Lines(raw)) == Trimmed(Lines(file))
      decreases |raw|
    {
      TrimStep(raw);
      var i := IndexNl(raw);
      if i < 0 {
        raw := [];
        break;
      }
      raw := raw[i + 1..];
    }
    TrimDone(raw);
  }

  /** The bytes of the file after `add` has written a report. */
  function AddBytes(file: Bytes, report: Bytes): Bytes {
    var raw := file + (report + [NL]);
    if |raw| > MAX_QUEUE then Flat(Trimmed(Lines(raw))) else raw
  }

  lemma TrimmedIsWhole(ls: seq<Bytes>)
    requires AllLines(ls)
    ensures AllLines(Trimmed(ls)) && Lines(Flat(Trimmed(ls))) == Trimmed(ls) && |Flat(Trimmed(ls))| <= TRIM_TO
  {
    var kept := Trimmed(ls);
    forall i | 0 <= i < |kept| ensures IsLine(kept[i]) {
      assert kept[i] == ls[|ls| - |kept| + i];
    }
    LinesFlat(kept);
    FlatSize(kept);
  }

  lemma LinesSnoc(file: Bytes, line: Bytes)
    requires Whole(file) && IsLine(line)
    ensures Lines(file + line) == Lines(file) + [line] && Whole(file + line) && Size(Lines(file + line)) == |file + line|
  {
    OneLine(line);
    LinesConcat(file, line);
    FlatLines(file + line);
    FlatSize(Lines(file + line));
  }

  /** The lines of that are the lines there were and the new one, trimmed when they are too many. */
  lemma AddBytesLines(file: Bytes, report: Bytes)
    requires Whole(file) && NL !in report && |report| < MAX_BATCH
    ensures Lines(AddBytes(file, report)) == AddLine(Lines(file), report + [NL])
    ensures Whole(AddBytes(file, report)) && |AddBytes(file, report)| <= MAX_QUEUE
  {
    var line := report + [NL];
    assert line[..|line| - 1] == report;
    LinesSnoc(file, line);
    if |file + line| > MAX_QUEUE {
      TrimmedIsWhole(Lines(file + line));
    }
  }

  // ----- batches

  /** What one upload takes from the front of the file. */
  function Batch(raw: Bytes): Bytes {
    if |raw| <= MAX_BATCH then raw
    else
      var i := LastIndexNl(raw[..MAX_BATCH]);
      if i >= 0 then raw[..i + 1] else raw
  }

  /** Every newline of a whole file ends one of its lines. */
  lemma {:induction false} CutAtNewline(ls: seq<Bytes>, i: nat) returns (k: nat)
    requires AllLines(ls) && i < |Flat(ls)| && Flat(ls)[i] == NL
    ensures 0 < k <= |ls| && Flat(ls[..k]) == Flat(ls)[..i + 1]
  {
    var l := ls[0];
    if i < |l| {
      assert forall j :: 0 <= j < |l| - 1 ==> l[j] == l[..|l| - 1][j];
      k := 1;
      assert ls[..1] == [l] + [];
      FlatCons(l, []);
    } else {
      var rest := CutAtNewline(ls[1..], i - |l|);
      k := rest + 1;
      assert ls[..k] == [l] + ls[1..][..rest];
      FlatCons(l, ls[1..][..rest]);
    }
  }

  lemma FlatPrefix(ls: seq<Bytes>, k: nat)
    requires k <= |ls|
    ensures Flat(ls) == Flat(ls[..k]) + Flat(ls[k..])
  {
    FlatConcat(ls[..k], ls[k..]);
    assert ls[..k] + ls[k..] == ls;
  }

  lemma {:induction false} EndsInNewline(ls: seq<Bytes>)
    requires AllLines(ls) && ls != []
    ensures |Flat(ls)| > 0 && Flat(ls)[|Flat(ls)| - 1] == NL
  {
    if |ls| > 1 {
      EndsInNewline(ls[1..]);
    } else {
      assert ls == [ls[0]] + [];
      FlatCons(ls[0], []);
    }
  }

  /** The first line fits in an upload, so there is a newline to cut at. */
  lemma NewlineInReach(raw: Bytes)
    requires Whole(raw) && |raw| > MAX_BATCH
    ensures LastIndexNl(raw[..MAX_BATCH]) >= 0
  {
    var ls := Lines(raw);
    FlatLines(raw);
    var l := ls[0];
    assert raw == l + Flat(ls[1..]);
    assert raw[..MAX_BATCH][|l| - 1] == NL;
  }

  lemma LongerPrefix(ls: seq<Bytes>, k: nat, n: nat)
    requires AllLines(ls) && k < n <= |ls|
    ensures |Flat(ls[..k])| < |Flat(ls[..n])|
  {
    FlatPrefix(ls[..n], k);
    assert ls[..n][..k] == ls[..k];
    FlatPositive(ls[..n][k..]);
  }

  /** More lines than fit before the last newline in reach do not fit. */
  lemma NoMoreFit(raw: Bytes, k: nat, n: nat)
    requires Whole(raw) && |raw| > MAX_BATCH && k < n <= |Lines(raw)|
    requires |Flat(Lines(raw)[..k])| == LastIndexNl(raw[..MAX_BATCH]) + 1
    ensures |Flat(Lines(raw)[..n])| > MAX_BATCH
  {
    var ls := Lines(raw);
    FlatLines(raw);
    FlatPrefix(ls, n);
    LongerPrefix(ls, k, n);
    EndsInNewline(ls[..n]);
    var end := |Flat(ls[..n])| - 1;
    assert raw[end] == NL;
    assert forall j :: 0 <= j < MAX_BATCH ==> raw[j] == raw[..MAX_BATCH][j];
  }

  /** A batch is the longest line-aligned prefix within one upload, and is empty only when the file
      is. */
  lemma BatchIsLongest(raw: Bytes) returns (k: nat)
    requires Whole(raw)
    ensures k <= |Lines(raw)| && Batch(raw) == Flat(Lines(raw)[..k]) && |Batch(raw)| <= MAX_BATCH
    ensures Batch(raw) <= raw && (raw != [] ==> k > 0 && Batch(raw) != [])
    ensures forall n :: k < n <= |Lines(raw)| ==> |Flat(Lines(raw)[..n])| > MAX_BATCH
  {
    var ls := Lines(raw);
    FlatLines(raw);
    if |raw| <= MAX_BATCH {
      assert ls[..|ls|] == ls;
      return |ls|;
    }
    NewlineInReach(raw);
    var i := LastIndexNl(raw[..MAX_BATCH]);
    assert raw[i] == raw[..MAX_BATCH][i];
    k := CutAtNewline(ls, i);
    forall n | k < n <= |ls| ensures |Flat(ls[..n])| > MAX_BATCH {
      NoMoreFit(raw, k, n);
    }
  }

  /** How many whole lines fit in `room` bytes. */
  function Fitting(ls: seq<Bytes>, room: nat): (k: nat)
    ensures k <= |ls|
  {
    if ls == [] || |ls[0]| > room then 0 else 1 + Fitting(ls[1..], room - |ls[0]|)
  }

  lemma {:induction false} FittingIsLongest(ls: seq<Bytes>, room: nat, n: nat)
    requires n <= |ls|
    ensures Size(ls[..n]) <= room <==> n <= Fitting(ls, room)
  {
    if n > 0 {
      assert ls[..n][1..] == ls[1..][..n - 1];
      if |ls[0]| <= room {
        FittingIsLongest(ls[1..], room - |ls[0]|, n - 1);
      }
    }
  }

  lemma LongestIsFitting(ls: seq<Bytes>, k: nat)
    requires k <= |ls| && |Flat(ls[..k])| <= MAX_BATCH
    requires forall n :: k < n <= |ls| ==> |Flat(ls[..n])| > MAX_BATCH
    ensures k == Fitting(ls, MAX_BATCH)
  {
    var f := Fitting(ls, MAX_BATCH);
    FlatSize(ls[..k]);
    FittingIsLongest(ls, MAX_BATCH, k);
    FlatSize(ls[..f]);
    FittingIsLongest(ls, MAX_BATCH, f);
  }

  /** The batch cut out of the bytes is the lines that fit. */
  lemma BatchLines(raw: Bytes)
    requires Whole(raw)
    ensures Batch(raw) == Flat(Lines(raw)[..Fitting(Lines(raw), MAX_BATCH)])
    ensures raw != [] ==> Fitting(Lines(raw), MAX_BATCH) > 0
  {
    var k := BatchIsLongest(raw);
    LongestIsFitting(Lines(raw), k);
  }

  /** A whole prefix of the bytes is a prefix of the lines, and the other way round. */
  lemma {:induction false} PrefixIffLines(batch: seq<Bytes>, file: seq<Bytes>)
    requires AllLines(batch) && AllLines(file)
    ensures Flat(batch) <= Flat(file) <==> batch <= file
    ensures batch <= file ==> Flat(file)[|Flat(batch)|..] == Flat(file[|batch|..])
  {
    if batch <= file {
      FlatPrefix(file, |batch|);
      assert file[..|batch|] == batch;
    }
    if Flat(batch) <= Flat(file) {
      var rest := Flat(file)[|Flat(batch)|..];
      assert Flat(file) == Flat(batch) + rest;
      PrefixLines(batch, rest);
      LinesFlat(file);
    }
  }

  lemma {:induction false} PrefixLines(ls: seq<Bytes>, rest: Bytes)
    requires AllLines(ls)
    ensures Lines(Flat(ls) + rest) == ls + Lines(rest)
  {
    if ls == [] {
      assert Flat(ls) + rest == rest;
      assert ls + Lines(rest) == Lines(rest);
    } else {
      PrefixLines(ls[1..], rest);
      PrefixLinesStep(ls[0], ls[1..], rest);
      assert ls == [ls[0]] + ls[1..];
    }
  }

  lemma PrefixLinesStep(l: Bytes, ls: seq<Bytes>, rest: Bytes)
    requires IsLine(l) && Lines(Flat(ls) + rest) == ls + Lines(rest)
    ensures Lines(Flat([l] + ls) + rest) == [l] + ls + Lines(rest)
  {
    FlatCons(l, ls);
    Regroup(l, Flat(ls), rest);
    Regroup([l], ls, Lines(rest));
    LinesCons(l, Flat(ls) + rest);
  }

  lemma WholeParts(raw: Bytes, k: nat)
    requires Whole(raw) && k <= |Lines(raw)|
    ensures Lines(Flat(Lines(raw)[..k])) == Lines(raw)[..k]
    ensures Lines(Flat(Lines(raw)[k..])) == Lines(raw)[k..]
    ensures raw == Flat(Lines(raw)[..k]) + Flat(Lines(raw)[k..])
  {
    FlatLines(raw);
    FlatPrefix(Lines(raw), k);
    LinesFlat(Lines(raw)[..k]);
    LinesFlat(Lines(raw)[k..]);
  }

  lemma FlatSnoc(ls: seq<Bytes>, l: Bytes)
    ensures Flat(ls + [l]) == Flat(ls) + l
  {
    FlatConcat(ls, [l]);
    FlatCons(l, []);
    assert [l] + [] == [l];
  }

  lemma Regroup<T>(a: seq<T>, b: seq<T>, c: seq<T>)
    ensures (a + b) + c == a + (b + c)
  {
  }

  lemma FlushStep(file: Bytes, posted: seq<Bytes>, k: nat)
    requires Whole(file) && k <= |Lines(file)| && Batch(file) == Flat(Lines(file)[..k]) && Batch(file) <= file
    ensures Whole(file[|Batch(file)|..])
    ensures Flat(posted + [Batch(file)]) + file[|Batch(file)|..] == Flat(posted) + file
    ensures |Flat(posted + [Batch(file)])| == |Flat(posted)| + |Batch(file)|
  {
    var batch, rest := Batch(file), Flat(Lines(file)[k..]);
    WholeParts(file, k);
    assert file[|batch|..] == rest;
    FlatSnoc(posted, batch);
    Regroup(Flat(posted), batch, rest);
  }

  // ----- the queue object

  class Queue {
    var file: Bytes
    var tooLarge: nat

    ghost predicate Valid()
      reads this
    {
      Whole(file) && |file| <= MAX_QUEUE
    }

    constructor ()
      ensures Valid() && file == [] && tooLarge == 0
    {
      file, tooLarge := [], 0;
    }

    /** Appends one report, which as JSON holds no newline. A file that has grown past its cap loses
        its oldest lines. */
    method Add(report: Bytes, on: bool)
      requires Valid() && NL !in report
      modifies this
      ensures Valid()
      ensures !on ==> file == old(file) && tooLarge == old(tooLarge)
      ensures on && |report| >= MAX_BATCH ==> file == old(file) && tooLarge == old(tooLarge) + 1
      ensures on && |report| < MAX_BATCH ==>
        && tooLarge == old(tooLarge) && file == AddBytes(old(file), report)
        && Lines(file) == AddLine(Lines(old(file)), report + [NL])
    {
      if !on {
        return;
      }
      if |report| >= MAX_BATCH {
        tooLarge := tooLarge + 1;
        return;
      }
      AddBytesLines(file, report);
      file := file + (report + [NL]);
      if |file| > MAX_QUEUE {
        file := TrimBytes(file);
        FlatLines(file);
      }
    }

    /** Sends what is waiting, a batch at a time, with no report added meanwhile. The server accepts
        the first `budget` posts. Everything posted is gone from the file and nothing else is, and a
        server that keeps accepting empties it. */
    method Flush(reporting: bool, budget: nat) returns (posted: seq<Bytes>, sent: bool)
      requires Valid()
      modifies this
      ensures Valid() && tooLarge == 0
      ensures !reporting ==> file == [] && posted == [] && sent
      ensures reporting ==> Flat(posted) + file == old(file)
      ensures forall i :: 0 <= i < |posted| ==> 0 < |posted[i]| <= MAX_BATCH
      ensures reporting && sent ==> file == []
      ensures !sent ==> |posted| == budget
      ensures budget > |old(file)| ==> sent
    {
      tooLarge, posted := 0, [];
      if !reporting {
        file := [];
        return [], true;
      }
      while true
        invariant Valid() && tooLarge == 0
        invariant Flat(posted) + file == old(file)
        invariant |posted| <= budget && |posted| <= |Flat(posted)|
        invariant forall i :: 0 <= i < |posted| ==> 0 < |posted[i]| <= MAX_BATCH
        decreases |file|
      {
        var batch := Batch(file);
        ghost var k := BatchIsLongest(file);
        if |batch| == 0 {
          return posted, true;
        }
        if |posted| == budget {
          return posted, false;
        }
        FlushStep(file, posted, k);
        posted := posted + [batch];
        // Nothing was added or trimmed meanwhile, so the batch is still at the front.
        file := file[|batch|..];
      }
    }
  }
}
