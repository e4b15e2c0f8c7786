/** The report queue's concurrent steps on the file's bytes, as the agent runs them, follow the steps
    on its lines that `ReportFlow` interleaves. */
module ReportBytes {
  import opened Reports
  import ReportFlow

  datatype Phase = Idle | Posting(batch: Bytes) | Accepted(batch: Bytes)

  datatype State = State(file: Bytes, phase: Phase)

  const EMPTY := State([], Idle)

  /** What each step does to the bytes. An action the flush has not come to does nothing. */
  function Next(s: State, a: ReportFlow.Action): State {
    match a
    case Add(report) => if |report| >= MAX_BATCH then s else s.(file := AddBytes(s.file, report))
    case ReadBatch => if Batch(s.file) == [] then s else s.(phase := Posting(Batch(s.file)))
    case PostOk => if s.phase.Posting? then s.(phase := Accepted(s.phase.batch)) else s
    case PostFails => s.(phase := Idle)
    case RemoveBatch =>
      if s.phase.Accepted? && s.phase.batch <= s.file then State(s.file[|s.phase.batch|..], Idle)
      else s.(phase := Idle)
    case Discard => s.(file := [])
  }

  function Exec(s: State, actions: seq<ReportFlow.Action>): State
    decreases |actions|
  {
    if actions == [] then s else Exec(Next(s, actions[0]), actions[1..])
  }

  /** The bytes are those lines, and so is the batch. */
  ghost predicate Follows(s: State, f: ReportFlow.State) {
    && s.file == Flat(f.file) && AllLines(f.file)
    && match f.phase
       case Idle => s.phase == Idle
       case Posting(batch, _) => s.phase == Posting(Flat(batch)) && AllLines(batch)
       case Accepted(batch, _) => s.phase == Accepted(Flat(batch)) && AllLines(batch)
  }

  lemma AddFollows(s: State, f: ReportFlow.State, report: Bytes)
    requires Follows(s, f) && NL !in report && |report| < MAX_BATCH
    ensures AddBytes(s.file, report) == Flat(AddLine(f.file, report + [NL]))
    ensures AllLines(AddLine(f.file, report + [NL]))
  {
    var line := report + [NL];
    assert line[..|line| - 1] == report;
    FlatSnoc(f.file, line);
    LinesFlat(f.file + [line]);
    FlatSize(f.file + [line]);
    ReportFlow.AddSplits(f.file, line);
  }

  lemma ReadFollows(s: State, f: ReportFlow.State)
    requires Follows(s, f)
    ensures Batch(s.file) == Flat(f.file[..Fitting(f.file, MAX_BATCH)])
    ensures Batch(s.file) == [] <==> Fitting(f.file, MAX_BATCH) == 0
  {
    LinesFlat(f.file);
    BatchLines(s.file);
    var k := Fitting(f.file, MAX_BATCH);
    FlatPositive(f.file[..k]);
    if f.file != [] {
      FlatPositive(f.file);
    }
  }

  lemma RemoveFollows(s: State, f: ReportFlow.State)
    requires Follows(s, f) && f.phase.Accepted?
    ensures s.phase.batch <= s.file <==> f.phase.batch <= f.file
    ensures f.phase.batch <= f.file ==> s.file[|s.phase.batch|..] == Flat(f.file[|f.phase.batch|..])
  {
    PrefixIffLines(f.phase.batch, f.file);
  }

  lemma NextFollows(s: State, f: ReportFlow.State, a: ReportFlow.Action)
    requires Follows(s, f) && ReportFlow.Enabled(f, a)
    ensures Follows(Next(s, a), ReportFlow.Next(f, a))
  {
    match a
    case Add(report) =>
      if |report| < MAX_BATCH {
        AddFollows(s, f, report);
      }
    case ReadBatch => ReadFollows(s, f);
    case RemoveBatch => RemoveFollows(s, f);
    case _ =>
  }

  lemma {:induction false} ExecFollows(s: State, f: ReportFlow.State, actions: seq<ReportFlow.Action>)
    requires Follows(s, f) && ReportFlow.Schedule(f, actions)
    ensures Follows(Exec(s, actions), ReportFlow.Exec(f, actions))
    decreases |actions|
  {
    if actions != [] {
      NextFollows(s, f, actions[0]);
      ExecFollows(Next(s, actions[0]), ReportFlow.Next(f, actions[0]), actions[1..]);
    }
  }

  /** After every interleaving the file's bytes are the lines the queue is said to hold, within the cap,
      and what a flush has on its way is its batch of lines. */
  lemma BytesAreTheLines(actions: seq<ReportFlow.Action>)
    requires ReportFlow.Schedule(ReportFlow.EMPTY, actions)
    ensures var s, f := Exec(EMPTY, actions), ReportFlow.Exec(ReportFlow.EMPTY, actions);
      Follows(s, f) && Lines(s.file) == f.file && |s.file| <= MAX_QUEUE
  {
    ExecFollows(EMPTY, ReportFlow.EMPTY, actions);
    ReportFlow.NothingGoesMissing(actions);
    var f := ReportFlow.Exec(ReportFlow.EMPTY, actions);
    LinesFlat(f.file);
    FlatSize(f.file);
  }
}
