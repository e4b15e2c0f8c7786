/** The agent's sign in composed with the server. A sign in asks for a code, polls until somebody
    answers, spends the token it is given and then counts itself enrolled. Any number of sign ins
    run at once, on any PCs, while anybody makes any other call. A request or its answer can be
    lost, and a request whose sender has given up can still be handled: that is one of the other
    calls. */
module Login {
  import opened Common
  import opened Enrolment

  // ----- the poll loop

  /** A refusal ends the polling. A rate limit says to ask more slowly. */
  predicate Answered(status: int) {
    400 <= status < 500 && status != 429
  }

  datatype Decision = Retry | Stop | Spend(token: string)

  function OnPoll(a: Answer): Decision {
    match a
    case Error(status) => if Answered(status) then Stop else Retry
    case Lost => Retry
    case StillPending(_) => Retry
    case GaveToken(token) => Spend(token)
    case _ => Spend("")
  }

  function IntervalOf(a: Answer): int {
    if a.StillPending? then a.interval else 0
  }

  /** pollUntilAnswered against a script of answers, which runs out when the context ends. It stops
      at the first answer that is not "ask again", asks nothing after it, and waits between two
      polls for the longest interval it was ever told. */
  method PollUntilAnswered(every: int, answers: seq<Answer>) returns (outcome: Decision, polls: nat, waits: seq<int>)
    requires every > 0
    ensures polls <= |answers|
    ensures outcome != Retry ==> polls > 0 && outcome == OnPoll(answers[polls - 1])
    ensures outcome == Retry ==> polls == |answers|
    ensures forall i :: 0 <= i < polls && (i < polls - 1 || outcome == Retry) ==> OnPoll(answers[i]) == Retry
    ensures |waits| == if outcome == Retry then polls else polls - 1
    ensures forall i :: 0 <= i < |waits| ==> waits[i] >= every
    ensures forall i, j :: 0 <= i <= j < |waits| ==> IntervalOf(answers[i]) <= waits[j]
    ensures forall j :: 0 <= j < |waits| ==>
      waits[j] == every || exists i :: 0 <= i <= j && waits[j] == IntervalOf(answers[i])
  {
    var wait := every;
    polls, waits := 0, [];
    while polls < |answers|
      invariant polls <= |answers| && |waits| == polls && wait >= every
      invariant forall i :: 0 <= i < polls ==> OnPoll(answers[i]) == Retry && IntervalOf(answers[i]) <= wait
      invariant wait == every || exists i :: 0 <= i < polls && wait == IntervalOf(answers[i])
      invariant forall i :: 0 <= i < |waits| ==> waits[i] >= every
      invariant forall i, j :: 0 <= i <= j < |waits| ==> IntervalOf(answers[i]) <= waits[j]
      invariant forall j :: 0 <= j < |waits| ==>
        waits[j] == every || exists i :: 0 <= i <= j && waits[j] == IntervalOf(answers[i])
    {
      var a := answers[polls];
      polls := polls + 1;
      var decision := OnPoll(a);
      if decision != Retry {
        return decision, polls, waits;
      }
      if IntervalOf(a) > wait {
        wait := IntervalOf(a);
        assert wait == IntervalOf(answers[polls - 1]);
      }
      waits := waits + [wait];
    }
    outcome := Retry;
  }

  // ----- the composition

  datatype Phase =
    | Starting
    | Started(answer: Answer)
    | Waiting(code: string)
    | PollSent(code: string)
    | Collecting(code: string)
    | Polled(code: string, answer: Answer)
    | EnrolSent(code: string, token: string)
    | EnrolDone(code: string, token: string, answer: Answer)
    | SyncSent(code: string, token: string, id: DeviceId)
    | SyncDone(code: string, token: string, id: DeviceId, answer: Answer)
    | SignedIn(code: string, token: string, id: DeviceId)
    | Failed

  datatype SignIn = SignIn(key: string, phase: Phase)

  /** `agents` is what each PC's state file says: the id it holds once it is enrolled. */
  datatype World = World(server: Server, signIns: map<nat, SignIn>, agents: map<string, DeviceId>)

  const NEW_WORLD := World(FRESH, map[], map[])

  datatype Action =
    | Begin(id: nat, key: string)
    | HandleStart(id: nat, code: string)
    | SendPoll(id: nat)
    | HandleSelect(id: nat)
    | HandleCollect(id: nat, token: string)
    | HandleEnrol(id: nat)
    | HandleSync(id: nat)
    | Fault(id: nat, status: int)
    | Lose(id: nat)
    | Take(id: nat)
    | TimeOut(id: nat)
    | Forget(key: string)
    | Other(call: Call)

  predicate InFlight(p: Phase) {
    p.Starting? || p.PollSent? || p.Collecting? || p.EnrolSent? || p.SyncSent?
  }

  /** The phase once the request in flight has been answered. */
  function AnswerWith(p: Phase, a: Answer): Phase
    requires InFlight(p)
  {
    match p
    case Starting => Started(a)
    case PollSent(code) => Polled(code, a)
    case Collecting(code) => Polled(code, a)
    case EnrolSent(code, token) => EnrolDone(code, token, a)
    case SyncSent(code, token, id) => SyncDone(code, token, id, a)
  }

  predicate Delivered(p: Phase) {
    p.Started? || p.Polled? || p.EnrolDone? || p.SyncDone?
  }

  /** What the agent does with an answer. */
  function TakeAnswer(key: string, p: Phase): Phase
    requires Delivered(p)
  {
    match p
    case Started(a) => if a.GaveCode? && a.code != "" then Waiting(a.code) else Failed
    case Polled(code, a) =>
      (match OnPoll(a)
       case Retry => Waiting(code)
       case Stop => Failed
       case Spend(token) => if token == "" then Failed else EnrolSent(code, token))
    case EnrolDone(code, token, a) =>
      if a.Enrolled? && a.id == Derived(key) then SyncSent(code, token, a.id) else Failed
    case SyncDone(code, token, id, a) => if a.Done? then SignedIn(code, token, id) else Failed
  }

  predicate Enabled(w: World, a: Action) {
    match a
    case Begin(id, key) => id !in w.signIns && key !in w.agents
    case HandleStart(id, code) => id in w.signIns && w.signIns[id].phase.Starting?
    case SendPoll(id) => id in w.signIns && w.signIns[id].phase.Waiting?
    case HandleSelect(id) => id in w.signIns && w.signIns[id].phase.PollSent?
    case HandleCollect(id, token) => id in w.signIns && w.signIns[id].phase.Collecting?
    case HandleEnrol(id) => id in w.signIns && w.signIns[id].phase.EnrolSent?
    case HandleSync(id) => id in w.signIns && w.signIns[id].phase.SyncSent?
    case Fault(id, status) => id in w.signIns && InFlight(w.signIns[id].phase) && status != 200
    case Lose(id) => id in w.signIns && (InFlight(w.signIns[id].phase) || Delivered(w.signIns[id].phase))
    case Take(id) => id in w.signIns && Delivered(w.signIns[id].phase)
    case TimeOut(id) => id in w.signIns && w.signIns[id].phase.Waiting?
    case Forget(key) => true
    case Other(call) => true
  }

  function Move(w: World, id: nat, p: Phase): World
    requires id in w.signIns
  {
    w.(signIns := w.signIns[id := w.signIns[id].(phase := p)])
  }

  function Reply(w: World, id: nat, r: Result): World
    requires id in w.signIns && InFlight(w.signIns[id].phase)
  {
    Move(w, id, AnswerWith(w.signIns[id].phase, r.answer)).(server := r.server)
  }

  function Next(w: World, a: Action): World
    requires Enabled(w, a)
  {
    match a
    case Begin(id, key) => w.(signIns := w.signIns[id := SignIn(key, Starting)])
    case HandleStart(id, code) => Reply(w, id, Start(w.server, w.signIns[id].key, code))
    case SendPoll(id) => Move(w, id, PollSent(w.signIns[id].phase.code))
    case HandleSelect(id) =>
      var l := w.signIns[id];
      (match PollSelect(w.server, l.key, l.phase.code)
       case Some(answer) => Reply(w, id, Result(answer, w.server))
       case None => Move(w, id, Collecting(l.phase.code)))
    case HandleCollect(id, token) =>
      Reply(w, id, Collect(w.server, w.signIns[id].key, w.signIns[id].phase.code, token))
    case HandleEnrol(id) => Reply(w, id, Enrol(w.server, w.signIns[id].key, w.signIns[id].phase.token))
    case HandleSync(id) => Reply(w, id, Result(Done, w.server))
    case Fault(id, status) => Reply(w, id, Result(Error(status), w.server))
    case Lose(id) =>
      var p := w.signIns[id].phase;
      Move(w, id, if InFlight(p) then AnswerWith(p, Lost) else p.(answer := Lost))
    case Take(id) =>
      var l := w.signIns[id];
      var p := TakeAnswer(l.key, l.phase);
      var moved := Move(w, id, p);
      if p.SignedIn? then moved.(agents := w.agents[l.key := p.id]) else moved
    case TimeOut(id) => Move(w, id, Failed)
    case Forget(key) => w.(agents := w.agents - {key})
    case Other(call) => w.(server := Handle(w.server, call).server)
  }

  predicate Schedule(w: World, actions: seq<Action>)
    decreases |actions|
  {
    actions == [] || (Enabled(w, actions[0]) && Schedule(Next(w, actions[0]), actions[1..]))
  }

  function Exec(w: World, actions: seq<Action>): World
    requires Schedule(w, actions)
    decreases |actions|
  {
    if actions == [] then w else Exec(Next(w, actions[0]), actions[1..])
  }

  // ----- what a sign in knows

  predicate Given(s: Server, key: string, code: string) {
    code in s.past.asked && s.past.asked[code].key == key
  }

  predicate Minted(s: Server, key: string, code: string, token: string) {
    code in s.past.mints && s.past.mints[code] == Mint(key, token)
  }

  /** The server has committed an enrolment of the key for the account that approved the code. */
  predicate Bound(s: Server, key: string, code: string, token: string) {
    && Given(s, key, code) && Minted(s, key, code, token)
    && code in s.past.answers && s.past.answers[code].approve
    && token in s.past.enrolments
    && s.past.enrolments[token] == Enrolment.Binding(key, s.past.answers[code].account)
  }

  ghost predicate Knows(s: Server, l: SignIn) {
    match l.phase
    case Starting => true
    case Started(a) => a.GaveCode? ==> Given(s, l.key, a.code)
    case Waiting(code) => Given(s, l.key, code)
    case PollSent(code) => Given(s, l.key, code)
    case Collecting(code) => Given(s, l.key, code)
    case Polled(code, a) => Given(s, l.key, code) && (a.GaveToken? ==> Minted(s, l.key, code, a.token))
    case EnrolSent(code, token) => Given(s, l.key, code) && Minted(s, l.key, code, token)
    case EnrolDone(code, token, a) =>
      && Given(s, l.key, code) && Minted(s, l.key, code, token)
      && (a.Enrolled? ==> a.id == Derived(l.key) && Bound(s, l.key, code, token))
    case SyncSent(code, token, id) => id == Derived(l.key) && Bound(s, l.key, code, token)
    case SyncDone(code, token, id, a) => id == Derived(l.key) && Bound(s, l.key, code, token)
    case SignedIn(code, token, id) => id == Derived(l.key) && Bound(s, l.key, code, token)
    case Failed => true
  }

  ghost predicate Inv(w: World) {
    && Sound(w.server)
    && (forall id :: id in w.signIns ==> Knows(w.server, w.signIns[id]))
    && (forall key :: key in w.agents ==> Vouched(w, key))
  }

  predicate Finished(w: World, id: nat, key: string, device: DeviceId) {
    && id in w.signIns && w.signIns[id].key == key
    && w.signIns[id].phase.SignedIn? && w.signIns[id].phase.id == device
  }

  /** Some sign in of this PC went all the way and left it the id it holds. */
  ghost predicate Vouched(w: World, key: string)
    requires key in w.agents
  {
    exists id :: Finished(w, id, key, w.agents[key])
  }

  lemma BoundEvolves(s: Server, t: Server, key: string, code: string, token: string)
    requires Evolves(s, t)
    ensures Given(s, key, code) ==> Given(t, key, code)
    ensures Minted(s, key, code, token) ==> Minted(t, key, code, token)
    ensures Bound(s, key, code, token) ==> Bound(t, key, code, token)
  {
  }

  lemma KnowsEvolves(s: Server, t: Server, l: SignIn)
    requires Evolves(s, t) && Knows(s, l)
    ensures Knows(t, l)
  {
    match l.phase
    case Started(a) =>
      if a.GaveCode? {
        BoundEvolves(s, t, l.key, a.code, "");
      }
    case Waiting(code) => BoundEvolves(s, t, l.key, code, "");
    case PollSent(code) => BoundEvolves(s, t, l.key, code, "");
    case Collecting(code) => BoundEvolves(s, t, l.key, code, "");
    case Polled(code, a) => BoundEvolves(s, t, l.key, code, if a.GaveToken? then a.token else "");
    case EnrolSent(code, token) => BoundEvolves(s, t, l.key, code, token);
    case EnrolDone(code, token, _) => BoundEvolves(s, t, l.key, code, token);
    case SyncSent(code, token, _) => BoundEvolves(s, t, l.key, code, token);
    case SyncDone(code, token, _, _) => BoundEvolves(s, t, l.key, code, token);
    case SignedIn(code, token, _) => BoundEvolves(s, t, l.key, code, token);
    case Starting =>
    case Failed =>
  }

  /** Every action is at most one call to the server. */
  function CallOf(w: World, a: Action): Call
    requires Enabled(w, a)
  {
    match a
    case HandleStart(id, code) => CallStart(w.signIns[id].key, code)
    case HandleCollect(id, token) => CallCollect(w.signIns[id].key, w.signIns[id].phase.code, token)
    case HandleEnrol(id) => CallEnrol(w.signIns[id].key, w.signIns[id].phase.token)
    case Other(call) => call
    case _ => CallTick(0)
  }

  /** The actions that leave the server as it is. */
  predicate Quiet(a: Action) {
    !a.HandleStart? && !a.HandleCollect? && !a.HandleEnrol? && !a.Other?
  }

  lemma QuietServer(w: World, a: Action)
    requires Enabled(w, a) && Quiet(a)
    ensures Next(w, a).server == w.server
  {
  }

  lemma LoudServer(w: World, a: Action)
    requires Enabled(w, a) && !Quiet(a)
    ensures Next(w, a).server == Handle(w.server, CallOf(w, a)).server
  {
  }

  lemma CallKeeps(s: Server, t: Server, call: Call)
    requires Sound(s) && (t == s || t == Handle(s, call).server)
    ensures Sound(t) && Evolves(s, t)
  {
    if t == s {
      IdleKeeps(s, t);
    } else {
      HandleKeeps(s, call);
    }
  }

  lemma NextIsACall(w: World, a: Action)
    requires Sound(w.server) && Enabled(w, a)
    ensures Sound(Next(w, a).server) && Evolves(w.server, Next(w, a).server)
  {
    if Quiet(a) {
      QuietServer(w, a);
    } else {
      LoudServer(w, a);
    }
    CallKeeps(w.server, Next(w, a).server, CallOf(w, a));
  }

  // ----- one sign in at a time

  lemma StartKnows(s: Server, l: SignIn, code: string)
    requires l.phase.Starting?
    ensures var r := Start(s, l.key, code); Knows(r.server, l.(phase := AnswerWith(l.phase, r.answer)))
  {
  }

  lemma SelectKnows(s: Server, l: SignIn)
    requires l.phase.PollSent? && Knows(s, l)
    ensures match PollSelect(s, l.key, l.phase.code)
      case Some(answer) => Knows(s, l.(phase := AnswerWith(l.phase, answer)))
      case None => Knows(s, l.(phase := Collecting(l.phase.code)))
  {
  }

  lemma CollectKnows(s: Server, l: SignIn, token: string)
    requires l.phase.Collecting? && Knows(s, l)
    ensures var r := Collect(s, l.key, l.phase.code, token); Knows(r.server, l.(phase := AnswerWith(l.phase, r.answer)))
  {
  }

  lemma EnrolKnows(s: Server, l: SignIn)
    requires Sound(s) && l.phase.EnrolSent? && Knows(s, l)
    ensures var r := Enrol(s, l.key, l.phase.token); Knows(r.server, l.(phase := AnswerWith(l.phase, r.answer)))
  {
    var t := Enrol(s, l.key, l.phase.token).server;
    assert MintOk(s.past, l.phase.code);
    assert Given(t, l.key, l.phase.code) && Minted(t, l.key, l.phase.code, l.phase.token);
  }

  /** An answer that says nothing, because it is an error, an acknowledgement or lost. */
  lemma EmptyAnswerKnows(s: Server, l: SignIn, a: Answer)
    requires InFlight(l.phase) && Knows(s, l) && (a.Error? || a.Lost? || (a.Done? && l.phase.SyncSent?))
    ensures Knows(s, l.(phase := AnswerWith(l.phase, a)))
  {
  }

  lemma LostAnswerKnows(s: Server, l: SignIn)
    requires Delivered(l.phase) && Knows(s, l)
    ensures Knows(s, l.(phase := l.phase.(answer := Lost)))
  {
  }

  lemma TakeKnows(s: Server, l: SignIn)
    requires Delivered(l.phase) && Knows(s, l)
    ensures Knows(s, l.(phase := TakeAnswer(l.key, l.phase)))
  {
  }

  lemma HandlerKnows(w: World, a: Action)
    requires Inv(w) && Enabled(w, a)
    requires a.HandleStart? || a.HandleSelect? || a.HandleCollect? || a.HandleEnrol? || a.HandleSync?
    ensures Knows(Next(w, a).server, Next(w, a).signIns[a.id])
  {
    var s, l := w.server, w.signIns[a.id];
    assert Knows(s, l);
    match a
    case HandleStart(_, code) => StartKnows(s, l, code);
    case HandleSelect(_) => SelectKnows(s, l);
    case HandleCollect(_, token) => CollectKnows(s, l, token);
    case HandleEnrol(_) => EnrolKnows(s, l);
    case HandleSync(_) => EmptyAnswerKnows(s, l, Done);
  }

  lemma LocalKnows(w: World, a: Action)
    requires Inv(w) && Enabled(w, a)
    requires a.SendPoll? || a.Fault? || a.Lose? || a.Take? || a.TimeOut?
    ensures Knows(Next(w, a).server, Next(w, a).signIns[a.id])
  {
    var s, l := w.server, w.signIns[a.id];
    assert Knows(s, l);
    match a
    case Fault(_, status) => EmptyAnswerKnows(s, l, Error(status));
    case Lose(_) =>
      if InFlight(l.phase) {
        EmptyAnswerKnows(s, l, Lost);
      } else {
        LostAnswerKnows(s, l);
      }
    case Take(_) => TakeKnows(s, l);
    case SendPoll(_) =>
    case TimeOut(_) =>
  }

  /** A finished sign in stays as it is. */
  lemma SignedInStays(w: World, a: Action, id: nat)
    requires Enabled(w, a) && id in w.signIns && w.signIns[id].phase.SignedIn?
    ensures id in Next(w, a).signIns && Next(w, a).signIns[id] == w.signIns[id]
  {
  }

  /** What a PC holds changes only when a sign in of it finishes, or it forgets. */
  lemma AgentsAfter(w: World, a: Action, key: string)
    requires Enabled(w, a) && key in Next(w, a).agents
    requires !(key in w.agents && Next(w, a).agents[key] == w.agents[key])
    ensures a.Take? && Next(w, a).signIns[a.id].key == key && Next(w, a).signIns[a.id].phase.SignedIn?
    ensures Next(w, a).signIns[a.id].phase.id == Next(w, a).agents[key]
  {
  }

  lemma NextVouches(w: World, a: Action, key: string)
    requires Inv(w) && Enabled(w, a) && key in Next(w, a).agents
    ensures Vouched(Next(w, a), key)
  {
    if key in w.agents && Next(w, a).agents[key] == w.agents[key] {
      assert Vouched(w, key);
      var id :| Finished(w, id, key, w.agents[key]);
      SignedInStays(w, a, id);
      assert Finished(Next(w, a), id, key, w.agents[key]);
    } else {
      AgentsAfter(w, a, key);
      assert Finished(Next(w, a), a.id, key, Next(w, a).agents[key]);
    }
  }

  lemma NextKeepsInv(w: World, a: Action)
    requires Inv(w) && Enabled(w, a)
    ensures Inv(Next(w, a))
  {
    var next := Next(w, a);
    NextIsACall(w, a);
    forall id | id in next.signIns ensures Knows(next.server, next.signIns[id]) {
      if !a.Begin? && !a.Forget? && !a.Other? && id == a.id {
        if a.HandleStart? || a.HandleSelect? || a.HandleCollect? || a.HandleEnrol? || a.HandleSync? {
          HandlerKnows(w, a);
        } else {
          LocalKnows(w, a);
        }
      } else if id in w.signIns && next.signIns[id] == w.signIns[id] {
        KnowsEvolves(w.server, next.server, w.signIns[id]);
      }
    }
    forall key | key in next.agents ensures Vouched(next, key) {
      NextVouches(w, a, key);
    }
  }

  lemma {:induction false} ScheduleKeepsInv(w: World, actions: seq<Action>)
    requires Inv(w) && Schedule(w, actions)
    ensures Inv(Exec(w, actions))
    decreases |actions|
  {
    if actions != [] {
      NextKeepsInv(w, actions[0]);
      ScheduleKeepsInv(Next(w, actions[0]), actions[1..]);
    }
  }

  // ----- the results

  /** In every run, a PC that counts itself enrolled holds its own device id, and the server has
      committed an enrolment of its key for the account that approved a code this PC was given. */
  lemma EnrolledMeansApproved(actions: seq<Action>, key: string) returns (id: nat)
    requires Schedule(NEW_WORLD, actions) && key in Exec(NEW_WORLD, actions).agents
    ensures var w := Exec(NEW_WORLD, actions);
      && w.agents[key] == Derived(key)
      && id in w.signIns && w.signIns[id].key == key && w.signIns[id].phase.SignedIn?
      && Bound(w.server, key, w.signIns[id].phase.code, w.signIns[id].phase.token)
  {
    ScheduleKeepsInv(NEW_WORLD, actions);
    var w := Exec(NEW_WORLD, actions);
    assert Vouched(w, key);
    id :| Finished(w, id, key, w.agents[key]);
    assert Knows(w.server, w.signIns[id]);
  }

  lemma {:induction false} FailedIsTheEnd(w: World, actions: seq<Action>, id: nat)
    requires Schedule(w, actions) && id in w.signIns && w.signIns[id].phase.Failed?
    ensures forall i :: 0 <= i < |actions| ==> actions[i] != SendPoll(id)
    decreases |actions|
  {
    if actions != [] {
      var next := Next(w, actions[0]);
      assert id in next.signIns && next.signIns[id].phase.Failed?;
      FailedIsTheEnd(next, actions[1..], id);
      forall i | 0 <= i < |actions| ensures actions[i] != SendPoll(id) {
        assert i > 0 ==> actions[i] == actions[1..][i - 1];
      }
    }
  }

  /** No poll follows a final answer: once a sign in has taken a 4xx other than 429 from a poll, no
      schedule makes it poll again. */
  lemma NoPollAfterFinalAnswer(w: World, more: seq<Action>, id: nat)
    requires Enabled(w, Take(id)) && w.signIns[id].phase.Polled?
    requires w.signIns[id].phase.answer.Error? && Answered(w.signIns[id].phase.answer.status)
    requires Schedule(Next(w, Take(id)), more)
    ensures forall i :: 0 <= i < |more| ==> more[i] != SendPoll(id)
  {
    FailedIsTheEnd(Next(w, Take(id)), more, id);
  }

  /** Nothing else stops the polling before a token arrives: a lost answer, a rate limit, a server
      error and "pending" all lead back to the wait. */
  lemma OnlyFinalAnswersStop(w: World, id: nat)
    requires Enabled(w, Take(id)) && w.signIns[id].phase.Polled?
    requires var a := w.signIns[id].phase.answer; a.Lost? || a.StillPending? || (a.Error? && !Answered(a.status))
    ensures Enabled(Next(w, Take(id)), SendPoll(id))
  {
  }
}
