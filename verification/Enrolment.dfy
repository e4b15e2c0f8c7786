/** Browser enrolment on the server: codes a device key asks for, the answer a signed-in account
    gives, the token an approved code is traded for, and the enrolment the token is spent on. Deleting
    an account takes the codes it answered and its tokens along. Each function is one statement or one
    transaction; `Login` interleaves them. Codes and tokens are random, so none is given out twice,
    also after its row has gone. */
module Enrolment {
  import opened Common

  datatype Status = Pending | Approved | Refused

  /** A device_enrolments row. */
  datatype CodeRow = CodeRow(key: string, status: Status, answeredBy: Option<string>, expires: int, used: bool)
  datatype TokenRow = TokenRow(account: string, expires: int, used: bool)

  /** The device id is derived from the public key by a hash, so distinct keys have distinct ids. */
  datatype DeviceId = Derived(key: string)

  datatype Ask = Ask(key: string, expires: int)
  datatype Verdict = Verdict(account: string, approve: bool)
  datatype Mint = Mint(key: string, token: string)
  datatype Binding = Binding(key: string, account: string)

  /** What has happened, whatever rows are left of it: who asked for a code, who answered it and how,
      which collection minted which token, whom a token is for, and which enrolment spent it. The
      server keeps none of it: it is what the properties are about. */
  datatype History = History(
    asked: map<string, Ask>,
    answers: map<string, Verdict>,
    mints: map<string, Mint>,
    minted: map<string, string>,
    enrolments: map<string, Binding>)

  datatype Server = Server(
    codes: map<string, CodeRow>,
    tokens: map<string, TokenRow>,
    disabled: set<string>,
    gone: set<string>,
    clock: int,
    past: History)

  const FRESH := Server(map[], map[], {}, {}, 0, History(map[], map[], map[], map[], map[]))

  const START_TTL := 600
  const TOKEN_TTL := 600

  datatype Answer =
    | GaveCode(code: string)
    | StillPending(interval: int)
    | GaveToken(token: string)
    | Enrolled(id: DeviceId)
    | Done
    | Error(status: int)
    | Lost

  datatype Result = Result(answer: Answer, server: Server)

  predicate Live(s: Server, code: string) {
    code in s.codes && !s.codes[code].used && s.codes[code].expires > s.clock
  }

  /** startEnrolment. */
  function Start(s: Server, key: string, code: string): Result {
    if code in s.past.asked then Result(Error(500), s)
    else
      var expires := s.clock + START_TTL;
      Result(GaveCode(code),
             s.(codes := s.codes[code := CodeRow(key, Pending, None, expires, false)],
                past := s.past.(asked := s.past.asked[code := Ask(key, expires)])))
  }

  /** answerEnrolment: one guarded UPDATE. A deleted account has no session. */
  function AnswerCode(s: Server, account: string, code: string, approve: bool): Result {
    if account in s.gone then Result(Error(401), s)
    else if Live(s, code) && s.codes[code].status == Pending then
      var status := if approve then Approved else Refused;
      Result(Done,
             s.(codes := s.codes[code := s.codes[code].(status := status, answeredBy := Some(account))],
                past := s.past.(answers := s.past.answers[code := Verdict(account, approve)])))
    else Result(Error(404), s)
  }

  /** The first half of pollEnrolment. None is the approved row, which goes on to `Collect`. */
  function PollSelect(s: Server, key: string, code: string): Option<Answer> {
    if !Live(s, code) || s.codes[code].key != key then Some(Error(404))
    else match s.codes[code].status
      case Refused => Some(Error(403))
      case Pending => Some(StillPending(5))
      case Approved => None
  }

  predicate Collectable(s: Server, key: string, code: string) {
    Live(s, code) && s.codes[code].key == key && s.codes[code].status == Approved && s.codes[code].answeredBy.Some?
  }

  /** The second half: consuming the row and minting the token are one transaction. */
  function Collect(s: Server, key: string, code: string, token: string): Result {
    if token in s.past.minted then Result(Error(500), s)
    else if Collectable(s, key, code) then
      var account := s.codes[code].answeredBy.value;
      Result(GaveToken(token),
             s.(codes := s.codes[code := s.codes[code].(used := true)],
                tokens := s.tokens[token := TokenRow(account, s.clock + TOKEN_TTL, false)],
                past := s.past.(mints := s.past.mints[code := Mint(key, token)],
                                minted := s.past.minted[token := account])))
    else Result(Error(404), s)
  }

  /** mintEnrolToken: a token for a signed-in account, with no code behind it. */
  function MintToken(s: Server, account: string, token: string): Result {
    if account in s.gone then Result(Error(401), s)
    else if token in s.past.minted then Result(Error(500), s)
    else
      Result(GaveToken(token),
             s.(tokens := s.tokens[token := TokenRow(account, s.clock + TOKEN_TTL, false)],
                past := s.past.(minted := s.past.minted[token := account])))
  }

  /** enrolDevice: consuming the token comes first, and a disabled device rolls it back. */
  function Enrol(s: Server, key: string, token: string): Result {
    if token !in s.tokens || s.tokens[token].used || s.tokens[token].expires <= s.clock then Result(Error(401), s)
    else if key in s.disabled then Result(Error(403), s)
    else
      Result(Enrolled(Derived(key)),
             s.(tokens := s.tokens[token := s.tokens[token].(used := true)],
                past := s.past.(enrolments := s.past.enrolments[token := Binding(key, s.tokens[token].account)])))
  }

  /** The cascades of an account's deletion. */
  function Delete(s: Server, account: string): Result {
    Result(Done,
           s.(codes := map c | c in s.codes && s.codes[c].answeredBy != Some(account) :: s.codes[c],
              tokens := map k | k in s.tokens && s.tokens[k].account != account :: s.tokens[k],
              gone := s.gone + {account}))
  }

  /** Everything anybody can do to the server. */
  datatype Call =
    | CallStart(key: string, code: string)
    | CallAnswer(account: string, code: string, approve: bool)
    | CallCollect(key: string, code: string, token: string)
    | CallMint(account: string, token: string)
    | CallEnrol(key: string, token: string)
    | CallDisable(key: string)
    | CallDelete(account: string)
    | CallTick(seconds: nat)

  function Handle(s: Server, call: Call): Result {
    match call
    case CallStart(key, code) => Start(s, key, code)
    case CallAnswer(account, code, approve) => AnswerCode(s, account, code, approve)
    case CallCollect(key, code, token) => Collect(s, key, code, token)
    case CallMint(account, token) => MintToken(s, account, token)
    case CallEnrol(key, token) => Enrol(s, key, token)
    case CallDisable(key) => Result(Done, s.(disabled := s.disabled + {key}))
    case CallDelete(account) => Delete(s, account)
    case CallTick(seconds) => Result(Done, s.(clock := s.clock + seconds))
  }

  function Calls(s: Server, calls: seq<Call>): Server
    decreases |calls|
  {
    if calls == [] then s else Calls(Handle(s, calls[0]).server, calls[1..])
  }

  // ----- what every call keeps

  /** A row says what the history says. */
  ghost predicate CodeOk(s: Server, c: string)
    requires c in s.codes
  {
    var row := s.codes[c];
    && c in s.past.asked && s.past.asked[c] == Ask(row.key, row.expires)
    && (row.status == Pending <==> c !in s.past.answers)
    && (row.status == Pending <==> row.answeredBy.None?)
    && (c in s.past.answers ==>
          && row.answeredBy == Some(s.past.answers[c].account) && row.answeredBy.value !in s.gone
          && (row.status == Approved <==> s.past.answers[c].approve))
    && (row.used <==> c in s.past.mints)
  }

  ghost predicate TokenOk(s: Server, k: string)
    requires k in s.tokens
  {
    && k in s.past.minted && s.past.minted[k] == s.tokens[k].account && s.tokens[k].account !in s.gone
    && (s.tokens[k].used <==> k in s.past.enrolments)
  }

  /** A minted token was collected by the key that asked, from an approved code, and is for the
      account that approved it. */
  ghost predicate MintOk(h: History, c: string)
    requires c in h.mints
  {
    && c in h.asked && h.asked[c].key == h.mints[c].key
    && c in h.answers && h.answers[c].approve
    && h.mints[c].token in h.minted && h.minted[h.mints[c].token] == h.answers[c].account
  }

  ghost predicate HistoryOk(h: History) {
    && (forall c :: c in h.answers ==> c in h.asked)
    && (forall c :: c in h.mints ==> MintOk(h, c))
    && (forall k :: k in h.enrolments ==> k in h.minted && h.enrolments[k].account == h.minted[k])
    && (forall c, d :: c in h.mints && d in h.mints && h.mints[c].token == h.mints[d].token ==> c == d)
  }

  ghost predicate Sound(s: Server) {
    && (forall c :: c in s.codes ==> CodeOk(s, c))
    && (forall k :: k in s.tokens ==> TokenOk(s, k))
    && HistoryOk(s.past)
  }

  /** The history only grows, and what it says stays said. */
  ghost predicate Grows(g: History, h: History) {
    && (forall c :: c in g.asked ==> c in h.asked && h.asked[c] == g.asked[c])
    && (forall c :: c in g.answers ==> c in h.answers && h.answers[c] == g.answers[c])
    && (forall c :: c in g.mints ==> c in h.mints && h.mints[c] == g.mints[c])
    && (forall k :: k in g.minted ==> k in h.minted && h.minted[k] == g.minted[k])
    && (forall k :: k in g.enrolments ==> k in h.enrolments && h.enrolments[k] == g.enrolments[k])
  }

  /** How the server can change over any stretch of time. Rows that have gone stay gone, and a code
      that was asked for is collected later only if it was there, in time and not refused. */
  ghost predicate Evolves(s: Server, t: Server) {
    && s.clock <= t.clock && s.gone <= t.gone && Grows(s.past, t.past)
    && (forall c :: c in s.past.asked && c in t.codes ==> c in s.codes)
    && (forall k :: k in s.past.minted && k in t.tokens ==> k in s.tokens)
    && (forall c :: c in s.past.asked && c in t.past.mints && c !in s.past.mints ==>
          && c in s.codes && s.past.asked[c].expires > s.clock
          && (c in s.past.answers ==> s.past.answers[c].approve))
  }

  lemma EvolvesTransitive(s: Server, t: Server, u: Server)
    requires Evolves(s, t) && Evolves(t, u)
    ensures Evolves(s, u)
  {
  }

  lemma SameEvolves(s: Server)
    ensures Evolves(s, s)
  {
  }

  lemma AskedMore(h: History, code: string, ask: Ask)
    requires HistoryOk(h) && code !in h.asked
    ensures var next := h.(asked := h.asked[code := ask]); HistoryOk(next) && Grows(h, next)
  {
    var next := h.(asked := h.asked[code := ask]);
    forall c | c in next.mints ensures MintOk(next, c) {
      assert MintOk(h, c);
    }
  }

  lemma AnsweredMore(h: History, code: string, verdict: Verdict)
    requires HistoryOk(h) && code in h.asked && code !in h.answers
    ensures var next := h.(answers := h.answers[code := verdict]); HistoryOk(next) && Grows(h, next)
  {
    var next := h.(answers := h.answers[code := verdict]);
    forall c | c in next.mints ensures MintOk(next, c) {
      assert MintOk(h, c);
    }
  }

  lemma MintedMore(h: History, token: string, account: string)
    requires HistoryOk(h) && token !in h.minted
    ensures var next := h.(minted := h.minted[token := account]); HistoryOk(next) && Grows(h, next)
  {
    var next := h.(minted := h.minted[token := account]);
    forall c | c in next.mints ensures MintOk(next, c) {
      assert MintOk(h, c);
    }
  }

  lemma EnrolledMore(h: History, token: string, b: Binding)
    requires HistoryOk(h) && token in h.minted && h.minted[token] == b.account && token !in h.enrolments
    ensures var next := h.(enrolments := h.enrolments[token := b]); HistoryOk(next) && Grows(h, next)
  {
    var next := h.(enrolments := h.enrolments[token := b]);
    forall c | c in next.mints ensures MintOk(next, c) {
      assert MintOk(h, c);
    }
  }

  /** Only a code that was asked for is answered or collected. */
  lemma OnlyAsked(h: History, code: string)
    requires HistoryOk(h)
    ensures code in h.mints || code in h.answers ==> code in h.asked
  {
    if code in h.mints {
      assert MintOk(h, code);
    }
  }

  lemma StartKeeps(s: Server, key: string, code: string)
    requires Sound(s)
    ensures Sound(Start(s, key, code).server) && Evolves(s, Start(s, key, code).server)
  {
    if code in s.past.asked {
      SameEvolves(s);
    } else {
      var t := Start(s, key, code).server;
      AskedMore(s.past, code, Ask(key, s.clock + START_TTL));
      OnlyAsked(s.past, code);
      forall c | c in t.codes ensures CodeOk(t, c) {
        assert c != code ==> CodeOk(s, c);
      }
      forall k | k in t.tokens ensures TokenOk(t, k) {
        assert TokenOk(s, k);
      }
    }
  }

  lemma AnswerKeeps(s: Server, account: string, code: string, approve: bool)
    requires Sound(s)
    ensures Sound(AnswerCode(s, account, code, approve).server)
    ensures Evolves(s, AnswerCode(s, account, code, approve).server)
  {
    if AnswerCode(s, account, code, approve).answer != Done {
      SameEvolves(s);
    } else {
      var t := AnswerCode(s, account, code, approve).server;
      assert CodeOk(s, code);
      AnsweredMore(s.past, code, Verdict(account, approve));
      forall c | c in t.codes ensures CodeOk(t, c) {
        assert CodeOk(s, c);
      }
      forall k | k in t.tokens ensures TokenOk(t, k) {
        assert TokenOk(s, k);
      }
    }
  }

  lemma CollectKeepsRows(s: Server, key: string, code: string, token: string)
    requires Sound(s) && Collect(s, key, code, token).answer.GaveToken?
    ensures var t := Collect(s, key, code, token).server;
      && (forall c :: c in t.codes ==> CodeOk(t, c))
      && (forall k :: k in t.tokens ==> TokenOk(t, k))
  {
    var t := Collect(s, key, code, token).server;
    forall c | c in t.codes ensures CodeOk(t, c) {
      assert CodeOk(s, c);
    }
    forall k | k in t.tokens ensures TokenOk(t, k) {
      if k == token {
        assert CodeOk(s, code) && token !in s.past.enrolments;
      } else {
        assert TokenOk(s, k);
      }
    }
  }

  lemma CollectKeepsHistory(s: Server, key: string, code: string, token: string)
    requires Sound(s) && Collect(s, key, code, token).answer.GaveToken?
    ensures HistoryOk(Collect(s, key, code, token).server.past)
  {
    var h := Collect(s, key, code, token).server.past;
    assert CodeOk(s, code);
    forall c | c in h.mints ensures MintOk(h, c) {
      assert c != code ==> MintOk(s.past, c);
    }
    forall c, d | c in h.mints && d in h.mints && h.mints[c].token == h.mints[d].token ensures c == d {
      assert c != code ==> MintOk(s.past, c);
      assert d != code ==> MintOk(s.past, d);
    }
  }

  lemma CollectKeeps(s: Server, key: string, code: string, token: string)
    requires Sound(s)
    ensures Sound(Collect(s, key, code, token).server) && Evolves(s, Collect(s, key, code, token).server)
  {
    if Collect(s, key, code, token).answer.GaveToken? {
      CollectKeepsRows(s, key, code, token);
      CollectKeepsHistory(s, key, code, token);
      assert CodeOk(s, code);
    } else {
      SameEvolves(s);
    }
  }

  lemma MintKeeps(s: Server, account: string, token: string)
    requires Sound(s)
    ensures Sound(MintToken(s, account, token).server) && Evolves(s, MintToken(s, account, token).server)
  {
    if !MintToken(s, account, token).answer.GaveToken? {
      SameEvolves(s);
    } else {
      var t := MintToken(s, account, token).server;
      MintedMore(s.past, token, account);
      forall c | c in t.codes ensures CodeOk(t, c) {
        assert CodeOk(s, c);
      }
      forall k | k in t.tokens ensures TokenOk(t, k) {
        assert k != token ==> TokenOk(s, k);
      }
    }
  }

  lemma EnrolKeeps(s: Server, key: string, token: string)
    requires Sound(s)
    ensures Sound(Enrol(s, key, token).server) && Evolves(s, Enrol(s, key, token).server)
  {
    if !Enrol(s, key, token).answer.Enrolled? {
      SameEvolves(s);
    } else {
      var t := Enrol(s, key, token).server;
      assert TokenOk(s, token);
      EnrolledMore(s.past, token, Binding(key, s.tokens[token].account));
      forall c | c in t.codes ensures CodeOk(t, c) {
        assert CodeOk(s, c);
      }
      forall k | k in t.tokens ensures TokenOk(t, k) {
        assert TokenOk(s, k);
      }
    }
  }

  lemma DeleteKeeps(s: Server, account: string)
    requires Sound(s)
    ensures Sound(Delete(s, account).server) && Evolves(s, Delete(s, account).server)
  {
    assert forall c :: c in s.codes ==> CodeOk(s, c);
    assert forall k :: k in s.tokens ==> TokenOk(s, k);
  }

  lemma IdleKeeps(s: Server, t: Server)
    requires Sound(s) && t == s.(clock := t.clock, disabled := t.disabled) && s.clock <= t.clock
    ensures Sound(t) && Evolves(s, t)
  {
    assert forall c :: c in s.codes ==> CodeOk(s, c);
    assert forall k :: k in s.tokens ==> TokenOk(s, k);
  }

  lemma HandleKeeps(s: Server, call: Call)
    requires Sound(s)
    ensures Sound(Handle(s, call).server) && Evolves(s, Handle(s, call).server)
  {
    match call
    case CallStart(key, code) => StartKeeps(s, key, code);
    case CallAnswer(account, code, approve) => AnswerKeeps(s, account, code, approve);
    case CallCollect(key, code, token) => CollectKeeps(s, key, code, token);
    case CallMint(account, token) => MintKeeps(s, account, token);
    case CallEnrol(key, token) => EnrolKeeps(s, key, token);
    case CallDelete(account) => DeleteKeeps(s, account);
    case CallDisable(_) => IdleKeeps(s, Handle(s, call).server);
    case CallTick(_) => IdleKeeps(s, Handle(s, call).server);
  }

  lemma {:induction false} CallsEvolve(s: Server, calls: seq<Call>)
    requires Sound(s)
    ensures Sound(Calls(s, calls)) && Evolves(s, Calls(s, calls))
    decreases |calls|
  {
    if calls == [] {
      SameEvolves(s);
    } else {
      var t := Handle(s, calls[0]).server;
      HandleKeeps(s, calls[0]);
      CallsEvolve(t, calls[1..]);
      EvolvesTransitive(s, t, Calls(s, calls));
    }
  }

  // ----- the results, for every sequence of calls by anybody

  /** A code leaves pending at most once and its answer never changes, and as long as there is a row
      it says so. */
  lemma AnsweredOnce(calls: seq<Call>, more: seq<Call>, code: string)
    requires code in Calls(FRESH, calls).past.answers
    ensures var s := Calls(FRESH, calls);
      var t := Calls(s, more);
      && code in t.past.answers && t.past.answers[code] == s.past.answers[code]
      && (code in t.codes ==>
            && code in s.codes && t.codes[code].answeredBy == Some(s.past.answers[code].account)
            && t.codes[code].status == if s.past.answers[code].approve then Approved else Refused)
  {
    CallsEvolve(FRESH, calls);
    var s := Calls(FRESH, calls);
    CallsEvolve(s, more);
    assert code in Calls(s, more).codes ==> CodeOk(Calls(s, more), code);
  }

  /** Each approval mints at most one token, collected by the key that asked for the code, for the
      account that answered it, and no two approvals mint the same one. */
  lemma MintedForTheAsker(calls: seq<Call>, more: seq<Call>, code: string)
    requires code in Calls(FRESH, calls).past.mints
    ensures var h, later := Calls(FRESH, calls).past, Calls(Calls(FRESH, calls), more).past;
      && code in h.asked && h.mints[code].key == h.asked[code].key
      && code in h.answers && h.answers[code].approve
      && h.mints[code].token in h.minted && h.minted[h.mints[code].token] == h.answers[code].account
      && code in later.mints && later.mints[code] == h.mints[code]
      && forall other :: other in h.mints && h.mints[other].token == h.mints[code].token ==> other == code
  {
    CallsEvolve(FRESH, calls);
    CallsEvolve(Calls(FRESH, calls), more);
    assert MintOk(Calls(FRESH, calls).past, code);
  }

  /** A token enrols at most one key, for its own account, and spending it again is refused. */
  lemma SpentOnce(calls: seq<Call>, more: seq<Call>, token: string, key: string)
    requires token in Calls(FRESH, calls).past.enrolments
    ensures var s := Calls(FRESH, calls);
      var later := Calls(s, more);
      && token in s.past.minted && s.past.enrolments[token].account == s.past.minted[token]
      && token in later.past.enrolments && later.past.enrolments[token] == s.past.enrolments[token]
      && Enrol(later, key, token) == Result(Error(401), later)
  {
    CallsEvolve(FRESH, calls);
    var s := Calls(FRESH, calls);
    CallsEvolve(s, more);
    var later := Calls(s, more);
    assert token in later.tokens ==> TokenOk(later, token);
  }

  /** A code that is refused, or expires before it is collected, or goes with the account that answered
      it, never yields a token. */
  lemma NoTokenFromRefusedOrExpired(calls: seq<Call>, more: seq<Call>, code: string)
    requires var s := Calls(FRESH, calls);
      && code in s.past.asked
      && (|| (code in s.past.answers && !s.past.answers[code].approve)
          || (code !in s.past.mints && (s.past.asked[code].expires <= s.clock || code !in s.codes)))
    ensures code !in Calls(Calls(FRESH, calls), more).past.mints
  {
    CallsEvolve(FRESH, calls);
    var s := Calls(FRESH, calls);
    CallsEvolve(s, more);
    assert code in s.past.mints ==> MintOk(s.past, code);
  }

  /** Once an account is deleted no token minted for it enrols anything, however it was minted. */
  lemma NothingAfterDeletion(calls: seq<Call>, more: seq<Call>, token: string, key: string)
    requires var s := Calls(FRESH, calls); token in s.past.minted && s.past.minted[token] in s.gone
    ensures var later := Calls(Calls(FRESH, calls), more); Enrol(later, key, token) == Result(Error(401), later)
  {
    CallsEvolve(FRESH, calls);
    var s := Calls(FRESH, calls);
    CallsEvolve(s, more);
    var later := Calls(s, more);
    assert token in later.tokens ==> TokenOk(later, token);
  }
}
