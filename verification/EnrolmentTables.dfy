/** The enrolment protocol and the control plane's tables are two views of one server: what spends
    and mints tokens in `Enrolment` is the transaction `Access` runs on its tables. */
module EnrolmentTables {
  import opened Common
  import Access
  import Enrolment

  predicate SameToken(a: Enrolment.TokenRow, b: Access.Token) {
    a.account == b.account && a.expires == b.expires && a.used == b.used
  }

  ghost predicate SameTokens(x: map<string, Enrolment.TokenRow>, y: map<string, Access.Token>) {
    x.Keys == y.Keys && forall k :: k in x ==> SameToken(x[k], y[k])
  }

  ghost predicate SameDisabled(disabled: set<string>, devices: map<string, Access.Status>) {
    forall d :: d in disabled <==> d in devices && devices[d] == Access.Disabled
  }

  /** The same tokens, clock and disabled devices. A device is named by its key on both sides, which
      the derived id allows. */
  ghost predicate Same(s: Enrolment.Server, t: Access.Tables) {
    s.clock == t.clock && SameTokens(s.tokens, t.tokens) && SameDisabled(s.disabled, t.devices)
  }

  lemma WriteToken(x: map<string, Enrolment.TokenRow>, y: map<string, Access.Token>,
                   k: string, a: Enrolment.TokenRow, b: Access.Token)
    requires SameTokens(x, y) && SameToken(a, b)
    ensures SameTokens(x[k := a], y[k := b])
  {
  }

  /** The code a transaction answers with where the protocol gives that answer. */
  function CodeOf(a: Enrolment.Answer): Option<Access.Code> {
    match a
    case Enrolled(_) => Some(Access.Ok)
    case GaveToken(_) => Some(Access.Ok)
    case Error(status) =>
      if status == 401 then Some(Access.Unauthorized)
      else if status == 403 then Some(Access.DeviceOff)
      else if status == 500 then Some(Access.ServerError)
      else None
    case _ => None
  }

  /** Spending a token is the enrol transaction, and when it succeeds the account the protocol
      records is bound to the device in the tables. */
  lemma EnrolIsTheTransaction(s: Enrolment.Server, t: Access.Tables, key: string, token: string)
    requires Same(s, t) && Access.SafeToken(key)
    requires token in s.tokens ==> Access.SafeToken(s.tokens[token].account)
    ensures var r, u := Enrolment.Enrol(s, key, token), Access.Enrol(t, key, token);
      && Same(r.server, u.next) && CodeOf(r.answer) == Some(u.code)
      && (r.answer.Enrolled? ==>
            && token in r.server.past.enrolments && r.server.past.enrolments[token].key == key
            && Access.IsActive(u.next.bindings, key, r.server.past.enrolments[token].account))
  {
    var r, u := Enrolment.Enrol(s, key, token), Access.Enrol(t, key, token);
    assert token in s.tokens <==> token in t.tokens;
    if r.answer.Enrolled? {
      var a, b := s.tokens[token].(used := true), t.tokens[token].(used := true);
      assert SameToken(s.tokens[token], t.tokens[token]);
      assert u.code == Access.Ok;
      WriteToken(s.tokens, t.tokens, token, a, b);
      assert u.next.devices == t.devices[key := Access.Active];
    } else {
      assert token in s.tokens ==> SameToken(s.tokens[token], t.tokens[token]);
      assert r.server == s && u.next == t;
    }
  }

  /** Collecting an approved code writes to the tokens table what minting for the account that
      approved it writes. */
  lemma CollectIsTheTransaction(uuid: Access.Cast, s: Enrolment.Server, t: Access.Tables,
                                key: string, code: string, token: string)
    requires Same(s, t) && Enrolment.Sound(s) && Enrolment.Collect(s, key, code, token).answer.GaveToken?
    requires s.codes[code].answeredBy.value in t.accounts
    ensures var u := Access.Step(uuid, t, Access.DoMintToken(s.codes[code].answeredBy.value, token));
      u.code == Access.Ok && Same(Enrolment.Collect(s, key, code, token).server, u.next)
  {
    var account, expires := s.codes[code].answeredBy.value, s.clock + 600;
    assert token in s.tokens ==> Enrolment.TokenOk(s, token);
    assert token !in t.tokens;
    WriteToken(s.tokens, t.tokens, token,
      Enrolment.TokenRow(account, expires, false), Access.Token(account, expires, false));
  }

  /** Deleting an account takes the same tokens along on both sides. */
  lemma DeleteIsTheTransaction(s: Enrolment.Server, t: Access.Tables, account: string)
    requires Same(s, t) && account in t.accounts && Access.SafeToken(account)
    ensures var u := Access.DeleteAccount(t, account);
      u.code == Access.Ok && Same(Enrolment.Delete(s, account).server, u.next)
  {
    assert forall k :: k in s.tokens ==> SameToken(s.tokens[k], t.tokens[k]);
  }
}
