/** Signed device requests: what a signature covers, when the server accepts one, and why the
    nonce table stops a captured request from being accepted again. Signatures are ideal: only the
    holder of a key can make one, and it says what was signed. Times are in nanoseconds. */
module DeviceSig {
  import opened Common

  const SECOND := 1000000000
  const CLOCK_SKEW := 300 * SECOND
  const NONCE_TTL := 600 * SECOND
  const MIN_NONCE_LEN := 16

  // ----- what is signed

  function Join(fields: seq<string>): string {
    if fields == [] then ""
    else if |fields| == 1 then fields[0]
    else fields[0] + "\n" + Join(fields[1..])
  }

  predicate OneLine(s: string) {
    '\n' !in s
  }

  predicate AllOneLine(fields: seq<string>) {
    forall i :: 0 <= i < |fields| ==> OneLine(fields[i])
  }

  lemma FirstField(a: string, restA: string, b: string, restB: string)
    requires OneLine(a) && OneLine(b)
    requires a + "\n" + restA == b + "\n" + restB
    ensures a == b && restA == restB
  {
    var s := a + "\n" + restA;
    assert s[|a|] == '\n' && s[|b|] == '\n';
    assert forall i :: 0 <= i < |a| ==> s[i] == a[i];
    assert forall i :: 0 <= i < |b| ==> s[i] == b[i];
    assert |a| == |b|;
    assert s[..|a|] == a && s[..|b|] == b;
    assert s[|a| + 1..] == restA && s[|b| + 1..] == restB;
  }

  lemma {:induction false} JoinInjective(a: seq<string>, b: seq<string>)
    requires |a| == |b| && AllOneLine(a) && AllOneLine(b) && Join(a) == Join(b)
    ensures a == b
  {
    if |a| > 1 {
      FirstField(a[0], Join(a[1..]), b[0], Join(b[1..]));
      JoinInjective(a[1..], b[1..]);
      assert a == [a[0]] + a[1..] && b == [b[0]] + b[1..];
    }
  }

  /** What the headers and the request line say, as text. The timestamp is signed as it was sent. */
  datatype Fields = Fields(verb: string, path: string, key: string, nonce: string, stamp: string)

  function Parts(f: Fields, hash: string): seq<string> {
    [f.verb, f.path, f.key, f.nonce, f.stamp, hash]
  }

  function Payload(f: Fields, hash: string): string {
    Join(Parts(f, hash))
  }

  predicate Clean(f: Fields) {
    OneLine(f.verb) && OneLine(f.path) && OneLine(f.key) && OneLine(f.nonce) && OneLine(f.stamp)
  }

  /** The payload determines every field it covers, up to the hash of the body. */
  lemma PayloadInjective(f: Fields, hash: string, g: Fields, other: string)
    requires Clean(f) && Clean(g) && OneLine(hash) && OneLine(other)
    requires Payload(f, hash) == Payload(g, other)
    ensures f == g && hash == other
  {
    var a, b := Parts(f, hash), Parts(g, other);
    JoinInjective(a, b);
    assert a[0] == b[0] && a[1] == b[1] && a[2] == b[2] && a[3] == b[3] && a[4] == b[4] && a[5] == b[5];
  }

  // ----- timestamps

  function FormatInt(n: int): string {
    if n < 0 then "-" + Decimal(-n) else Decimal(n)
  }

  predicate Digits(s: string) {
    forall i :: 0 <= i < |s| ==> '0' <= s[i] <= '9'
  }

  function Value(s: string): int
    requires Digits(s)
  {
    if s == "" then 0 else 10 * Value(s[..|s| - 1]) + (s[|s| - 1] as int - '0' as int)
  }

  const MIN_INT64 := -0x8000_0000_0000_0000
  const MAX_INT64 := 0x7fff_ffff_ffff_ffff

  /** strconv.ParseInt in base 10 and 64 bits: a sign, digits, and no overflow. */
  function ParseInt(s: string): Option<int> {
    var signed := s != "" && (s[0] == '-' || s[0] == '+');
    var digits := if signed then s[1..] else s;
    if digits == "" || !Digits(digits) then None
    else
      var n := if signed && s[0] == '-' then -Value(digits) else Value(digits);
      if MIN_INT64 <= n <= MAX_INT64 then Some(n) else None
  }

  lemma {:induction false} ValueOfDecimal(n: nat)
    ensures Digits(Decimal(n)) && Value(Decimal(n)) == n
  {
    LastDigit(n);
    var s := Decimal(n);
    if n >= 10 {
      ValueOfDecimal(n / 10);
    } else {
      assert s[..|s| - 1] == "";
    }
  }

  lemma ParseNegative(digits: string)
    requires digits != "" && Digits(digits) && MIN_INT64 <= -Value(digits) <= MAX_INT64
    ensures ParseInt("-" + digits) == Some(-Value(digits))
  {
    assert ("-" + digits)[1..] == digits;
  }

  lemma ParseUnsigned(digits: string)
    requires digits != "" && Digits(digits) && MIN_INT64 <= Value(digits) <= MAX_INT64
    ensures ParseInt(digits) == Some(Value(digits))
  {
    assert '0' <= digits[0] <= '9';
  }

  /** What the agent writes is what the server reads. */
  lemma ParseFormat(n: int)
    requires MIN_INT64 <= n <= MAX_INT64
    ensures ParseInt(FormatInt(n)) == Some(n)
  {
    if n < 0 {
      ValueOfDecimal(-n);
      ParseNegative(Decimal(-n));
    } else {
      ValueOfDecimal(n);
      ParseUnsigned(Decimal(n));
    }
  }

  // ----- signing and verifying

  datatype Signature = Signature(signer: string, payload: string)

  /** A request as it arrives: its headers, and the method, path and body hash it arrives with. */
  datatype Request = Request(fields: Fields, hash: string, signature: Signature)

  function Signed(f: Fields, hash: string): Request {
    Request(f, hash, Signature(f.key, Payload(f, hash)))
  }

  /** SignAt, at a time in whole seconds. */
  function SignAt(verb: string, path: string, key: string, nonce: string, at: int, hash: string): Request {
    Signed(Fields(verb, path, key, nonce, FormatInt(at)), hash)
  }

  predicate WellFormedKey(key: string) {
    |key| == 64 && forall i :: 0 <= i < |key| ==> '0' <= key[i] <= '9' || 'a' <= key[i] <= 'f' || 'A' <= key[i] <= 'F'
  }

  predicate InSkew(stamp: int, now: int) {
    -CLOCK_SKEW <= now - stamp * SECOND <= CLOCK_SKEW
  }

  predicate Verify(r: Request, now: int) {
    && r.fields.nonce != "" && |r.fields.nonce| >= MIN_NONCE_LEN
    && WellFormedKey(r.fields.key)
    && ParseInt(r.fields.stamp).Some? && InSkew(ParseInt(r.fields.stamp).value, now)
    && r.signature == Signature(r.fields.key, Payload(r.fields, r.hash))
  }

  /** The time a request says it was signed at, in seconds. */
  function Time(r: Request): int {
    if ParseInt(r.fields.stamp).Some? then ParseInt(r.fields.stamp).value else 0
  }

  /** A request that verifies is one the key signed, for this method, path, nonce, time and body. */
  lemma VerifiedMeansSigned(r: Request, f: Fields, hash: string, now: int)
    requires Clean(f) && Clean(r.fields) && OneLine(hash) && OneLine(r.hash)
    requires r.signature == Signed(f, hash).signature
    ensures Verify(r, now) ==> r == Signed(f, hash)
  {
    if Verify(r, now) {
      PayloadInjective(r.fields, r.hash, f, hash);
    }
  }

  /** And what the agent signs verifies for as long as its time is within the skew, and no longer. */
  lemma SignedVerifies(verb: string, path: string, key: string, nonce: string, at: int, hash: string, now: int)
    requires WellFormedKey(key) && |nonce| >= MIN_NONCE_LEN && MIN_INT64 <= at <= MAX_INT64
    ensures Verify(SignAt(verb, path, key, nonce, at, hash), now) <==> InSkew(at, now)
  {
    ParseFormat(at);
  }

  // ----- accepting once

  /** One arrival. `swept` is whether the DELETE of expired nonces went through: its error is
      ignored. */
  datatype Arrival = Arrival(request: Request, now: int, swept: bool)

  type Nonces = map<string, int>

  function Sweep(nonces: Nonces, now: int): Nonces {
    map n | n in nonces && nonces[n] > now :: nonces[n]
  }

  function Before(nonces: Nonces, a: Arrival): Nonces {
    if a.swept then Sweep(nonces, a.now) else nonces
  }

  /** verifyAgentSignature: INSERT ... ON CONFLICT DO NOTHING claims the nonce. */
  predicate Accepts(nonces: Nonces, a: Arrival) {
    Verify(a.request, a.now) && a.request.fields.nonce !in Before(nonces, a)
  }

  function After(nonces: Nonces, a: Arrival): Nonces {
    if !Verify(a.request, a.now) then nonces
    else if Accepts(nonces, a) then Before(nonces, a)[a.request.fields.nonce := a.now + NONCE_TTL]
    else Before(nonces, a)
  }

  function Table(arrivals: seq<Arrival>): Nonces {
    if arrivals == [] then map[] else After(Table(arrivals[..|arrivals| - 1]), arrivals[|arrivals| - 1])
  }

  predicate AcceptedAt(arrivals: seq<Arrival>, i: nat)
    requires i < |arrivals|
  {
    Accepts(Table(arrivals[..i]), arrivals[i])
  }

  predicate ClockOrdered(arrivals: seq<Arrival>) {
    forall i, j :: 0 <= i < j < |arrivals| ==> arrivals[i].now <= arrivals[j].now
  }

  /** An accepted nonce stays claimed until its lifetime is over. */
  lemma {:induction false} ClaimLasts(arrivals: seq<Arrival>, i: nat)
    requires ClockOrdered(arrivals) && i < |arrivals| && AcceptedAt(arrivals, i)
    ensures var n := arrivals[i].request.fields.nonce;
      || arrivals[|arrivals| - 1].now >= arrivals[i].now + NONCE_TTL
      || (n in Table(arrivals) && Table(arrivals)[n] >= arrivals[i].now + NONCE_TTL)
    decreases |arrivals|
  {
    var init := arrivals[..|arrivals| - 1];
    if i < |init| {
      assert init[..i] == arrivals[..i];
      ClaimLasts(init, i);
    } else {
      assert arrivals[..i] == init;
    }
  }

  /** Two acceptances of one nonce are at least its lifetime apart. */
  lemma AcceptancesAreApart(arrivals: seq<Arrival>, i: nat, j: nat)
    requires ClockOrdered(arrivals) && i < j < |arrivals|
    requires AcceptedAt(arrivals, i) && AcceptedAt(arrivals, j)
    requires arrivals[i].request.fields.nonce == arrivals[j].request.fields.nonce
    ensures arrivals[j].now >= arrivals[i].now + NONCE_TTL
  {
    var before := arrivals[..j];
    assert before[..i] == arrivals[..i];
    ClaimLasts(before, i);
  }

  /** A request is never accepted twice, unless it was first accepted at the very first instant its
      timestamp allows. */
  lemma ReplayRefused(arrivals: seq<Arrival>, i: nat, j: nat)
    requires ClockOrdered(arrivals) && i < j < |arrivals|
    requires arrivals[i].request == arrivals[j].request && AcceptedAt(arrivals, i) && AcceptedAt(arrivals, j)
    ensures arrivals[i].now == Time(arrivals[i].request) * SECOND - CLOCK_SKEW
    ensures arrivals[j].now == Time(arrivals[i].request) * SECOND + CLOCK_SKEW
  {
    AcceptancesAreApart(arrivals, i, j);
  }

  /** And at that instant it can: the same request, exactly one lifetime later, is accepted again. */
  lemma BoundaryReplay(r: Request, first: Arrival, again: Arrival)
    requires Verify(r, Time(r) * SECOND)
    requires first == Arrival(r, Time(r) * SECOND - CLOCK_SKEW, true)
    requires again == Arrival(r, Time(r) * SECOND + CLOCK_SKEW, true)
    ensures AcceptedAt([first, again], 0) && AcceptedAt([first, again], 1)
  {
    var both := [first, again];
    assert both[..0] == [] && both[..1] == [first] && [first][..0] == [];
    assert Table(both[..1]) == After(map[], first);
  }
}
