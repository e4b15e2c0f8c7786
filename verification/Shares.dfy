/** The registry of what a PC shares: which lists are valid, and how a folder the person chose
    becomes an entry of one. */
module Shares {
  import opened Common
  import opened AppNames

  /** What net.ParseIP makes of the host an address names. */
  datatype Host = Loopback | Elsewhere
  datatype Address = NoAddress | Malformed | HostPort(host: Host, port: string)

  datatype App = App(name: string, kind: string, address: Address, command: seq<string>)

  /** `serverOk` is whether the server address, if there is one, is a plain origin. */
  datatype State = State(name: string, serverOk: bool, deviceId: string, apps: seq<App>)

  const MAX_DEVICE_NAME := 63 - 8 - 1

  predicate ValidApp(a: App) {
    && Valid(a.name) && Valid(a.kind)
    && a.address.HostPort?
    && (a.command != [] ==> a.command[0] != "" && a.address.host == Loopback)
  }

  predicate ValidApps(apps: seq<App>) {
    && (forall i :: 0 <= i < |apps| ==> ValidApp(apps[i]))
    && (forall i, j :: 0 <= i < j < |apps| ==> apps[i].name != apps[j].name)
  }

  predicate ValidDeviceId(id: string) {
    |id| == 64 && forall i :: 0 <= i < |id| ==> '0' <= id[i] <= '9' || 'a' <= id[i] <= 'f'
  }

  predicate ValidState(s: State) {
    && 0 < |s.name| <= MAX_DEVICE_NAME && |s.apps| <= MAX_APPS && s.serverOk
    && (s.deviceId == "" || ValidDeviceId(s.deviceId))
    && ValidApps(s.apps)
  }

  /** state.validate: the checks in order, with the names seen so far in a set. */
  method Validate(s: State) returns (ok: bool)
    ensures ok <==> ValidState(s)
  {
    if s.name == "" || |s.name| > MAX_DEVICE_NAME || |s.apps| > MAX_APPS || !s.serverOk {
      return false;
    }
    if s.deviceId != "" && !ValidDeviceId(s.deviceId) {
      return false;
    }
    var seen := {};
    for i := 0 to |s.apps|
      invariant seen == set j | 0 <= j < i :: s.apps[j].name
      invariant forall j :: 0 <= j < i ==> ValidApp(s.apps[j]) && s.apps[j].name in seen
      invariant forall j, k :: 0 <= j < k < i ==> s.apps[j].name != s.apps[k].name
    {
      var a := s.apps[i];
      if !Valid(a.name) || !Valid(a.kind) || a.name in seen || !a.address.HostPort? {
        return false;
      }
      if a.command != [] && (a.command[0] == "" || a.address.host != Loopback) {
        return false;
      }
      seen := seen + {a.name};
    }
    return true;
  }

  // ----- naming a share

  function Names(apps: seq<App>): set<string> {
    set i | 0 <= i < |apps| :: apps[i].name
  }

  predicate Used(apps: seq<App>, name: string) {
    exists i :: 0 <= i < |apps| && apps[i].name == name
  }

  lemma {:induction false} FewNames(apps: seq<App>)
    ensures |Names(apps)| <= |apps|
  {
    if apps != [] {
      var init := apps[..|apps| - 1];
      FewNames(init);
      assert Names(apps) == Names(init) + {apps[|apps| - 1].name};
    }
  }

  /** The names the search tries, in order: the base, then base-2, base-3 and so on. */
  function Candidate(base: string, i: nat): string {
    if i <= 1 then base else base + "-" + Decimal(i)
  }

  lemma CandidatesDiffer(base: string, i: nat, j: nat)
    requires 1 <= i < j
    ensures Candidate(base, i) != Candidate(base, j)
  {
    if i > 1 && Candidate(base, i) == Candidate(base, j) {
      assert Candidate(base, i)[|base| + 1..] == Decimal(i) && Candidate(base, j)[|base| + 1..] == Decimal(j);
      DecimalInjective(i, j);
    }
  }

  function Tried(base: string, n: nat): set<string> {
    if n == 0 then {} else Tried(base, n - 1) + {Candidate(base, n)}
  }

  /** Candidates are all different, so n of them are n names. */
  lemma {:induction false} TriedCount(base: string, n: nat)
    ensures |Tried(base, n)| == n
    ensures forall m :: m > n ==> Candidate(base, m) !in Tried(base, n)
  {
    if n > 0 {
      TriedCount(base, n - 1);
      forall m | m > n ensures Candidate(base, m) !in Tried(base, n) {
        CandidatesDiffer(base, n, m);
      }
    }
  }

  /** A candidate numbered up to 99 of a base that fits is a valid name. */
  lemma CandidateIsValid(base: string, i: nat)
    requires Valid(base) && |base| <= MAX_LEN - 3 && i <= 99
    ensures Valid(Candidate(base, i))
  {
    if i > 1 {
      assert |Decimal(i)| <= 2;
      var c := Candidate(base, i);
      assert c[0] == base[0];
    }
  }

  function DropRight(s: string): (r: string)
    ensures r <= s && (r != "" ==> r[|r| - 1] != '-')
    ensures s != "" && s[0] != '-' ==> r != ""
  {
    if s != "" && s[|s| - 1] == '-' then DropRight(s[..|s| - 1]) else s
  }

  /** The letters and digits of a string, in order. */
  function AlnumOf(s: string): string {
    if s == "" then "" else AlnumOf(s[..|s| - 1]) + if Alnum(s[|s| - 1]) then [s[|s| - 1]] else ""
  }

  lemma AlnumAppend(s: string, c: char)
    ensures AlnumOf(s + [c]) == AlnumOf(s) + if Alnum(c) then [c] else ""
  {
    assert (s + [c])[..|s|] == s;
  }

  lemma {:induction false} AlnumPrefix(s: string, k: nat)
    requires k <= |s|
    ensures AlnumOf(s[..k]) <= AlnumOf(s)
  {
    if k < |s| {
      AlnumPrefix(s[..|s| - 1], k);
      assert s[..|s| - 1][..k] == s[..k];
    } else {
      assert s[..k] == s;
    }
  }

  /** Only name characters, and the first of them a letter or a digit. */
  predicate Hyphenated(b: string) {
    && (b != "" ==> Alnum(b[0]) && AlnumOf(b) != "")
    && forall j :: 0 <= j < |b| ==> NameChar(b[j])
  }

  lemma HyphenatedMore(b: string, c: char)
    requires Hyphenated(b) && (Alnum(c) || (c == '-' && b != ""))
    ensures Hyphenated(b + [c])
  {
    AlnumAppend(b, c);
    assert b != "" ==> (b + [c])[0] == b[0];
  }

  /** The letters and digits of the folder's lowered name, anything else after the first of them a
      hyphen. */
  method Hyphenate(lowered: string) returns (b: string)
    ensures AlnumOf(b) == AlnumOf(lowered) && Hyphenated(b)
    ensures Valid(lowered) ==> b == lowered
    ensures |b| <= |lowered|
  {
    b := "";
    for i := 0 to |lowered|
      invariant AlnumOf(b) == AlnumOf(lowered[..i]) && Hyphenated(b) && |b| <= i
      invariant Valid(lowered) ==> b == lowered[..i]
    {
      var r := lowered[i];
      AlnumAppend(lowered[..i], r);
      assert lowered[..i + 1] == lowered[..i] + [r];
      var c := if Alnum(r) then r else '-';
      if Alnum(r) || |b| > 0 {
        AlnumAppend(b, c);
        HyphenatedMore(b, c);
        b := b + [c];
      }
    }
    assert lowered[..|lowered|] == lowered;
  }

  /** That with no hyphen at either end, at most 29 bytes of it, and "share" when nothing is left. */
  method BaseName(lowered: string) returns (base: string)
    ensures Valid(base) && |base| <= MAX_LEN - 3
    ensures if AlnumOf(lowered) == "" then base == "share" else AlnumOf(base) <= AlnumOf(lowered)
    ensures Valid(lowered) && |lowered| <= MAX_LEN - 3 && lowered[|lowered| - 1] != '-' ==> base == lowered
  {
    var b := Hyphenate(lowered);
    base := DropRight(b);
    assert base == b[..|base|];
    AlnumPrefix(b, |base|);
    if |base| > MAX_LEN - 3 {
      AlnumPrefix(base, MAX_LEN - 3);
      base := base[..MAX_LEN - 3];
    }
    if base == "" {
      base := "share";
    }
  }

  /** The search for a free name ends, by pigeonhole, after at most one try more than there are
      taken names, at a free candidate all of whose predecessors are taken. */
  method FirstFree(base: string, taken: seq<App>) returns (name: string, ghost tries: nat)
    ensures !Used(taken, name)
    ensures 1 <= tries <= |taken| + 1 && name == Candidate(base, tries)
    ensures Tried(base, tries - 1) <= Names(taken)
  {
    name, tries := Candidate(base, 1), 1;
    var i := 2;
    while Used(taken, name)
      invariant i == tries + 1 >= 2 && name == Candidate(base, tries)
      invariant Tried(base, tries - 1) <= Names(taken) && tries - 1 <= |taken|
      decreases |taken| - tries
    {
      TriedFits(base, tries, taken);
      name := Candidate(base, i);
      i, tries := i + 1, tries + 1;
    }
  }

  /** A name for a folder that nothing else here has. Up to 98 names can be taken, three times what
      a registry holds, and it is still valid: 29 bytes, a hyphen and two digits are exactly the
      limit. */
  method ShareName(lowered: string, taken: seq<App>) returns (name: string)
    ensures !Used(taken, name)
    ensures |taken| <= 98 ==> Valid(name)
    ensures Valid(lowered) && |lowered| <= MAX_LEN - 3 && lowered[|lowered| - 1] != '-' && !Used(taken, lowered) ==>
      name == lowered
  {
    var base := BaseName(lowered);
    ghost var tries;
    name, tries := FirstFree(base, taken);
    if |taken| <= 98 {
      CandidateIsValid(base, tries);
    }
    if tries > 1 {
      FirstTried(base, tries - 1);
      assert base in Names(taken);
    }
  }

  lemma {:induction false} FirstTried(base: string, n: nat)
    requires n >= 1
    ensures base in Tried(base, n)
  {
    if n > 1 {
      FirstTried(base, n - 1);
    }
  }

  lemma TriedFits(base: string, n: nat, taken: seq<App>)
    requires n >= 1 && Tried(base, n - 1) <= Names(taken) && Used(taken, Candidate(base, n))
    ensures Tried(base, n) <= Names(taken) && n <= |taken|
  {
    TriedCount(base, n);
    FewNames(taken);
    SubsetCardinality(Tried(base, n), Names(taken));
  }

  /** newShare: the entry for a folder, under the name asked for or a made-up one. `dirOk` is whether
      the path is a directory, and `port` a free port if the system had one. */
  method NewShare(dir: string, lowered: string, asked: string, dirOk: bool, port: Option<string>, taken: seq<App>)
    returns (entry: Option<App>)
    ensures entry.Some? ==> ValidApp(entry.value) && !Used(taken, entry.value.name)
    ensures entry.Some? && asked != "" ==> entry.value.name == asked
    ensures |taken| <= MAX_APPS ==>
      (entry.None? <==> !dirOk || port.None? || (asked != "" && (!Valid(asked) || Used(taken, asked))))
  {
    if !dirOk {
      return None;
    }
    var name := asked;
    if name == "" {
      name := ShareName(lowered, taken);
    }
    if !Valid(name) || Used(taken, name) || port.None? {
      return None;
    }
    var command := ["dufs", dir, "--bind", "127.0.0.1", "--port", port.value,
      "--path-prefix", "/" + name, "--allow-all"];
    assert Valid("http");
    return Some(App(name, "http", HostPort(Loopback, port.value), command));
  }

  /** So a share added to a valid registry with room leaves it valid. */
  lemma NewShareFits(s: State, entry: App)
    requires ValidState(s) && |s.apps| < MAX_APPS && ValidApp(entry) && !Used(s.apps, entry.name)
    ensures ValidState(s.(apps := s.apps + [entry]))
  {
    var apps := s.apps + [entry];
    forall i, j | 0 <= i < j < |apps| ensures apps[i].name != apps[j].name {
      assert i < |s.apps| ==> Used(s.apps, s.apps[i].name);
    }
  }
}
