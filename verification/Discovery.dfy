/** LAN discovery: the TXT record the agent prints and the client reads back, and the list of
    devices the screen shows. Bytes are characters below 256. */
module Discovery {
  import opened Common
  import AppNames
  import opened Shares

  // ----- what the agent prints

  const PROTOCOL_VERSION := "2"
  const MAX_APPS_TXT := 200

  /** strings.Join with a comma. */
  function JoinComma(names: seq<string>): string {
    if names == [] then ""
    else if |names| == 1 then names[0]
    else names[0] + "," + JoinComma(names[1..])
  }

  lemma {:induction false} JoinMore(names: seq<string>, name: string)
    ensures JoinComma(names + [name]) == if names == [] then name else JoinComma(names) + "," + name
  {
    if |names| > 0 {
      assert (names + [name])[1..] == names[1..] + [name];
      JoinMore(names[1..], name);
      if |names| > 1 {
        assert names[0] + "," + (JoinComma(names[1..]) + "," + name) ==
          (names[0] + "," + JoinComma(names[1..])) + "," + name;
      }
    }
  }

  /** A longer list joins to at least as long a text. */
  lemma {:induction false} JoinGrows(names: seq<string>, i: nat, j: nat)
    requires i <= j <= |names|
    ensures |JoinComma(names[..i])| <= |JoinComma(names[..j])|
  {
    if i < j {
      JoinGrows(names, i, j - 1);
      JoinMore(names[..j - 1], names[j - 1]);
      assert names[..j - 1] + [names[j - 1]] == names[..j];
    }
  }

  predicate AllValid(names: seq<string>) {
    forall i :: 0 <= i < |names| ==> AppNames.Valid(names[i])
  }

  /** `k` names from the front fit in the budget, and no more of them would. */
  predicate LongestThatFits(names: seq<string>, k: nat) {
    && k <= |names| && |JoinComma(names[..k])| <= MAX_APPS_TXT
    && forall j :: k < j <= |names| ==> |JoinComma(names[..j])| > MAX_APPS_TXT
  }

  /** appsTXT: whole names, in order, until the budget is spent. */
  method AppsTxt(names: seq<string>) returns (txt: string)
    requires AllValid(names)
    ensures exists k: nat :: LongestThatFits(names, k) && txt == JoinComma(names[..k])
  {
    txt := "";
    ghost var k: nat := 0;
    for i := 0 to |names|
      invariant k == i && txt == JoinComma(names[..i]) && |txt| <= MAX_APPS_TXT
      invariant txt == "" <==> i == 0
    {
      JoinMore(names[..i], names[i]);
      assert names[..i] + [names[i]] == names[..i + 1];
      if |txt| + |names[i]| + 1 > MAX_APPS_TXT {
        forall j | i < j <= |names| ensures |JoinComma(names[..j])| > MAX_APPS_TXT {
          JoinGrows(names, i + 1, j);
        }
        assert LongestThatFits(names, k);
        return;
      }
      if |txt| > 0 {
        txt := txt + ",";
      }
      txt := txt + names[i];
      k := i + 1;
    }
    assert LongestThatFits(names, k);
  }

  function Names(apps: seq<App>): (names: seq<string>)
    ensures |names| == |apps| && forall i :: 0 <= i < |apps| ==> names[i] == apps[i].name
  {
    seq(|apps|, i requires 0 <= i < |apps| => apps[i].name)
  }

  /** txtRecords, for the device whose key has that id. */
  function TxtRecords(id: string, name: string, apps: string): seq<string> {
    ["v=" + PROTOCOL_VERSION, "id=" + id, "name=" + name, "apps=" + apps]
  }

  // ----- the bytes (section 3.3.14 of RFC 1035: a length byte and that many bytes, each)

  predicate AllShort(strings: seq<string>) {
    forall i :: 0 <= i < |strings| ==> |strings[i]| < 256
  }

  function Encode(strings: seq<string>): string {
    if strings == [] then "" else [(|strings[0]| % 256) as char] + strings[0] + Encode(strings[1..])
  }

  /** The strings in `packet` from `pos` to `end`. The last may run past `end`, though not past the
      packet: a length that does is the reader's exception. */
  function Strings(packet: string, pos: nat, end: nat): Option<seq<string>>
    decreases |packet| - pos
  {
    if pos >= end then Some([])
    else if pos >= |packet| then None
    else
      var len := packet[pos] as int;
      if pos + 1 + len > |packet| then None
      else
        var rest := Strings(packet, pos + 1 + len, end);
        if rest.None? then None else Some([packet[pos + 1..pos + 1 + len]] + rest.value)
  }

  lemma Slice(s: string, from: nat, to: nat, i: nat, j: nat)
    requires from <= to <= |s| && i <= j <= to - from
    ensures s[from..to][i..j] == s[from + i..from + j]
  {
    var t, u := s[from..to][i..j], s[from + i..from + j];
    forall k | 0 <= k < j - i ensures t[k] == u[k] {
      assert t[k] == s[from..to][i + k] == s[from + (i + k)];
      assert u[k] == s[(from + i) + k];
    }
  }

  /** The three pieces of bytes that start at `pos`. */
  lemma Pieces(packet: string, pos: nat, end: nat, first: char, text: string, tail: string)
    requires pos <= end <= |packet| && packet[pos..end] == [first] + text + tail
    ensures pos + 1 + |text| + |tail| == end
    ensures packet[pos] == first
    ensures packet[pos + 1..pos + 1 + |text|] == text
    ensures packet[pos + 1 + |text|..end] == tail
  {
    var bytes := [first] + text + tail;
    assert |bytes| == 1 + |text| + |tail|;
    assert bytes[0] == first && bytes[1..1 + |text|] == text && bytes[1 + |text|..|bytes|] == tail;
    assert packet[pos] == packet[pos..end][0];
    Slice(packet, pos, end, 1, 1 + |text|);
    Slice(packet, pos, end, 1 + |text|, |bytes|);
  }

  lemma {:induction false} StringsReadBack(packet: string, pos: nat, end: nat, strings: seq<string>)
    requires AllShort(strings) && pos <= end <= |packet| && packet[pos..end] == Encode(strings)
    ensures Strings(packet, pos, end) == Some(strings)
    decreases |strings|
  {
    if strings != [] {
      var text := strings[0];
      Pieces(packet, pos, end, |text| as char, text, Encode(strings[1..]));
      StringsReadBack(packet, pos + 1 + |text|, end, strings[1..]);
      assert [text] + strings[1..] == strings;
    }
  }

  // ----- what the client reads

  function IndexOf(s: string, c: char): (i: int)
    ensures -1 <= i < |s| && (i >= 0 ==> s[i] == c) && forall j :: 0 <= j < |s| && (i < 0 || j < i) ==> s[j] != c
  {
    if s == "" then -1
    else if s[0] == c then 0
    else
      var i := IndexOf(s[1..], c);
      if i < 0 then -1 else i + 1
  }

  lemma FirstIndex(before: string, c: char, after: string)
    requires c !in before
    ensures IndexOf(before + [c] + after, c) == |before|
  {
    var s := before + [c] + after;
    assert s[|before|] == c;
    assert forall j :: 0 <= j < |before| ==> s[j] == before[j];
  }

  /** One character-string's entry: the text before the first '=' and the text after it. */
  function Put(m: map<string, string>, s: string): map<string, string> {
    var eq := IndexOf(s, '=');
    if eq > 0 then m[s[..eq] := s[eq + 1..]] else m
  }

  function PutAll(m: map<string, string>, strings: seq<string>): map<string, string>
    decreases |strings|
  {
    if strings == [] then m else PutAll(Put(m, strings[0]), strings[1..])
  }

  function Entries(strings: Option<seq<string>>): Option<map<string, string>> {
    if strings.None? then None else Some(PutAll(map[], strings.value))
  }

  /** txtStrings. */
  method TxtStrings(packet: string, start: nat, end: nat) returns (m: Option<map<string, string>>)
    ensures m == Entries(Strings(packet, start, end))
  {
    var pos, found: map<string, string> := start, map[];
    ghost var all := Strings(packet, start, end);
    while pos < end
      invariant pos >= 0
      invariant all.Some? <==> Strings(packet, pos, end).Some?
      invariant all.Some? ==> PutAll(map[], all.value) == PutAll(found, Strings(packet, pos, end).value)
      decreases end - pos
    {
      if pos >= |packet| {
        return None;
      }
      var len := packet[pos] as int;
      if pos + 1 + len > |packet| {
        return None;
      }
      var s := packet[pos + 1..pos + 1 + len];
      var eq := IndexOf(s, '=');
      if eq > 0 {
        found := found[s[..eq] := s[eq + 1..]];
      }
      pos := pos + 1 + len;
    }
    return Some(found);
  }

  lemma PutField(m: map<string, string>, key: string, value: string)
    requires key != "" && '=' !in key
    ensures Put(m, key + "=" + value) == m[key := value]
  {
    FirstIndex(key, '=', value);
    var s := key + "=" + value;
    assert s[..|key|] == key && s[|key| + 1..] == value;
  }

  lemma RecordEntries(id: string, name: string, apps: string)
    ensures PutAll(map[], TxtRecords(id, name, apps)) ==
      map["v" := PROTOCOL_VERSION, "id" := id, "name" := name, "apps" := apps]
  {
    var m1: map<string, string> := map["v" := PROTOCOL_VERSION];
    var m2 := m1["id" := id];
    var m3 := m2["name" := name];
    PutField(map[], "v", PROTOCOL_VERSION);
    PutField(m1, "id", id);
    PutField(m2, "name", name);
    PutField(m3, "apps", apps);
    var r := TxtRecords(id, name, apps);
    assert r[0] == "v" + "=" + PROTOCOL_VERSION;
    assert r[1] == "id" + "=" + id && r[2] == "name" + "=" + name && r[3] == "apps" + "=" + apps;
    assert r[1..] == ["id=" + id, "name=" + name, "apps=" + apps];
    assert r[1..][1..] == ["name=" + name, "apps=" + apps];
    assert r[1..][1..][1..] == ["apps=" + apps];
    assert r[1..][1..][1..][1..] == [];
    assert PutAll(m3, r[1..][1..][1..]) == PutAll(m3["apps" := apps], []);
    assert PutAll(m2, r[1..][1..]) == PutAll(m3, r[1..][1..][1..]);
    assert PutAll(m1, r[1..]) == PutAll(m2, r[1..][1..]);
  }

  /** The pieces of a text between its commas; the empty text is one empty piece. */
  function Split(s: string): seq<string>
    decreases |s|
  {
    var i := IndexOf(s, ',');
    if i < 0 then [s] else [s[..i]] + Split(s[i + 1..])
  }

  function NonEmpty(pieces: seq<string>): seq<string> {
    if pieces == [] then []
    else if pieces[0] == "" then NonEmpty(pieces[1..])
    else [pieces[0]] + NonEmpty(pieces[1..])
  }

  lemma {:induction false} SplitJoin(names: seq<string>)
    requires forall i :: 0 <= i < |names| ==> names[i] != "" && ',' !in names[i]
    ensures NonEmpty(Split(JoinComma(names))) == names
  {
    if names == [] {
      assert Split("") == [""];
    } else if |names| == 1 {
      assert Split(names[0]) == [names[0]];
    } else {
      var rest := JoinComma(names[1..]);
      var s := names[0] + "," + rest;
      FirstIndex(names[0], ',', rest);
      assert s[..|names[0]|] == names[0] && s[|names[0]| + 1..] == rest;
      assert Split(s)[1..] == Split(rest);
      SplitJoin(names[1..]);
    }
  }

  datatype Device = Device(id: string, name: string, apps: seq<string>, address: string,
                           confirmed: bool, refused: Option<string>, firstContact: bool)

  function Get(m: map<string, string>, key: string): string {
    if key in m then m[key] else ""
  }

  function HostPort(host: string, port: nat): string {
    if ':' in host then "[" + host + "]:" + Decimal(port) else host + ":" + Decimal(port)
  }

  function DeviceFrom(txt: map<string, string>, host: string, port: nat): Option<Device> {
    if "id" !in txt || |txt["id"]| != 64 || Get(txt, "v") != PROTOCOL_VERSION then None
    else
      var id, name := txt["id"], Get(txt, "name");
      Some(Device(id, if name == "" then id[..8] else name, NonEmpty(Split(Get(txt, "apps"))),
                  HostPort(host, port), false, None, false))
  }

  /** For every valid state, what the agent prints is read back by the client as the same id, the
      same name and the longest whole-name prefix of the apps that fits. */
  lemma RecordReadBack(s: State, id: string, k: nat, packet: string, pos: nat, end: nat, host: string, port: nat)
    requires ValidState(s) && ValidDeviceId(id) && LongestThatFits(Names(s.apps), k)
    requires pos <= end <= |packet|
    requires packet[pos..end] == Encode(TxtRecords(id, s.name, JoinComma(Names(s.apps)[..k])))
    ensures AllShort(TxtRecords(id, s.name, JoinComma(Names(s.apps)[..k])))
    ensures Entries(Strings(packet, pos, end)).Some?
    ensures DeviceFrom(Entries(Strings(packet, pos, end)).value, host, port) ==
      Some(Device(id, s.name, Names(s.apps)[..k], HostPort(host, port), false, None, false))
  {
    var names := Names(s.apps)[..k];
    var apps := JoinComma(names);
    var r := TxtRecords(id, s.name, apps);
    assert AllShort(r) by {
      assert |r[0]| == 3 && |r[1]| == 67 && |r[2]| <= 59 && |r[3]| <= 205;
    }
    StringsReadBack(packet, pos, end, r);
    RecordEntries(id, s.name, apps);
    SplitJoin(names);
  }

  // ----- the list on the screen

  predicate Answered(d: Device) {
    d.confirmed || d.refused.Some?
  }

  datatype Sighting = Seen(device: Device) | Lost(id: string)

  /** What the screen owes a device after a history: nothing once it is lost, otherwise its last
      answer since then, and before it has answered, its last record. */
  function Shown(history: seq<Sighting>, id: string): Option<Device> {
    if history == [] then None
    else
      var last, before := history[|history| - 1], Shown(history[..|history| - 1], id);
      match last
      case Lost(i) => if i == id then None else before
      case Seen(d) =>
        if d.id != id then before
        else if LastAnswer(history, id).Some? then LastAnswer(history, id) else Some(d)
  }

  function LastAnswer(history: seq<Sighting>, id: string): Option<Device> {
    if history == [] then None
    else
      match history[|history| - 1]
      case Lost(i) => if i == id then None else LastAnswer(history[..|history| - 1], id)
      case Seen(d) => if d.id == id && Answered(d) then Some(d) else LastAnswer(history[..|history| - 1], id)
  }

  /** The entry shown is the last answer whenever there is one. */
  lemma {:induction false} AnswersAreShown(history: seq<Sighting>, id: string)
    ensures Shown(history, id).Some? ==> Shown(history, id).value.id == id
    ensures LastAnswer(history, id).Some? ==>
      Shown(history, id) == LastAnswer(history, id) && Answered(Shown(history, id).value)
    ensures Shown(history, id).Some? && LastAnswer(history, id).None? ==> !Answered(Shown(history, id).value)
  {
    if history != [] {
      AnswersAreShown(history[..|history| - 1], id);
    }
  }

  function Find(found: seq<Device>, id: string): (i: int)
    ensures -1 <= i < |found| && (i >= 0 ==> found[i].id == id)
    ensures forall j :: 0 <= j < |found| && (i < 0 || j < i) ==> found[j].id != id
  {
    if found == [] then -1
    else if found[0].id == id then 0
    else
      var i := Find(found[1..], id);
      if i < 0 then -1 else i + 1
  }

  function Without(found: seq<Device>, id: string): (r: seq<Device>)
    ensures forall d :: d in r <==> d in found && d.id != id
    ensures UniqueIds(found) ==> UniqueIds(r)
  {
    if found == [] then []
    else if found[0].id == id then Without(found[1..], id)
    else [found[0]] + Without(found[1..], id)
  }

  predicate UniqueIds(found: seq<Device>) {
    forall i, j :: 0 <= i < j < |found| ==> found[i].id != found[j].id
  }

  /** One entry for each device the history owes one, and nothing else. */
  ghost predicate Owed(found: seq<Device>, history: seq<Sighting>) {
    UniqueIds(found) && forall d :: d in found <==> Shown(history, d.id) == Some(d)
  }

  /** What seeing a device changes: its own entry, unless that is an answer and this is not. */
  lemma ShownAfterSeen(history: seq<Sighting>, device: Device, id: string)
    ensures var was := Shown(history, id);
      Shown(history + [Seen(device)], id) ==
        if id == device.id && (Answered(device) || was.None? || !Answered(was.value)) then Some(device) else was
  {
    assert (history + [Seen(device)])[..|history|] == history;
    AnswersAreShown(history, id);
  }

  lemma SeenAdds(found: seq<Device>, history: seq<Sighting>, device: Device)
    requires Owed(found, history) && Find(found, device.id) < 0
    ensures Owed(found + [device], history + [Seen(device)])
  {
    AnswersAreShown(history, device.id);
    assert Shown(history, device.id).None?;
    forall d ensures d in found + [device] <==> Shown(history + [Seen(device)], d.id) == Some(d) {
      ShownAfterSeen(history, device, d.id);
    }
  }

  lemma SeenReplaces(found: seq<Device>, history: seq<Sighting>, device: Device, i: nat)
    requires Owed(found, history) && i < |found| && found[i].id == device.id
    requires Answered(device) || !Answered(found[i])
    ensures Owed(found[i := device], history + [Seen(device)])
  {
    assert found[i] in found;
    var after := found[i := device];
    forall d ensures d in after <==> Shown(history + [Seen(device)], d.id) == Some(d) {
      ShownAfterSeen(history, device, d.id);
      assert after[i] == device;
      if d.id != device.id {
        OtherEntries(found, i, device, d);
      }
    }
  }

  lemma SeenKeeps(found: seq<Device>, history: seq<Sighting>, device: Device, i: nat)
    requires Owed(found, history) && i < |found| && found[i].id == device.id
    requires !Answered(device) && Answered(found[i])
    ensures Owed(found, history + [Seen(device)])
  {
    assert found[i] in found;
    forall d ensures d in found <==> Shown(history + [Seen(device)], d.id) == Some(d) {
      ShownAfterSeen(history, device, d.id);
    }
  }

  /** Replacing one entry leaves the entries of other devices alone. */
  lemma OtherEntries(found: seq<Device>, i: nat, device: Device, d: Device)
    requires i < |found| && found[i].id == device.id && d.id != device.id
    ensures d in found <==> d in found[i := device]
  {
    var after := found[i := device];
    if j :| 0 <= j < |found| && found[j] == d {
      assert after[j] == d;
    }
    if j :| 0 <= j < |after| && after[j] == d {
      assert found[j] == d;
    }
  }

  lemma LostRemoves(found: seq<Device>, history: seq<Sighting>, id: string)
    requires Owed(found, history)
    ensures Owed(Without(found, id), history + [Lost(id)])
  {
    assert (history + [Lost(id)])[..|history|] == history;
  }

  class Devices {
    var found: seq<Device>
    ghost var history: seq<Sighting>

    ghost predicate Valid()
      reads this
    {
      Owed(found, history)
    }

    constructor ()
      ensures Valid() && history == [] && found == []
    {
      found, history := [], [];
    }

    method SeenDevice(device: Device)
      requires Valid()
      modifies this
      ensures Valid() && history == old(history) + [Seen(device)]
    {
      var i := Find(found, device.id);
      if i < 0 {
        SeenAdds(found, history, device);
        found := found + [device];
      } else if Answered(device) || !Answered(found[i]) {
        SeenReplaces(found, history, device, i);
        found := found[i := device];
      } else {
        SeenKeeps(found, history, device, i);
      }
      history := history + [Seen(device)];
    }

    method LostDevice(id: string)
      requires Valid()
      modifies this
      ensures Valid() && history == old(history) + [Lost(id)]
    {
      LostRemoves(found, history, id);
      found := Without(found, id);
      history := history + [Lost(id)];
    }
  }
}
