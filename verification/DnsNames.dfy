/** The client's reader of DNS names (section 4.1.4 of RFC 1035). Bytes are characters below 256. */
module DnsNames {
  import opened Common

  /** How a name is laid out in a packet from some position on. The reader takes any length byte
      below 0xC0 for a label, so a label may be longer than the 63 bytes a sender may write. */
  datatype Layout = End | Label(text: string, rest: Layout) | Pointer(target: nat, rest: Layout)

  /** The packet holds that layout at `pos`. */
  predicate At(packet: string, pos: nat, e: Layout)
    decreases e
  {
    match e
    case End => pos < |packet| && packet[pos] as int == 0
    case Label(text, rest) =>
      && 0 < |text| < 192 && pos + 1 + |text| <= |packet|
      && packet[pos] as int == |text| && packet[pos + 1..pos + 1 + |text|] == text
      && At(packet, pos + 1 + |text|, rest)
    case Pointer(target, rest) =>
      && pos + 1 < |packet| && packet[pos] as int >= 192 && PointerAt(packet, pos) == target
      && At(packet, target, rest)
  }

  /** The two top bits mark a pointer; the other fourteen are where it points. */
  function PointerAt(packet: string, pos: nat): (target: nat)
    requires pos + 1 < |packet| && packet[pos] as int >= 192
  {
    (packet[pos] as int - 192) * 256 + packet[pos + 1] as int
  }

  /** The name in text: every label with a dot after it. */
  function Dotted(e: Layout): string {
    match e
    case End => ""
    case Label(text, rest) => text + "." + Dotted(rest)
    case Pointer(_, rest) => Dotted(rest)
  }

  function Pointers(e: Layout): nat {
    match e
    case End => 0
    case Label(_, rest) => Pointers(rest)
    case Pointer(_, rest) => 1 + Pointers(rest)
  }

  /** Where the encoding that starts at `pos` ends in place. */
  function InPlaceEnd(e: Layout, pos: nat): nat {
    match e
    case End => pos + 1
    case Label(text, rest) => InPlaceEnd(rest, pos + 1 + |text|)
    case Pointer(_, _) => pos + 2
  }

  const MAX_HOPS := 64

  datatype Name = Name(text: string, next: nat)

  /** What has been read so far, with what the rest turns out to be. None is the reader's exception. */
  function Resume(text: string, after: Option<nat>, rest: Option<Name>): Option<Name> {
    if rest.None? then None
    else Some(Name(text + rest.value.text, if after.Some? then after.value else rest.value.next))
  }

  /** What the bytes at `pos` mean to the reader after `hops` pointers. */
  function Read(packet: string, pos: nat, hops: nat): Option<Name>
    requires hops < MAX_HOPS
    decreases MAX_HOPS - hops, |packet| - pos
  {
    if pos >= |packet| then None
    else
      var len := packet[pos] as int;
      if len == 0 then Some(Name("", pos + 1))
      else if len >= 192 then
        if pos + 1 >= |packet| || hops + 1 >= MAX_HOPS then None
        else Resume("", Some(pos + 2), Read(packet, PointerAt(packet, pos), hops + 1))
      else if pos + 1 + len > |packet| then None
      else Resume(packet[pos + 1..pos + 1 + len] + ".", None, Read(packet, pos + 1 + len, hops))
  }

  /** A name written as labels and a chain of pointers is read back, with the cursor just past it
      in place, when the chain is shorter than 64; a longer chain is refused. */
  lemma {:induction false} ReadsWhatIsWritten(packet: string, pos: nat, e: Layout, hops: nat)
    requires At(packet, pos, e) && hops < MAX_HOPS
    ensures Read(packet, pos, hops) ==
      if hops + Pointers(e) < MAX_HOPS then Some(Name(Dotted(e), InPlaceEnd(e, pos))) else None
    decreases e
  {
    match e
    case End =>
    case Label(text, rest) =>
      ReadsWhatIsWritten(packet, pos + 1 + |text|, rest, hops);
    case Pointer(target, rest) =>
      if hops + 1 < MAX_HOPS {
        ReadsWhatIsWritten(packet, target, rest, hops + 1);
        assert "" + Dotted(rest) == Dotted(rest);
      }
  }

  /** And whatever the reader returns is laid out there, in fewer than 64 pointers. */
  lemma {:induction false} ReadsOnlyWhatIsWritten(packet: string, pos: nat, hops: nat) returns (e: Layout)
    requires hops < MAX_HOPS && Read(packet, pos, hops).Some?
    ensures At(packet, pos, e) && hops + Pointers(e) < MAX_HOPS
    ensures Read(packet, pos, hops).value == Name(Dotted(e), InPlaceEnd(e, pos))
    decreases MAX_HOPS - hops, |packet| - pos
  {
    var len := packet[pos] as int;
    if len == 0 {
      e := End;
    } else if len >= 192 {
      var rest := ReadsOnlyWhatIsWritten(packet, PointerAt(packet, pos), hops + 1);
      e := Pointer(PointerAt(packet, pos), rest);
    } else {
      var rest := ReadsOnlyWhatIsWritten(packet, pos + 1 + len, hops);
      e := Label(packet[pos + 1..pos + 1 + len], rest);
    }
  }

  lemma ResumeTwice(text: string, after: Option<nat>, more: string, upto: Option<nat>, rest: Option<Name>)
    ensures Resume(text, after, Resume(more, upto, rest)) ==
      Resume(text + more, if after.Some? then after else upto, rest)
  {
    if rest.Some? {
      assert text + (more + rest.value.text) == (text + more) + rest.value.text;
    }
  }

  lemma AfterLabel(packet: string, pos: nat, hops: nat, len: nat, text: string, after: Option<nat>)
    requires hops < MAX_HOPS && pos + 1 + len <= |packet| && packet[pos] as int == len && 0 < len < 192
    ensures Resume(text, after, Read(packet, pos, hops)) ==
      Resume(text + (packet[pos + 1..pos + 1 + len] + "."), after, Read(packet, pos + 1 + len, hops))
  {
    ResumeTwice(text, after, packet[pos + 1..pos + 1 + len] + ".", None, Read(packet, pos + 1 + len, hops));
  }

  lemma AfterPointer(packet: string, pos: nat, hops: nat, text: string, after: Option<nat>)
    requires hops + 1 < MAX_HOPS && pos + 1 < |packet| && packet[pos] as int >= 192
    ensures Resume(text, after, Read(packet, pos, hops)) ==
      Resume(text, if after.Some? then after else Some(pos + 2), Read(packet, PointerAt(packet, pos), hops + 1))
  {
    ResumeTwice(text, after, "", Some(pos + 2), Read(packet, PointerAt(packet, pos), hops + 1));
    assert text + "" == text;
  }

  function Lower(s: string): (r: string)
    ensures |r| == |s|
  {
    if s == "" then ""
    else [if 'A' <= s[0] <= 'Z' then (s[0] as int + 32) as char else s[0]] + Lower(s[1..])
  }

  function Lowered(name: Option<Name>): Option<Name> {
    if name.Some? then Some(name.value.(text := Lower(name.value.text))) else None
  }

  /** The loop of `name`: it ends on every packet, and reads exactly the names that are there. */
  method ReadName(packet: string, start: nat) returns (result: Option<Name>)
    ensures result == Lowered(Read(packet, start, 0))
  {
    var text, pos, hops := "", start, 0;
    var after: Option<nat> := None;
    ResumeNothing(Read(packet, start, 0));
    while true
      invariant hops < MAX_HOPS && pos >= 0
      invariant Read(packet, start, 0) == Resume(text, after, Read(packet, pos, hops))
      decreases MAX_HOPS - hops, |packet| - pos
    {
      if pos >= |packet| {
        return None;
      }
      var len := packet[pos] as int;
      if len == 0 {
        assert text + "" == text;
        return Some(Name(Lower(text), if after.Some? then after.value else pos + 1));
      } else if len >= 192 {
        if pos + 1 >= |packet| || hops + 1 >= MAX_HOPS {
          return None;
        }
        AfterPointer(packet, pos, hops, text, after);
        after := if after.Some? then after else Some(pos + 2);
        pos, hops := PointerAt(packet, pos), hops + 1;
      } else {
        if pos + 1 + len > |packet| {
          return None;
        }
        AfterLabel(packet, pos, hops, len, text, after);
        text, pos := text + (packet[pos + 1..pos + 1 + len] + "."), pos + 1 + len;
      }
    }
  }

  lemma ResumeNothing(name: Option<Name>)
    ensures Resume("", None, name) == name
  {
    if name.Some? {
      assert "" + name.value.text == name.value.text;
    }
  }
}
