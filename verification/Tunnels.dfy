/** The tunnel registry and the handlers that hold tunnels open. One device has at most one live
    tunnel: a second connection displaces the first, and a tunnel is dropped by identity, so a
    displaced one can never take its replacement down. */
module Tunnels {
  import opened Common

  // ----- the registry

  function PutLive<T>(live: map<string, T>, device: string, t: T): map<string, T> {
    live[device := t]
  }

  function DropLive<T(==)>(live: map<string, T>, device: string, t: T): map<string, T> {
    if device in live && live[device] == t then live - {device} else live
  }

  class Tunnel {
    const device: string
    var closed: bool

    constructor (device: string)
      ensures this.device == device && !closed
    {
      this.device := device;
      closed := false;
    }

    method Close()
      modifies this
      ensures closed
    {
      closed := true;
    }
  }

  class Registry {
    var live: map<string, Tunnel>

    constructor ()
      ensures live == map[]
    {
      live := map[];
    }

    method Put(t: Tunnel) returns (displaced: Option<Tunnel>)
      modifies this
      ensures live == PutLive(old(live), t.device, t)
      ensures displaced == if t.device in old(live) then Some(old(live)[t.device]) else None
    {
      displaced := if t.device in live then Some(live[t.device]) else None;
      live := live[t.device := t];
    }

    method Drop(t: Tunnel) returns (dropped: bool)
      modifies this
      ensures live == DropLive(old(live), t.device, t)
      ensures dropped <==> t.device in old(live) && old(live)[t.device] == t
    {
      if t.device !in live || live[t.device] != t {
        return false;
      }
      live := live - {t.device};
      return true;
    }

    /** removeDevice's way in: whoever is live for the device is closed, and stays registered until
        its own handler drops it. */
    method CloseDevice(device: string)
      modifies live.Values
      ensures device in live ==> live[device].closed
      ensures forall t :: t in live.Values && (device !in live || t != live[device]) ==> t.closed == old(t.closed)
    {
      if device in live {
        live[device].Close();
      }
    }
  }

  // ----- the handlers, interleaved

  /** Where the handler of one tunnel stands. It has `put` the tunnel from the start. */
  datatype Pc =
    | Replacing(victim: nat)   // the put displaced `victim`, whose disconnect is not recorded yet
    | Connecting            // about to record the connect
    | Watching              // pinging
    | Dropping              // watch returned and the tunnel is closed
    | Recording             // drop said it was live, the disconnect is not recorded yet
    | Finished

  datatype Handler = Handler(device: string, pc: Pc)

  /** `displaced` says which tunnel displaced which. `connects` and `disconnects` count records. */
  datatype World = World(
    live: map<string, nat>,
    handlers: map<nat, Handler>,
    displaced: map<nat, nat>,
    dropped: set<nat>,
    connects: multiset<nat>,
    disconnects: multiset<nat>)

  const EMPTY := World(map[], map[], map[], {}, multiset{}, multiset{})

  datatype Action = PutTunnel(t: nat, device: string) | Record(t: nat) | WatchEnds(t: nat) | DropTunnel(t: nat)

  predicate Enabled(w: World, a: Action) {
    match a
    case PutTunnel(t, device) => t !in w.handlers
    case Record(t) =>
      t in w.handlers && (w.handlers[t].pc.Replacing? || w.handlers[t].pc.Connecting? || w.handlers[t].pc.Recording?)
    case WatchEnds(t) => t in w.handlers && w.handlers[t].pc.Watching?
    case DropTunnel(t) => t in w.handlers && w.handlers[t].pc.Dropping?
  }

  function Move(w: World, t: nat, pc: Pc): World
    requires t in w.handlers
  {
    w.(handlers := w.handlers[t := w.handlers[t].(pc := pc)])
  }

  function Next(w: World, a: Action): World
    requires Enabled(w, a)
  {
    match a
    case PutTunnel(t, device) =>
      var put := w.(live := PutLive(w.live, device, t));
      if device in w.live then
        put.(handlers := w.handlers[t := Handler(device, Replacing(w.live[device]))],
          displaced := w.displaced[w.live[device] := t])
      else put.(handlers := w.handlers[t := Handler(device, Connecting)])
    case Record(t) =>
      (match w.handlers[t].pc
       case Replacing(victim) => Move(w, t, Connecting).(disconnects := w.disconnects + multiset{victim})
       case Connecting => Move(w, t, Watching).(connects := w.connects + multiset{t})
       case _ => Move(w, t, Finished).(disconnects := w.disconnects + multiset{t}))
    case WatchEnds(t) => Move(w, t, Dropping)
    case DropTunnel(t) =>
      var device := w.handlers[t].device;
      if device in w.live && w.live[device] == t then
        Move(w, t, Recording).(live := DropLive(w.live, device, t), dropped := w.dropped + {t})
      else Move(w, t, Finished)
  }

  predicate Schedule(w: World, actions: seq<Action>)
    decreases |actions|
  {
    actions == [] || (Enabled(w, actions[0]) && Schedule(Next(w, actions[0]), actions[1..]))
  }

  function Exec(w: World, actions: seq<Action>): World
    requires Schedule(w, actions)
    decreases |actions|
  {
    if actions == [] then w else Exec(Next(w, actions[0]), actions[1..])
  }

  // ----- what every step keeps

  predicate IsLive(w: World, t: nat) {
    t in w.handlers && w.handlers[t].device in w.live && w.live[w.handlers[t].device] == t
  }

  /** Exactly one of three fates. */
  predicate OneFate(live: bool, displaced: bool, dropped: bool) {
    (live && !displaced && !dropped) || (!live && displaced && !dropped) || (!live && !displaced && dropped)
  }

  /** The records of one tunnel are what its fate and the handlers' positions say. */
  ghost predicate TunnelOk(w: World, t: nat)
    requires t in w.handlers
  {
    var pc := w.handlers[t].pc;
    && OneFate(IsLive(w, t), t in w.displaced, t in w.dropped)
    && (t in w.dropped ==> pc.Recording? || pc.Finished?)
    && (pc.Recording? ==> t in w.dropped)
    && (pc.Finished? ==> !IsLive(w, t))
    && (pc.Replacing? ==> pc.victim in w.displaced && w.displaced[pc.victim] == t)
    && (t in w.displaced ==> w.displaced[t] in w.handlers)
    && w.connects[t] == (if pc.Replacing? || pc.Connecting? then 0 else 1)
    && w.disconnects[t] ==
         (if t in w.displaced then (if w.handlers[w.displaced[t]].pc == Replacing(t) then 0 else 1)
          else if t in w.dropped && !pc.Recording? then 1 else 0)
  }

  ghost predicate Inv(w: World) {
    && (forall t :: t in w.handlers ==> TunnelOk(w, t))
    && (forall d :: d in w.live ==> w.live[d] in w.handlers && w.handlers[w.live[d]].device == d)
    && (forall t :: t in w.displaced ==> t in w.handlers)
    && (forall t :: t in w.dropped ==> t in w.handlers)
    && (forall t :: t !in w.handlers ==> w.connects[t] == 0 && w.disconnects[t] == 0)
  }

  lemma PutKeepsTunnel(w: World, t: nat, device: string, u: nat)
    requires Inv(w) && t !in w.handlers && u in w.handlers
    ensures TunnelOk(Next(w, PutTunnel(t, device)), u)
  {
    assert TunnelOk(w, u);
    if device in w.live {
      assert TunnelOk(w, w.live[device]);
    }
  }

  lemma PutKeepsInv(w: World, t: nat, device: string)
    requires Inv(w) && t !in w.handlers
    ensures Inv(Next(w, PutTunnel(t, device)))
  {
    var next := Next(w, PutTunnel(t, device));
    forall u | u in next.handlers ensures TunnelOk(next, u) {
      if u != t {
        PutKeepsTunnel(w, t, device, u);
      }
    }
  }

  lemma ReplacedKeepsTunnel(w: World, t: nat, u: nat)
    requires Inv(w) && Enabled(w, Record(t)) && w.handlers[t].pc.Replacing? && u in w.handlers
    ensures TunnelOk(Next(w, Record(t)), u)
  {
    assert TunnelOk(w, t) && TunnelOk(w, u);
    assert Next(w, Record(t)).disconnects[u] == w.disconnects[u] + if u == w.handlers[t].pc.victim then 1 else 0;
  }

  lemma ConnectKeepsTunnel(w: World, t: nat, u: nat)
    requires Inv(w) && Enabled(w, Record(t)) && w.handlers[t].pc.Connecting? && u in w.handlers
    ensures TunnelOk(Next(w, Record(t)), u)
  {
    assert TunnelOk(w, t) && TunnelOk(w, u);
  }

  lemma DisconnectKeepsTunnel(w: World, t: nat, u: nat)
    requires Inv(w) && Enabled(w, Record(t)) && w.handlers[t].pc.Recording? && u in w.handlers
    ensures TunnelOk(Next(w, Record(t)), u)
  {
    assert TunnelOk(w, t) && TunnelOk(w, u);
  }

  lemma RecordKeepsInv(w: World, t: nat)
    requires Inv(w) && Enabled(w, Record(t))
    ensures Inv(Next(w, Record(t)))
  {
    var next := Next(w, Record(t));
    forall u | u in next.handlers ensures TunnelOk(next, u) {
      match w.handlers[t].pc
      case Replacing(_) => ReplacedKeepsTunnel(w, t, u);
      case Connecting => ConnectKeepsTunnel(w, t, u);
      case Recording => DisconnectKeepsTunnel(w, t, u);
    }
    assert TunnelOk(w, t);
  }

  lemma DropKeepsInv(w: World, t: nat)
    requires Inv(w) && Enabled(w, DropTunnel(t))
    ensures Inv(Next(w, DropTunnel(t)))
  {
    var next := Next(w, DropTunnel(t));
    assert TunnelOk(w, t);
    forall u | u in next.handlers ensures TunnelOk(next, u) {
      assert TunnelOk(w, u);
    }
  }

  lemma WatchKeepsInv(w: World, t: nat)
    requires Inv(w) && Enabled(w, WatchEnds(t))
    ensures Inv(Next(w, WatchEnds(t)))
  {
    var next := Next(w, WatchEnds(t));
    assert TunnelOk(w, t);
    forall u | u in next.handlers ensures TunnelOk(next, u) {
      assert TunnelOk(w, u);
    }
  }

  lemma NextKeepsInv(w: World, a: Action)
    requires Inv(w) && Enabled(w, a)
    ensures Inv(Next(w, a))
  {
    match a
    case PutTunnel(t, device) => PutKeepsInv(w, t, device);
    case Record(t) => RecordKeepsInv(w, t);
    case WatchEnds(t) => WatchKeepsInv(w, t);
    case DropTunnel(t) => DropKeepsInv(w, t);
  }

  lemma {:induction false} ScheduleKeepsInv(w: World, actions: seq<Action>)
    requires Inv(w) && Schedule(w, actions)
    ensures Inv(Exec(w, actions))
    decreases |actions|
  {
    if actions != [] {
      NextKeepsInv(w, actions[0]);
      ScheduleKeepsInv(Next(w, actions[0]), actions[1..]);
    }
  }

  // ----- the results

  /** Every tunnel ever put is exactly one of live, displaced or dropped. It is recorded connected
      at most once and disconnected at most once, and never disconnected while it is live. */
  lemma OneFateEach(actions: seq<Action>, t: nat)
    requires Schedule(EMPTY, actions) && t in Exec(EMPTY, actions).handlers
    ensures var w := Exec(EMPTY, actions);
      && OneFate(IsLive(w, t), t in w.displaced, t in w.dropped)
      && w.connects[t] <= 1 && w.disconnects[t] <= 1
      && (IsLive(w, t) ==> w.disconnects[t] == 0)
      && (w.handlers[t].pc.Finished? ==> t in w.displaced || w.disconnects[t] == 1)
  {
    ScheduleKeepsInv(EMPTY, actions);
    assert TunnelOk(Exec(EMPTY, actions), t);
  }

  /** A displaced tunnel's drop leaves the registry, and so its replacement, alone. */
  lemma DisplacedDropKeepsReplacement(actions: seq<Action>, t: nat)
    requires Schedule(EMPTY, actions)
    requires Enabled(Exec(EMPTY, actions), DropTunnel(t)) && t in Exec(EMPTY, actions).displaced
    ensures Next(Exec(EMPTY, actions), DropTunnel(t)).live == Exec(EMPTY, actions).live
  {
    ScheduleKeepsInv(EMPTY, actions);
    assert TunnelOk(Exec(EMPTY, actions), t);
  }

  lemma NextKeepsFate(w: World, a: Action, t: nat)
    requires Inv(w) && Enabled(w, a) && t in w.handlers
    ensures t in w.displaced ==> t in Next(w, a).displaced && Next(w, a).displaced[t] == w.displaced[t]
    ensures t in w.dropped ==> t in Next(w, a).dropped
    ensures t in Next(w, a).handlers
  {
    if a.PutTunnel? && a.device in w.live {
      assert TunnelOk(w, w.live[a.device]);
    }
  }

  /** A fate once sealed stays sealed: displaced stays displaced, by the same tunnel, and dropped
      stays dropped. */
  lemma {:induction false} FateIsFinal(w: World, actions: seq<Action>, t: nat)
    requires Inv(w) && Schedule(w, actions) && t in w.handlers
    ensures t in w.displaced ==> t in Exec(w, actions).displaced && Exec(w, actions).displaced[t] == w.displaced[t]
    ensures t in w.dropped ==> t in Exec(w, actions).dropped
    decreases |actions|
  {
    if actions != [] {
      NextKeepsInv(w, actions[0]);
      NextKeepsFate(w, actions[0], t);
      FateIsFinal(Next(w, actions[0]), actions[1..], t);
    }
  }

  /** No handler is between a registry change and its record. */
  ghost predicate Quiet(w: World) {
    forall t :: t in w.handlers ==>
      !w.handlers[t].pc.Replacing? && !w.handlers[t].pc.Connecting? && !w.handlers[t].pc.Recording?
  }

  lemma {:induction false} InjectiveValues<T>(m: map<string, T>)
    requires forall d, e :: d in m && e in m && m[d] == m[e] ==> d == e
    ensures |m.Values| == |m|
    decreases |m|
  {
    if m != map[] {
      var d :| d in m;
      var rest := m - {d};
      InjectiveValues(rest);
      assert m.Keys == rest.Keys + {d};
      forall v | v in m.Values ensures v in rest.Values + {m[d]} {
        var e :| e in m && m[e] == v;
        assert e != d ==> e in rest && rest[e] == v;
      }
      assert m.Values == rest.Values + {m[d]};
    }
  }

  lemma QuietRecords(w: World)
    requires Inv(w) && Quiet(w)
    ensures w.connects == multiset(w.handlers.Keys)
    ensures w.disconnects == multiset(w.handlers.Keys - w.live.Values)
  {
    forall t ensures w.connects[t] == multiset(w.handlers.Keys)[t] {
      if t in w.handlers {
        assert TunnelOk(w, t);
      }
    }
    forall t ensures w.disconnects[t] == multiset(w.handlers.Keys - w.live.Values)[t] {
      if t in w.handlers {
        assert TunnelOk(w, t);
        assert t in w.live.Values <==> IsLive(w, t);
      }
    }
  }

  /** When the records have caught up with the registry, connects minus disconnects is the number
      of live tunnels, and every tunnel that has ended has exactly one disconnect. */
  lemma ConnectsMinusDisconnects(actions: seq<Action>)
    requires Schedule(EMPTY, actions) && Quiet(Exec(EMPTY, actions))
    ensures var w := Exec(EMPTY, actions);
      && |w.connects| - |w.disconnects| == |w.live|
      && forall t :: t in w.handlers ==> w.disconnects[t] == if IsLive(w, t) then 0 else 1
  {
    ScheduleKeepsInv(EMPTY, actions);
    var w := Exec(EMPTY, actions);
    QuietRecords(w);
    InjectiveValues(w.live);
    assert w.live.Values <= w.handlers.Keys;
    assert |w.handlers.Keys - w.live.Values| == |w.handlers.Keys| - |w.live.Values|;
    forall t | t in w.handlers ensures w.disconnects[t] == if IsLive(w, t) then 0 else 1 {
      assert TunnelOk(w, t);
    }
  }
}
