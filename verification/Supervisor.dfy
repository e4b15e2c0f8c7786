/** The supervisor that keeps the registry's applications running, and the agent's one way of
    changing the registry, which keeps the file, the memory, the routes and the running children in
    step. */
module Supervisor {
  import opened Shares

  /** One running application. The id is the child's identity: no two starts share one. */
  datatype Child = Child(id: nat, spec: App)

  predicate SameSpec(a: App, b: App) {
    a.address == b.address && a.command == b.command
  }

  /** What should run: the entries with a command, by name, a later entry winning. */
  function Want(apps: seq<App>): map<string, App> {
    if apps == [] then map[]
    else
      var a := apps[|apps| - 1];
      var before := Want(apps[..|apps| - 1]);
      if a.command != [] then before[a.name := a] else before
  }

  lemma {:induction false} WantNames(apps: seq<App>)
    ensures forall n :: n in Want(apps) ==>
      Want(apps)[n].name == n && Want(apps)[n] in apps && Want(apps)[n].command != []
    ensures forall i :: 0 <= i < |apps| && apps[i].command != [] ==> apps[i].name in Want(apps)
  {
    if apps != [] {
      WantNames(apps[..|apps| - 1]);
    }
  }

  /** Running matches wanted: the same names, each with the wanted address and command. */
  ghost predicate Matches(running: map<string, Child>, want: map<string, App>) {
    && running.Keys == want.Keys
    && forall n :: n in running ==> SameSpec(running[n].spec, want[n])
  }

  /** No two live loops share a name. */
  ghost predicate NoTwins(live: set<Child>) {
    forall c, d :: c in live && d in live && c.spec.name == d.spec.name ==> c == d
  }

  class Children {
    var running: map<string, Child>
    var nextId: nat
    // The loops that have been started and have not returned.
    ghost var live: set<Child>

    ghost predicate Valid()
      reads this
    {
      && (forall n :: n in running ==> running[n].spec.name == n && running[n].id < nextId && running[n] in live)
      && (forall c :: c in live ==> c.spec.name in running && running[c.spec.name] == c)
    }

    constructor ()
      ensures Valid() && running == map[] && live == {}
    {
      running, nextId, live := map[], 0, {};
    }

    /** A loop starts only under a name no live loop has. */
    method Start(a: App) returns (c: Child)
      requires Valid() && forall d :: d in live ==> d.spec.name != a.name
      modifies this
      ensures Valid() && NoTwins(live) && c == Child(old(nextId), a) && nextId == old(nextId) + 1
      ensures running == old(running)[a.name := c] && live == old(live) + {c}
    {
      c := Child(nextId, a);
      nextId := nextId + 1;
      running := running[a.name := c];
      live := live + {c};
    }

    /** Cancels a loop and waits until it has returned. */
    method Stop(name: string)
      requires Valid() && name in running
      modifies this
      ensures Valid() && NoTwins(live) && nextId == old(nextId)
      ensures running == old(running) - {name} && live == old(live) - {old(running)[name]}
    {
      live := live - {running[name]};
      running := running - {name};
    }

    /** Cancels the stale children and waits for every one of them. */
    method StopAll(stale: set<string>)
      requires Valid() && stale <= running.Keys
      modifies this
      ensures Valid() && nextId == old(nextId) && running == old(running) - stale
    {
      var todo := stale;
      while todo != {}
        invariant Valid() && todo <= stale && nextId == old(nextId)
        invariant running == old(running) - (stale - todo)
        decreases |todo|
      {
        var name :| name in todo;
        Stop(name);
        assert stale - (todo - {name}) == (stale - todo) + {name};
        todo := todo - {name};
      }
      assert stale - {} == stale;
    }

    method StartAll(left: map<string, App>)
      requires Valid() && left.Keys !! running.Keys && forall n :: n in left ==> left[n].name == n
      modifies this
      ensures Valid() && nextId >= old(nextId)
      ensures Grown(old(running), running, left, {}, old(nextId))
    {
      var rest := left.Keys;
      while rest != {}
        invariant Valid() && rest <= left.Keys && nextId >= old(nextId)
        invariant Grown(old(running), running, left, rest, old(nextId))
        decreases |rest|
      {
        var name :| name in rest;
        ghost var before := running;
        var c := Start(left[name]);
        GrowsByOne(old(running), before, left, rest, old(nextId), name, c);
        rest := rest - {name};
      }
    }

    /** Brings what is running into line with the registry. A child whose address and command did
        not change is the same child as before, every other one is new, and everything that has to
        go has returned before anything starts. */
    method Set(apps: seq<App>)
      requires Valid()
      modifies this
      ensures Valid() && NoTwins(live) && nextId >= old(nextId)
      ensures Reconciled(old(running), running, Want(apps), old(nextId))
    {
      WantNames(apps);
      var want := Wanted(apps);
      ghost var was := running;
      var stale, left := Divide(running, want);
      StopAll(stale);
      ghost var kept := running;
      assert forall n :: n in kept <==> StillRight(was, want, n);
      StartAll(left);
      SetReconciles(was, want, left, kept, running, old(nextId));
    }
  }

  /** What has been started so far: everything in `left` but `rest`, beside what was running. */
  ghost predicate Grown(was: map<string, Child>,
                        now: map<string, Child>, left: map<string, App>, rest: set<string>, first: nat)
  {
    && (forall n :: n in now <==> n in was || (n in left && n !in rest))
    && (forall n :: n in was ==> n in now && now[n] == was[n])
    && (forall n :: n in left && n !in rest ==> n in now && now[n].id >= first && now[n].spec == left[n])
  }

  lemma GrowsByOne(was: map<string, Child>, now: map<string, Child>,
                   left: map<string, App>, rest: set<string>, first: nat,
                   name: string, c: Child)
    requires Grown(was, now, left, rest, first) && left.Keys !! was.Keys
    requires name in rest && name in left && c.spec == left[name] && c.id >= first
    ensures Grown(was, now[name := c], left, rest - {name}, first)
  {
  }

  /** Running is what is wanted: the same child where nothing changed, a new one everywhere else. */
  ghost predicate Reconciled(was: map<string, Child>, now: map<string, Child>, want: map<string, App>, first: nat) {
    && Matches(now, want)
    && forall n :: n in now ==>
         if n in was && SameSpec(was[n].spec, want[n]) then now[n] == was[n]
         else now[n].id >= first && now[n].spec == want[n]
  }

  /** A child is still right when its name is wanted with the same address and command. */
  predicate StillRight(running: map<string, Child>, want: map<string, App>, n: string) {
    n in running && n in want && SameSpec(want[n], running[n].spec)
  }

  lemma SetReconciles(was: map<string, Child>, want: map<string, App>, left: map<string, App>, kept: map<string, Child>,
                      now: map<string, Child>, first: nat)
    requires forall n :: n in left <==> n in want && !StillRight(was, want, n)
    requires forall n :: n in left ==> left[n] == want[n]
    requires forall n :: n in kept <==> StillRight(was, want, n)
    requires forall n :: n in kept ==> n in was && kept[n] == was[n]
    requires Grown(kept, now, left, {}, first)
    ensures Reconciled(was, now, want, first)
  {
    assert forall n :: n in now <==> n in want;
  }

  /** Which children have to go, and which entries are left to start. */
  method Divide(running: map<string, Child>, want: map<string, App>)
    returns (stale: set<string>, left: map<string, App>)
    ensures forall n :: n in stale <==> n in running && !StillRight(running, want, n)
    ensures forall n :: n in left <==> n in want && !StillRight(running, want, n)
    ensures forall n :: n in left ==> left[n] == want[n]
  {
    stale, left := {}, want;
    var todo := running.Keys;
    while todo != {}
      invariant todo <= running.Keys
      invariant forall n :: n in stale <==> n in running && n !in todo && !StillRight(running, want, n)
      invariant forall n :: n in left <==> n in want && (n in todo || !StillRight(running, want, n))
      invariant forall n :: n in left ==> left[n] == want[n]
      decreases |todo|
    {
      var name :| name in todo;
      todo := todo - {name};
      if name in left && SameSpec(left[name], running[name].spec) {
        left := left - {name};
      } else {
        stale := stale + {name};
      }
    }
  }

  method Wanted(apps: seq<App>) returns (want: map<string, App>)
    ensures want == Want(apps)
  {
    want := map[];
    for i := 0 to |apps|
      invariant want == Want(apps[..i])
    {
      assert apps[..i + 1][..i] == apps[..i];
      if apps[i].command != [] {
        want := want[apps[i].name := apps[i]];
      }
    }
    assert apps[..|apps|] == apps;
  }

  // ----- the registry

  /** The routes the gateway serves: a name leads to the address the registry gives it. */
  function Routes(apps: seq<App>): map<string, Address> {
    if apps == [] then map[] else Routes(apps[..|apps| - 1])[apps[|apps| - 1].name := apps[|apps| - 1].address]
  }

  class Agent {
    var memory: State
    var disk: State
    var routes: map<string, Address>
    const children: Children

    /** The file, the memory, the routes and the running applications agree. */
    ghost predicate InStep()
      reads this, children
    {
      && children.Valid() && ValidState(memory) && disk == memory
      && routes == Routes(memory.apps) && Matches(children.running, Want(memory.apps))
    }

    constructor (s: State)
      requires ValidState(s)
      ensures InStep() && memory == s && fresh(children)
    {
      memory, disk, routes := s, s, Routes(s.apps);
      var c := new Children();
      c.Set(s.apps);
      children := c;
    }

    /** Replaces what this PC shares. `saved` is whether the file could be written. Either all four
        change together, or none of them does. */
    method SetApps(apps: seq<App>, saved: bool) returns (ok: bool)
      requires InStep()
      modifies this, children
      ensures InStep()
      ensures ok <==> saved && ValidState(old(memory).(apps := apps))
      ensures ok ==> memory == old(memory).(apps := apps)
      ensures ok ==> Reconciled(old(children.running), children.running, Want(apps), old(children.nextId))
      ensures !ok ==>
        memory == old(memory) && disk == old(disk) && routes == old(routes) && children.running == old(children.running)
    {
      var next := memory.(apps := apps);
      var valid := Validate(next);
      if !valid || !saved {
        return false;
      }
      disk := next;
      memory := memory.(apps := next.apps);
      children.Set(next.apps);
      routes := Routes(memory.apps);
      return true;
    }

    /** Saves the new address of an application whose loop had to move to another port. When that
        goes through, the loop that moved is replaced by one that is started with the new address. */
    method MoveApp(moved: App, saved: bool) returns (ok: bool)
      requires InStep()
      modifies this, children
      ensures InStep()
      ensures ok <==> saved && ValidState(old(memory).(apps := Moved(old(memory).apps, moved)))
      ensures memory == if ok then old(memory).(apps := Moved(old(memory).apps, moved)) else old(memory)
      ensures !ok ==> disk == old(disk) && routes == old(routes) && children.running == old(children.running)
      ensures ok ==>
        Reconciled(old(children.running), children.running, Want(Moved(old(memory).apps, moved)), old(children.nextId))
    {
      var list := memory.apps;
      for i := 0 to |list|
        invariant |list| == |memory.apps| && InStep() && memory == old(memory) && disk == old(disk)
        invariant routes == old(routes) && children.running == old(children.running)
        invariant children.nextId == old(children.nextId)
        invariant forall j :: 0 <= j < |list| ==>
          list[j] == if j < i && memory.apps[j].name == moved.name then moved else memory.apps[j]
      {
        if list[i].name == moved.name {
          list := list[i := moved];
        }
      }
      assert list == Moved(memory.apps, moved);
      ok := SetApps(list, saved);
    }
  }

  /** The registry with the moved entry in it. */
  function Moved(apps: seq<App>, moved: App): seq<App> {
    seq(|apps|, i requires 0 <= i < |apps| => if apps[i].name == moved.name then moved else apps[i])
  }

  /** So after a move the child of that name is a new one, started with the address it moved to,
      unless it had that address already. */
  lemma MovedIsReplaced(apps: seq<App>, i: nat, moved: App,
                        was: map<string, Child>, now: map<string, Child>, first: nat)
    requires i < |apps| && apps[i].name == moved.name && moved.command != []
    requires ValidApps(Moved(apps, moved)) && Reconciled(was, now, Want(Moved(apps, moved)), first)
    ensures moved.name in now && now[moved.name].spec.address == moved.address
    ensures moved.name in was && was[moved.name].spec.address != moved.address ==> now[moved.name].id >= first
  {
    RoutesAreTheRegistry(Moved(apps, moved), i);
  }

  /** In a valid registry every application has exactly its own route, and every child was started
      with the address its route leads to. */
  lemma {:induction false} RoutesAreTheRegistry(apps: seq<App>, i: nat)
    requires ValidApps(apps) && i < |apps|
    ensures apps[i].name in Routes(apps) && Routes(apps)[apps[i].name] == apps[i].address
    ensures apps[i].command != [] ==> apps[i].name in Want(apps) && Want(apps)[apps[i].name] == apps[i]
  {
    if i < |apps| - 1 {
      RoutesAreTheRegistry(apps[..|apps| - 1], i);
    }
  }

  lemma ChildHasItsRoute(apps: seq<App>, running: map<string, Child>, name: string)
    requires ValidApps(apps) && Matches(running, Want(apps)) && name in running
    ensures name in Routes(apps) && Routes(apps)[name] == running[name].spec.address
  {
    WantNames(apps);
    var i :| 0 <= i < |apps| && apps[i] == Want(apps)[name];
    RoutesAreTheRegistry(apps, i);
  }
}
