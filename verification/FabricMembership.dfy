/** Which backends a Machine has registered after any history of ticks and stops. */
module FabricMembership {

  import opened Options
  import opened ServiceFabric

  // ------------------------------------------------------- one service's list

  lemma {:induction false} HasKeyCons(b: Backend, bs: seq<Backend>, address: Id, port: nat)
    ensures HasKey([b] + bs, address, port) <==> At(b, address, port) || HasKey(bs, address, port)
  {
    var all := [b] + bs;
    if HasKey(bs, address, port) {
      var i :| 0 <= i < |bs| && At(bs[i], address, port);
      assert all[i + 1] == bs[i];
    }
    if HasKey(all, address, port) {
      var i :| 0 <= i < |all| && At(all[i], address, port);
      assert i > 0 ==> all[i] == bs[i - 1];
    }
    assert all[0] == b;
  }

  lemma {:induction false} UniqueCons(b: Backend, bs: seq<Backend>)
    ensures UniqueKeys([b] + bs) <==> UniqueKeys(bs) && !HasKey(bs, b.address, b.port)
  {
    var all := [b] + bs;
    assert forall i :: 0 <= i < |bs| ==> all[i + 1] == bs[i];
    if UniqueKeys(all) {
      forall i, j | 0 <= i < j < |bs| ensures !At(bs[j], bs[i].address, bs[i].port) {
        assert !At(all[j + 1], all[i + 1].address, all[i + 1].port);
      }
      forall i | 0 <= i < |bs| ensures !At(bs[i], b.address, b.port) {
        assert !At(all[i + 1], all[0].address, all[0].port);
      }
    }
  }

  lemma {:induction false} UpsertKeys(bs: seq<Backend>, b: Backend, address: Id, port: nat)
    ensures HasKey(Upsert(bs, b), address, port) <==> HasKey(bs, address, port) || At(b, address, port)
  {
    if bs == [] {
      assert [b] + [] == [b];
      HasKeyCons(b, [], address, port);
    } else {
      assert bs == [bs[0]] + bs[1..];
      HasKeyCons(bs[0], bs[1..], address, port);
      if At(bs[0], b.address, b.port) {
        HasKeyCons(b, bs[1..], address, port);
      } else {
        UpsertKeys(bs[1..], b, address, port);
        HasKeyCons(bs[0], Upsert(bs[1..], b), address, port);
      }
    }
  }

  lemma {:induction false} UpsertUnique(bs: seq<Backend>, b: Backend)
    requires UniqueKeys(bs)
    ensures UniqueKeys(Upsert(bs, b))
  {
    if bs != [] {
      assert bs == [bs[0]] + bs[1..];
      UniqueCons(bs[0], bs[1..]);
      if At(bs[0], b.address, b.port) {
        UniqueCons(b, bs[1..]);
      } else {
        UpsertUnique(bs[1..], b);
        UpsertKeys(bs[1..], b, bs[0].address, bs[0].port);
        UniqueCons(bs[0], Upsert(bs[1..], b));
      }
    }
  }

  lemma {:induction false} RemoveKeys(bs: seq<Backend>, address: Id, port: nat, a: Id, p: nat)
    requires UniqueKeys(bs)
    ensures HasKey(Remove(bs, address, port), a, p) <==> HasKey(bs, a, p) && !(a == address && p == port)
    ensures UniqueKeys(Remove(bs, address, port))
  {
    if bs != [] {
      assert bs == [bs[0]] + bs[1..];
      UniqueCons(bs[0], bs[1..]);
      HasKeyCons(bs[0], bs[1..], a, p);
      if !At(bs[0], address, port) {
        RemoveKeys(bs[1..], address, port, bs[0].address, bs[0].port);
        RemoveKeys(bs[1..], address, port, a, p);
        HasKeyCons(bs[0], Remove(bs[1..], address, port), a, p);
        UniqueCons(bs[0], Remove(bs[1..], address, port));
      }
    }
  }

  lemma {:induction false} OthersCons(b: Backend, bs: seq<Backend>, name: Id, own: set<Membership>)
    ensures Others([b] + bs, name, own)
         == (if Membership(name, b.port, b.address) in own then [] else [b]) + Others(bs, name, own)
  {
    assert ([b] + bs)[1..] == bs;
  }

  lemma {:induction false} UpsertOthers(bs: seq<Backend>, b: Backend, name: Id, own: set<Membership>)
    requires Membership(name, b.port, b.address) in own
    ensures Others(Upsert(bs, b), name, own) == Others(bs, name, own)
  {
    if bs == [] {
      assert [b] == [b] + [];
      OthersCons(b, [], name, own);
    } else if At(bs[0], b.address, b.port) {
      OthersCons(b, bs[1..], name, own);
    } else {
      UpsertOthers(bs[1..], b, name, own);
      OthersCons(bs[0], Upsert(bs[1..], b), name, own);
    }
  }

  lemma {:induction false} RemoveOthers(bs: seq<Backend>, address: Id, port: nat, name: Id, own: set<Membership>)
    requires Membership(name, port, address) in own
    ensures Others(Remove(bs, address, port), name, own) == Others(bs, name, own)
  {
    if bs != [] && !At(bs[0], address, port) {
      RemoveOthers(bs[1..], address, port, name, own);
      OthersCons(bs[0], Remove(bs[1..], address, port), name, own);
    }
  }

  // --------------------------------------------------------- the loops' effect

  lemma {:induction false} RegisterTidy(reg: Registry, services: seq<Service>, ip: Id, down: set<Id>)
    requires Tidy(reg)
    ensures Tidy(RegisterEach(reg, services, ip, down).reg)
  {
    if services != [] {
      var s := services[|services| - 1];
      var r := RegisterEach(reg, services[..|services| - 1], ip, down);
      RegisterTidy(reg, services[..|services| - 1], ip, down);
      if s.name in r.reg { UpsertUnique(r.reg[s.name], BackendFor(s, ip)); }
    }
  }

  /** Registration adds exactly the memberships it reports, wherever it stopped. */
  lemma {:induction false} RegisterKeys(reg: Registry, services: seq<Service>, ip: Id, down: set<Id>, k: Membership)
    ensures var r := RegisterEach(reg, services, ip, down);
            Has(r.reg, k) <==> Has(reg, k) || k in r.applied
  {
    if services != [] {
      var s := services[|services| - 1];
      var r := RegisterEach(reg, services[..|services| - 1], ip, down);
      RegisterKeys(reg, services[..|services| - 1], ip, down, k);
      if r.ok && Sound(r.reg, s, down) {
        UpsertKeys(r.reg[s.name], BackendFor(s, ip), k.guestIP, k.port);
      }
    }
  }

  lemma {:induction false} RegisterOthers(reg: Registry, services: seq<Service>, ip: Id, down: set<Id>,
                                          n: Id, own: set<Membership>)
    requires n in reg && forall s :: s in services ==> MembershipFor(s, ip) in own
    ensures Others(RegisterEach(reg, services, ip, down).reg[n], n, own) == Others(reg[n], n, own)
  {
    if services != [] {
      var s := services[|services| - 1];
      var r := RegisterEach(reg, services[..|services| - 1], ip, down);
      RegisterOthers(reg, services[..|services| - 1], ip, down, n, own);
      assert MembershipFor(s, ip) in own;
      if r.ok && Sound(r.reg, s, down) { UpsertOthers(r.reg[s.name], BackendFor(s, ip), s.name, own); }
    }
  }

  function SpecKeys(services: seq<Service>, ip: Id): (r: seq<Membership>) {
    seq(|services|, i requires 0 <= i < |services| => MembershipFor(services[i], ip))
  }

  predicate AllSound(reg: Registry, services: seq<Service>, down: set<Id>) {
    forall s :: s in services ==> Sound(reg, s, down)
  }

  /** Registration succeeds exactly when every entry is sound, and then covers the spec. */
  lemma {:induction false} RegisterComplete(reg: Registry, services: seq<Service>, ip: Id, down: set<Id>)
    ensures var r := RegisterEach(reg, services, ip, down);
            && (r.ok <==> AllSound(reg, services, down))
            && (r.ok ==> r.applied == SpecKeys(services, ip))
  {
    if services != [] {
      var front, last := services[..|services| - 1], services[|services| - 1];
      RegisterComplete(reg, front, ip, down);
      assert services == front + [last];
      assert AllSound(reg, services, down) <==> AllSound(reg, front, down) && Sound(reg, last, down) by {
        assert forall s :: s in services <==> s in front || s == last;
      }
    }
  }

  lemma {:induction false} RetractTidy(reg: Registry, prev: seq<Membership>, keep: seq<Membership>, down: set<Id>)
    requires Tidy(reg)
    ensures Tidy(RetractEach(reg, prev, keep, down).reg)
    decreases |prev|
  {
    if prev != [] {
      var k := prev[|prev| - 1];
      var r := RetractEach(reg, prev[..|prev| - 1], keep, down);
      RetractTidy(reg, prev[..|prev| - 1], keep, down);
      if k.name in r.reg { RemoveKeys(r.reg[k.name], k.guestIP, k.port, NoId, 0); }
    }
  }

  predicate Addressable(k: Membership) { k.name != NoId && k.guestIP != NoId }

  /** With no failing call, what is taken back is exactly what is listed and not kept. */
  lemma {:induction false} RetractKeys(reg: Registry, prev: seq<Membership>, keep: seq<Membership>, k: Membership)
    requires Tidy(reg)
    ensures var r := RetractEach(reg, prev, keep, {});
            r.ok && (Has(r.reg, k) <==> Has(reg, k) && !(k in prev && k !in keep && Addressable(k)))
    decreases |prev|
  {
    if prev != [] {
      var front, last := prev[..|prev| - 1], prev[|prev| - 1];
      var r := RetractEach(reg, front, keep, {});
      RetractKeys(reg, front, keep, k);
      RetractTidy(reg, front, keep, {});
      assert k in prev <==> k in front || k == last by { assert prev == front + [last]; }
      if last !in keep { RetractOneKeys(r.reg, last, k); }
    }
  }

  lemma {:induction false} RetractOneKeys(reg: Registry, last: Membership, k: Membership)
    requires Tidy(reg)
    ensures var r := Retract(reg, last, {});
            r.ok && (Has(r.reg, k) <==> Has(reg, k) && !(k == last && Addressable(k)))
  {
    if last.name in reg { RemoveKeys(reg[last.name], last.guestIP, last.port, k.guestIP, k.port); }
  }

  lemma {:induction false} RetractOneOthers(reg: Registry, k: Membership, down: set<Id>, n: Id, own: set<Membership>)
    requires n in reg && k in own
    ensures Others(Retract(reg, k, down).reg[n], n, own) == Others(reg[n], n, own)
  {
    if k.name in reg { RemoveOthers(reg[k.name], k.guestIP, k.port, k.name, own); }
  }

  lemma {:induction false} RetractOthers(reg: Registry, prev: seq<Membership>, keep: seq<Membership>, down: set<Id>,
                                         n: Id, own: set<Membership>)
    requires n in reg && forall k :: k in prev ==> k in own
    ensures Others(RetractEach(reg, prev, keep, down).reg[n], n, own) == Others(reg[n], n, own)
    decreases |prev|
  {
    if prev != [] {
      var k := prev[|prev| - 1];
      var r := RetractEach(reg, prev[..|prev| - 1], keep, down);
      RetractOthers(reg, prev[..|prev| - 1], keep, down, n, own);
      RetractOneOthers(r.reg, k, down, n, own);
    }
  }

  // ------------------------------------------------ contents of what is there

  lemma {:induction false} UpsertHolds(bs: seq<Backend>, b: Backend, x: Backend)
    requires x == b || (x in bs && !At(x, b.address, b.port))
    ensures x in Upsert(bs, b)
  {
    if bs != [] && !At(bs[0], b.address, b.port) && x != bs[0] { UpsertHolds(bs[1..], b, x); }
  }

  lemma {:induction false} RemoveHolds(bs: seq<Backend>, address: Id, port: nat, x: Backend)
    requires x in bs && !At(x, address, port)
    ensures x in Remove(bs, address, port)
  {
    if !At(bs[0], address, port) && x != bs[0] { RemoveHolds(bs[1..], address, port, x); }
  }

  predicate DistinctServices(services: seq<Service>) {
    forall i, j :: 0 <= i < j < |services| ==>
      services[i].name != services[j].name || services[i].port != services[j].port
  }

  lemma {:induction false} RegisterHolds(reg: Registry, services: seq<Service>, ip: Id, down: set<Id>, i: nat)
    requires i < |services| && DistinctServices(services) && AllSound(reg, services, down)
    ensures services[i].name in reg
    ensures BackendFor(services[i], ip) in RegisterEach(reg, services, ip, down).reg[services[i].name]
  {
    var front, last := services[..|services| - 1], services[|services| - 1];
    var r := RegisterEach(reg, front, ip, down);
    assert forall s :: s in front ==> s in services;
    RegisterComplete(reg, front, ip, down);
    assert last in services && Sound(reg, last, down) && Sound(reg, services[i], down);
    if i < |front| { RegisterHolds(reg, front, ip, down, i); }
    if last.name == services[i].name {
      UpsertHolds(r.reg[last.name], BackendFor(last, ip), BackendFor(services[i], ip));
    }
  }

  lemma {:induction false} RetractHolds(reg: Registry, prev: seq<Membership>, keep: seq<Membership>, down: set<Id>,
                                        n: Id, b: Backend)
    requires n in reg && b in reg[n] && Membership(n, b.port, b.address) in keep
    ensures b in RetractEach(reg, prev, keep, down).reg[n]
    decreases |prev|
  {
    if prev != [] {
      var k := prev[|prev| - 1];
      var r := RetractEach(reg, prev[..|prev| - 1], keep, down);
      RetractHolds(reg, prev[..|prev| - 1], keep, down, n, b);
      if k !in keep && k.name == n { RemoveHolds(r.reg[n], k.guestIP, k.port, b); }
    }
  }

  /** A good tick leaves every service of the spec with the Machine's backend enabled,
      ready and at the spec's weight (one when the spec gives none). */
  lemma {:induction false} TickContents(reg: Registry, services: seq<Service>, prev: seq<Membership>, ip: Id, i: nat)
    requires ip != NoId && i < |services| && DistinctServices(services) && AllSound(reg, services, {})
    ensures services[i].name in reg
    ensures BackendFor(services[i], ip) in Reconcile(reg, services, prev, ip, {}, {}).reg[services[i].name]
  {
    var r1 := RegisterEach(reg, services, ip, {});
    RegisterComplete(reg, services, ip, {});
    RegisterHolds(reg, services, ip, {}, i);
    assert SpecKeys(services, ip)[i] in r1.applied;
    RetractHolds(r1.reg, prev, r1.applied, {}, services[i].name, BackendFor(services[i], ip));
  }

  // ------------------------------------------------------------------ one tick

  predicate AllAddressable(ks: seq<Membership>) { forall k :: k in ks ==> Addressable(k) }

  /** What the spec asks for while the guest has an address. */
  function Wanted(services: seq<Service>, ip: Id): (r: seq<Membership>) {
    if ip == NoId then [] else SpecKeys(services, ip)
  }

  predicate TickSound(reg: Registry, services: seq<Service>, ip: Id) {
    ip != NoId ==> AllSound(reg, services, {})
  }

  /** A tick in which every call succeeds returns the spec's memberships, and a backend is
      registered afterwards exactly when it is one of them or was there and not listed. */
  lemma {:induction false} TickKeys(reg: Registry, services: seq<Service>, prev: seq<Membership>, ip: Id, k: Membership)
    requires Tidy(reg) && AllAddressable(prev) && TickSound(reg, services, ip)
    ensures var r := Reconcile(reg, services, prev, ip, {}, {});
            && r.ok && r.applied == Wanted(services, ip) && Tidy(r.reg)
            && (Has(r.reg, k) <==> k in Wanted(services, ip) || (Has(reg, k) && k !in prev))
  {
    var r1 := RegisterAll(reg, services, ip, {});
    if ip != NoId {
      RegisterComplete(reg, services, ip, {});
      RegisterTidy(reg, services, ip, {});
      RegisterKeys(reg, services, ip, {}, k);
    }
    RetractKeys(r1.reg, prev, r1.applied, k);
    RetractTidy(r1.reg, prev, r1.applied, {});
  }

  /** Whatever fails, backends that are neither listed nor wanted stay as they are, in
      their order, with their weights. */
  lemma {:induction false} OthersUntouched(reg: Registry, services: seq<Service>, prev: seq<Membership>, ip: Id,
                                           down: set<Id>, stuck: set<Id>, n: Id, own: set<Membership>)
    requires n in reg
    requires forall k :: k in prev ==> k in own
    requires forall s :: s in services ==> MembershipFor(s, ip) in own
    ensures Others(Reconcile(reg, services, prev, ip, down, stuck).reg[n], n, own) == Others(reg[n], n, own)
  {
    var r1 := RegisterAll(reg, services, ip, down);
    if ip != NoId { RegisterOthers(reg, services, ip, down, n, own); }
    RetractOthers(r1.reg, prev, r1.applied, stuck, n, own);
  }

  /** deregisterServiceFabric leaves none of the listed memberships. */
  lemma {:induction false} DeregisterKeys(reg: Registry, prev: seq<Membership>, k: Membership)
    requires Tidy(reg) && AllAddressable(prev)
    ensures var r := RetractEach(reg, prev, [], {});
            r.ok && Tidy(r.reg) && (Has(r.reg, k) <==> Has(reg, k) && k !in prev)
  {
    RetractKeys(reg, prev, [], k);
    RetractTidy(reg, prev, [], {});
  }

  // ---------------------------------------------------------------------- runs

  /** `stored` is status.appliedServiceFabricMemberships. */
  datatype State = State(reg: Registry, stored: seq<Membership>)

  datatype Act =
    | Running(services: seq<Service>, ip: Id)
    | Gone
    | Elsewhere(name: Id, backends: seq<Backend>)

  /** A tick of a running Machine, a stop, halt or delete, or somebody else's change. */
  function Step(s: State, a: Act): (r: State) {
    match a
    case Running(services, ip) =>
      var r := Reconcile(s.reg, services, s.stored, ip, {}, {});
      State(r.reg, if r.ok then MergePatchList(s.stored, r.applied) else s.stored)
    case Gone =>
      var r := RetractEach(s.reg, s.stored, [], {});
      State(r.reg, MergePatchList(s.stored, []))
    case Elsewhere(name, backends) => s.(reg := s.reg[name := backends])
  }

  function Run(s: State, acts: seq<Act>): (r: State)
    decreases |acts|
  {
    if acts == [] then s else Run(Step(s, acts[0]), acts[1..])
  }

  /** Nobody else registers or removes a backend that only this Machine uses. */
  predicate Proper(s: State, a: Act, mine: set<Membership>) {
    match a
    case Running(services, ip) =>
      TickSound(s.reg, services, ip) && forall k :: k in Wanted(services, ip) ==> k in mine && Addressable(k)
    case Gone => true
    case Elsewhere(name, backends) =>
      && UniqueKeys(backends)
      && forall k :: k in mine && k.name == name ==> (Has(s.reg, k) <==> HasKey(backends, k.guestIP, k.port))
  }

  predicate ProperRun(s: State, acts: seq<Act>, mine: set<Membership>)
    decreases |acts|
  {
    acts == [] || (Proper(s, acts[0], mine) && ProperRun(Step(s, acts[0]), acts[1..], mine))
  }

  /** Everything of this Machine's that is registered is listed in its status. */
  predicate Inv(s: State, mine: set<Membership>) {
    && Tidy(s.reg) && AllAddressable(s.stored)
    && (forall k :: k in s.stored ==> k in mine)
    && (forall k :: k in mine && Has(s.reg, k) ==> k in s.stored)
  }

  predicate OwnIs(reg: Registry, mine: set<Membership>, ks: seq<Membership>) {
    forall k :: k in mine ==> (Has(reg, k) <==> k in ks)
  }

  lemma {:induction false} RunningOwn(s: State, services: seq<Service>, ip: Id, mine: set<Membership>)
    requires Inv(s, mine) && Proper(s, Running(services, ip), mine)
    ensures var r := Step(s, Running(services, ip));
            && Inv(r, mine)
            && OwnIs(r.reg, mine, Wanted(services, ip))
            && r.stored == MergePatchList(s.stored, Wanted(services, ip))
  {
    var r := Step(s, Running(services, ip));
    TickKeys(s.reg, services, s.stored, ip, Membership(NoId, 0, NoId));
    forall k | k in mine ensures Has(r.reg, k) <==> k in Wanted(services, ip) {
      TickKeys(s.reg, services, s.stored, ip, k);
    }
  }

  lemma {:induction false} GoneOwn(s: State, mine: set<Membership>)
    requires Inv(s, mine)
    ensures var r := Step(s, Gone); Inv(r, mine) && OwnIs(r.reg, mine, []) && r.stored == s.stored
  {
    var r := Step(s, Gone);
    DeregisterKeys(s.reg, s.stored, Membership(NoId, 0, NoId));
    forall k | k in mine ensures !Has(r.reg, k) {
      DeregisterKeys(s.reg, s.stored, k);
    }
  }

  lemma {:induction false} StepKeeps(s: State, a: Act, mine: set<Membership>)
    requires Inv(s, mine) && Proper(s, a, mine)
    ensures Inv(Step(s, a), mine)
  {
    match a
    case Running(services, ip) => RunningOwn(s, services, ip, mine);
    case Gone => GoneOwn(s, mine);
    case Elsewhere(name, backends) =>
      forall k | k in mine && Has(Step(s, a).reg, k) ensures k in s.stored {
        assert Has(s.reg, k);
      }
  }

  lemma {:induction false} RunKeeps(s: State, acts: seq<Act>, mine: set<Membership>)
    requires Inv(s, mine) && ProperRun(s, acts, mine)
    ensures Inv(Run(s, acts), mine)
    decreases |acts|
  {
    if acts != [] {
      StepKeeps(s, acts[0], mine);
      RunKeeps(Step(s, acts[0]), acts[1..], mine);
    }
  }

  // ------------------------------------------------------------------ theorems

  /** After any failure-free history, a running tick leaves exactly the spec's services at
      the current guest address registered for the Machine; and its status lists exactly
      that unless the spec asks for nothing while something was listed before. */
  lemma {:induction false} MembershipWhileRunning(s: State, acts: seq<Act>, services: seq<Service>, ip: Id,
                                                  mine: set<Membership>)
    requires Inv(s, mine) && ProperRun(s, acts, mine)
    requires Proper(Run(s, acts), Running(services, ip), mine)
    ensures var before, after := Run(s, acts), Step(Run(s, acts), Running(services, ip));
            && OwnIs(after.reg, mine, Wanted(services, ip))
            && (OwnIs(after.reg, mine, after.stored) <==> Wanted(services, ip) != [] || before.stored == [])
  {
    RunKeeps(s, acts, mine);
    var before := Run(s, acts);
    RunningOwn(before, services, ip, mine);
    if Wanted(services, ip) == [] && before.stored != [] {
      assert before.stored[0] in before.stored;
      assert before.stored[0] in mine;
    }
  }

  /** After any failure-free history, a stopped, halted or deleted Machine has no backend
      left; its status still lists them unless it listed none. */
  lemma {:induction false} MembershipAfterStop(s: State, acts: seq<Act>, mine: set<Membership>)
    requires Inv(s, mine) && ProperRun(s, acts, mine)
    ensures var before, after := Run(s, acts), Step(Run(s, acts), Gone);
            && OwnIs(after.reg, mine, [])
            && (OwnIs(after.reg, mine, after.stored) <==> before.stored == [])
  {
    RunKeeps(s, acts, mine);
    var before := Run(s, acts);
    GoneOwn(before, mine);
    if before.stored != [] {
      assert before.stored[0] in before.stored;
      assert before.stored[0] in mine;
    }
  }

  /** A backend that another Machine put at an address this status still lists is removed
      by this Machine's next stop, and by its next good tick unless that wants it. */
  lemma {:induction false} ListedAddressReused(reg: Registry, stored: seq<Membership>, k: Membership,
                                               services: seq<Service>, ip: Id)
    requires Tidy(reg) && AllAddressable(stored) && Has(reg, k)
    ensures Has(Step(State(reg, stored), Gone).reg, k) <==> k !in stored
    ensures TickSound(reg, services, ip) ==>
              (Has(Step(State(reg, stored), Running(services, ip)).reg, k)
               <==> k !in stored || k in Wanted(services, ip))
  {
    DeregisterKeys(reg, stored, k);
    if TickSound(reg, services, ip) { TickKeys(reg, services, stored, ip, k); }
  }

  // ------------------------------------------------------------ partial failure

  /** Taking back only removes, whatever fails, and only what is listed. */
  lemma {:induction false} RetractOnlyRemoves(reg: Registry, prev: seq<Membership>, keep: seq<Membership>,
                                              down: set<Id>,
                                              k: Membership)
    requires Tidy(reg)
    ensures var r := RetractEach(reg, prev, keep, down).reg;
            (Has(r, k) ==> Has(reg, k)) && (Has(reg, k) && k !in prev ==> Has(r, k))
    decreases |prev|
  {
    if prev != [] {
      var front, last := prev[..|prev| - 1], prev[|prev| - 1];
      var r := RetractEach(reg, front, keep, down);
      RetractOnlyRemoves(reg, front, keep, down, k);
      RetractTidy(reg, front, keep, down);
      assert prev == front + [last];
      if last.name in r.reg { RemoveKeys(r.reg[last.name], last.guestIP, last.port, k.guestIP, k.port); }
    }
  }

  /** A tick that fails, registering or pruning, returns the list it was given; of the
      backends not listed, what is registered then is what was, and what it did register. */
  lemma {:induction false} FailedTick(reg: Registry, services: seq<Service>, prev: seq<Membership>, ip: Id,
                                      down: set<Id>, stuck: set<Id>, k: Membership)
    requires Tidy(reg) && !Reconcile(reg, services, prev, ip, down, stuck).ok
    ensures var failed := Reconcile(reg, services, prev, ip, down, stuck);
            && failed.applied == prev && Tidy(failed.reg)
            && (k !in prev ==> (Has(failed.reg, k)
                                <==> Has(reg, k) || k in RegisterAll(reg, services, ip, down).applied))
  {
    var r1 := RegisterAll(reg, services, ip, down);
    if ip != NoId {
      RegisterTidy(reg, services, ip, down);
      RegisterKeys(reg, services, ip, down, k);
    }
    RetractTidy(r1.reg, prev, r1.applied, stuck);
    RetractOnlyRemoves(r1.reg, prev, r1.applied, stuck, k);
  }

  /** A tick that fails, registering or pruning, keeps the old list although it has
      registered `done`. The next good tick leaves exactly the wanted backends if and only
      if each of those was listed before or is wanted again. */
  lemma {:induction false} RecoversFromPartialFailure(reg: Registry, services: seq<Service>, prev: seq<Membership>,
                                                      ip: Id, down: set<Id>, stuck: set<Id>,
                                                      later: seq<Service>, laterIP: Id, mine: set<Membership>)
    requires Inv(State(reg, prev), mine) && !Reconcile(reg, services, prev, ip, down, stuck).ok
    requires ip != NoId ==> forall s :: s in services ==> MembershipFor(s, ip) in mine
    requires Proper(State(Reconcile(reg, services, prev, ip, down, stuck).reg, prev), Running(later, laterIP), mine)
    ensures var failed := Reconcile(reg, services, prev, ip, down, stuck);
            var done := RegisterAll(reg, services, ip, down).applied;
            && failed.applied == prev
            && (OwnIs(Step(State(failed.reg, prev), Running(later, laterIP)).reg, mine, Wanted(later, laterIP))
                <==> forall k :: k in done ==> k in prev || k in Wanted(later, laterIP))
  {
    var failed := Reconcile(reg, services, prev, ip, down, stuck);
    var done := RegisterAll(reg, services, ip, down).applied;
    FailedTick(reg, services, prev, ip, down, stuck, Membership(NoId, 0, NoId));
    var final := Step(State(failed.reg, prev), Running(later, laterIP)).reg;
    forall k | k in mine
      ensures Has(final, k) <==> k in Wanted(later, laterIP) || (k in done && k !in prev)
    {
      FailedTick(reg, services, prev, ip, down, stuck, k);
      TickKeys(failed.reg, later, prev, laterIP, k);
    }
    forall k | k in done ensures k in mine {
      if ip != NoId { DoneIsMine(reg, services, ip, down, k, mine); }
    }
  }

  lemma {:induction false} DoneIsMine(reg: Registry, services: seq<Service>, ip: Id, down: set<Id>,
                                      k: Membership, mine: set<Membership>)
    requires k in RegisterEach(reg, services, ip, down).applied
    requires forall s :: s in services ==> MembershipFor(s, ip) in mine
    ensures k in mine
  {
    var s := services[|services| - 1];
    if k in RegisterEach(reg, services[..|services| - 1], ip, down).applied {
      DoneIsMine(reg, services[..|services| - 1], ip, down, k, mine);
    }
  }

  const Web := Service(1, 80, 1)
  const Api := Service(2, 81, 1)

  /** A Machine whose spec asks for nothing any more, and whose list was never cleared, takes
      away the backend of the Machine that has its old address now. */
  lemma {:induction false} AddressReusedTaken()
    ensures var reg: Registry := map[1 := [Backend(7, 80, 1, true, true)]];
            Has(reg, MembershipFor(Web, 7))
            && !Has(Step(State(reg, [MembershipFor(Web, 7)]), Running([], 8)).reg, MembershipFor(Web, 7))
  {
    var reg: Registry := map[1 := [Backend(7, 80, 1, true, true)]];
    assert At(reg[1][0], 7, 80);
    ListedAddressReused(reg, [MembershipFor(Web, 7)], MembershipFor(Web, 7), [], 8);
  }

  /** Registered at one address, then the second service fails, then the guest moves: the
      first backend stays behind at the old address. */
  lemma {:induction false} PartialFailureLeaks()
    ensures var reg: Registry := map[1 := [], 2 := []];
            var failed := Reconcile(reg, [Web, Api], [], 7, {2}, {2});
            var later := Reconcile(failed.reg, [Web, Api], failed.applied, 8, {}, {});
            !failed.ok && later.ok && Has(later.reg, MembershipFor(Web, 7))
  {
    var reg: Registry := map[1 := [], 2 := []];
    assert [Web, Api][..1] == [Web] && [Web][..0] == [];
    var failed := Reconcile(reg, [Web, Api], [], 7, {2}, {2});
    assert RegisterEach(reg, [Web], 7, {2}).reg == map[1 := [BackendFor(Web, 7)], 2 := []];
    assert failed.reg[1] == [BackendFor(Web, 7)];
    assert Has(failed.reg, MembershipFor(Web, 7)) by { assert At(failed.reg[1][0], 7, 80); }
    RegisterTidy(reg, [Web, Api], 7, {2});
    TickKeys(failed.reg, [Web, Api], [], 8, MembershipFor(Web, 7));
  }

  /** Registered in full, then the withdrawal of a port of that very service fails, then the
      guest moves: the registered backend stays behind at the old address. */
  lemma {:induction false} PruneFailureLeaks()
    ensures var reg: Registry := map[1 := [Backend(7, 81, 1, true, true)]];
            var failed := Reconcile(reg, [Web], [Membership(1, 81, 7)], 7, {}, {1});
            var later := Reconcile(failed.reg, [Web], failed.applied, 8, {}, {});
            && AllSound(reg, [Web], {}) && !failed.ok
            && later.ok && Has(later.reg, MembershipFor(Web, 7))
  {
    var reg: Registry := map[1 := [Backend(7, 81, 1, true, true)]];
    var prev := [Membership(1, 81, 7)];
    assert [Web][..0] == [] && prev[..0] == [];
    var r1 := RegisterEach(reg, [Web], 7, {});
    RegisterComplete(reg, [Web], 7, {});
    assert r1.ok && r1.applied == [MembershipFor(Web, 7)];
    assert !RetractEach(r1.reg, prev, r1.applied, {1}).ok;
    FailedTick(reg, [Web], prev, 7, {}, {1}, MembershipFor(Web, 7));
    var failed := Reconcile(reg, [Web], prev, 7, {}, {1});
    TickKeys(failed.reg, [Web], prev, 8, MembershipFor(Web, 7));
  }
}
