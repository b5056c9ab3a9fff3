/** Service Fabric registration and retraction as the agent runs them against FluxVM. */
module FabricAgents {

  import opened ServiceFabric

  lemma {:induction false} UpsertAt(bs: seq<Backend>, b: Backend, i: nat)
    requires i < |bs| && At(bs[i], b.address, b.port)
    requires forall j :: 0 <= j < i ==> !At(bs[j], b.address, b.port)
    ensures Upsert(bs, b) == bs[i := b]
  {
    if i > 0 { UpsertAt(bs[1..], b, i - 1); }
  }

  lemma {:induction false} UpsertNew(bs: seq<Backend>, b: Backend)
    requires !HasKey(bs, b.address, b.port)
    ensures Upsert(bs, b) == bs + [b]
  {
    if bs != [] {
      assert forall i :: 0 <= i < |bs| - 1 ==> bs[1..][i] == bs[i + 1];
      UpsertNew(bs[1..], b);
    }
  }

  lemma {:induction false} RemoveAt(bs: seq<Backend>, address: Id, port: nat, i: nat)
    requires i < |bs| && At(bs[i], address, port)
    requires forall j :: 0 <= j < i ==> !At(bs[j], address, port)
    ensures Remove(bs, address, port) == bs[..i] + bs[i + 1..]
  {
    if i > 0 {
      RemoveAt(bs[1..], address, port, i - 1);
      assert bs[..i] == [bs[0]] + bs[1..][..i - 1];
    }
  }

  lemma {:induction false} RemoveNone(bs: seq<Backend>, address: Id, port: nat)
    requires !HasKey(bs, address, port)
    ensures Remove(bs, address, port) == bs
  {
    if bs != [] {
      assert forall i :: 0 <= i < |bs| - 1 ==> bs[1..][i] == bs[i + 1];
      RemoveNone(bs[1..], address, port);
    }
  }

  method FindBackend(bs: seq<Backend>, address: Id, port: nat) returns (idx: int)
    ensures -1 <= idx < |bs|
    ensures idx == -1 <==> !HasKey(bs, address, port)
    ensures idx >= 0 ==> At(bs[idx], address, port) && forall j :: 0 <= j < idx ==> !At(bs[j], address, port)
  {
    for i := 0 to |bs|
      invariant forall j :: 0 <= j < i ==> !At(bs[j], address, port)
    {
      if bs[i].address == address && bs[i].port == port { return i; }
    }
    idx := -1;
  }

  class FabricAgent {
    var reg: Registry

    /** One service of the spec: fetch, edit its list of backends, put back. */
    method Register(s: Service, ip: Id, down: set<Id>) returns (ok: bool)
      modifies this
      ensures ok == Sound(old(reg), s, down)
      ensures reg == if ok then old(reg)[s.name := Upsert(old(reg)[s.name], BackendFor(s, ip))] else old(reg)
    {
      if s.name == NoId || s.port == 0 { return false; }
      if s.name in down || s.name !in reg { return false; }
      var backends := reg[s.name];
      var weight := if s.weight == 0 then 1 else s.weight;
      var idx := FindBackend(backends, ip, s.port);
      if idx >= 0 {
        UpsertAt(backends, BackendFor(s, ip), idx);
        backends := backends[idx := backends[idx].(weight := weight, enabled := true, ready := true)];
      } else {
        UpsertNew(backends, BackendFor(s, ip));
        backends := backends + [Backend(ip, s.port, weight, true, true)];
      }
      reg := reg[s.name := backends];
      ok := true;
    }

    method RemoveBackend(name: Id, port: nat, address: Id, down: set<Id>) returns (ok: bool)
      modifies this
      ensures Result(reg, [], ok) == Retract(old(reg), Membership(name, port, address), down)
    {
      if name == NoId || address == NoId { return true; }
      if name in down { return false; }
      if name !in reg { return true; }
      var backends := reg[name];
      var idx := FindBackend(backends, address, port);
      if idx == -1 {
        RemoveNone(backends, address, port);
        assert reg == reg[name := backends];
        return true;
      }
      RemoveAt(backends, address, port, idx);
      reg := reg[name := backends[..idx] + backends[idx + 1..]];
      ok := true;
    }

    method RegisterServices(services: seq<Service>, ip: Id, down: set<Id>) returns (ok: bool, applied: seq<Membership>)
      modifies this
      ensures Result(reg, applied, ok) == RegisterEach(old(reg), services, ip, down)
    {
      ok, applied := true, [];
      for i := 0 to |services|
        invariant ok && Result(reg, applied, ok) == RegisterEach(old(reg), services[..i], ip, down)
      {
        assert services[..i + 1][..|services[..i + 1]| - 1] == services[..i];
        ok := Register(services[i], ip, down);
        if !ok {
          RegisterStopped(services, i + 1, ip, down, old(reg));
          return;
        }
        applied := applied + [MembershipFor(services[i], ip)];
      }
      assert services[..|services|] == services;
    }

    method RetractListed(prev: seq<Membership>, keep: seq<Membership>, down: set<Id>) returns (ok: bool)
      modifies this
      ensures reg == RetractEach(old(reg), prev, keep, down).reg && ok == RetractEach(old(reg), prev, keep, down).ok
    {
      ok := true;
      for i := 0 to |prev|
        invariant ok == RetractEach(old(reg), prev[..i], keep, down).ok && ok
        invariant reg == RetractEach(old(reg), prev[..i], keep, down).reg
      {
        assert prev[..i + 1][..|prev[..i + 1]| - 1] == prev[..i];
        if prev[i] in keep { continue; }
        ok := RemoveBackend(prev[i].name, prev[i].port, prev[i].guestIP, down);
        if !ok {
          RetractStopped(prev, i + 1, keep, down, old(reg));
          return;
        }
      }
      assert prev[..|prev|] == prev;
    }

    /** reconcileServiceFabric; what it leaves registered is TickKeys. */
    method ReconcileServiceFabric(services: seq<Service>, previous: seq<Membership>, ip: Id,
                                  down: set<Id>, stuck: set<Id>)
      returns (ok: bool, result: seq<Membership>)
      modifies this
      ensures Result(reg, result, ok) == Reconcile(old(reg), services, previous, ip, down, stuck)
    {
      var applied: seq<Membership> := [];
      if ip != NoId {
        ok, applied := RegisterServices(services, ip, down);
        if !ok { return false, previous; }
      }
      ok := RetractListed(previous, applied, stuck);
      result := if ok then applied else previous;
    }

    /** deregisterServiceFabric. */
    method Deregister(listed: seq<Membership>, down: set<Id>) returns (ok: bool)
      modifies this
      ensures reg == RetractEach(old(reg), listed, [], down).reg && ok == RetractEach(old(reg), listed, [], down).ok
    {
      ok := RetractListed(listed, [], down);
    }

    lemma {:induction false} RegisterStopped(services: seq<Service>, i: nat, ip: Id, down: set<Id>, f: Registry)
      requires i <= |services| && !RegisterEach(f, services[..i], ip, down).ok
      ensures RegisterEach(f, services, ip, down) == RegisterEach(f, services[..i], ip, down)
      decreases |services| - i
    {
      if i < |services| {
        assert services[..i + 1][..|services[..i + 1]| - 1] == services[..i];
        RegisterStopped(services, i + 1, ip, down, f);
      } else {
        assert services[..i] == services;
      }
    }

    lemma {:induction false} RetractStopped(prev: seq<Membership>, i: nat, keep: seq<Membership>, down: set<Id>,
                                            f: Registry)
      requires i <= |prev| && !RetractEach(f, prev[..i], keep, down).ok
      ensures RetractEach(f, prev, keep, down) == RetractEach(f, prev[..i], keep, down)
      decreases |prev| - i
    {
      if i < |prev| {
        assert prev[..i + 1][..|prev[..i + 1]| - 1] == prev[..i];
        RetractStopped(prev, i + 1, keep, down, f);
      } else {
        assert prev[..i] == prev;
      }
    }
  }
}
