/**
 Service Fabric membership of one Machine. The registry is FluxVM's and shared with
 other Machines; the Machine's status lists what it registered so that it can take
 it back. Calls that touch a service in `down` fail.
 */
module ServiceFabric {

  type Id = nat
  const NoId: Id := 0

  datatype Backend = Backend(address: Id, port: nat, weight: nat, enabled: bool, ready: bool)

  /** One entry of spec.serviceFabric.services, its name trimmed. */
  datatype Service = Service(name: Id, port: nat, weight: nat)

  datatype Membership = Membership(name: Id, port: nat, guestIP: Id)

  type Registry = map<Id, seq<Backend>>

  datatype Result = Result(reg: Registry, applied: seq<Membership>, ok: bool)

  // --------------------------------------------------------- one service's list

  predicate At(b: Backend, address: Id, port: nat) { b.address == address && b.port == port }

  /** Replaces the first entry with the same address and port, or appends. */
  function Upsert(bs: seq<Backend>, b: Backend): (r: seq<Backend>) {
    if bs == [] then [b]
    else if At(bs[0], b.address, b.port) then [b] + bs[1..]
    else [bs[0]] + Upsert(bs[1..], b)
  }

  /** Drops the first entry with that address and port. */
  function Remove(bs: seq<Backend>, address: Id, port: nat): (r: seq<Backend>) {
    if bs == [] then []
    else if At(bs[0], address, port) then bs[1..]
    else [bs[0]] + Remove(bs[1..], address, port)
  }

  function BackendFor(s: Service, ip: Id): (b: Backend) {
    Backend(ip, s.port, if s.weight == 0 then 1 else s.weight, true, true)
  }

  function MembershipFor(s: Service, ip: Id): (k: Membership) { Membership(s.name, s.port, ip) }

  // -------------------------------------------------------------------- loops

  /** A membership that the agent can register: named, with a port, and answered. */
  predicate Sound(reg: Registry, s: Service, down: set<Id>) {
    s.name != NoId && s.port != 0 && s.name !in down && s.name in reg
  }

  function RegisterEach(reg: Registry, services: seq<Service>, ip: Id, down: set<Id>): (r: Result)
    ensures r.reg.Keys == reg.Keys
  {
    if services == [] then Result(reg, [], true)
    else
      var s := services[|services| - 1];
      var r := RegisterEach(reg, services[..|services| - 1], ip, down);
      if !r.ok then r
      else if !Sound(r.reg, s, down) then r.(ok := false)
      else Result(r.reg[s.name := Upsert(r.reg[s.name], BackendFor(s, ip))], r.applied + [MembershipFor(s, ip)], true)
  }

  function Retract(reg: Registry, k: Membership, down: set<Id>): (r: Result)
    ensures r.reg.Keys == reg.Keys
  {
    if k.name == NoId || k.guestIP == NoId then Result(reg, [], true)
    else if k.name in down then Result(reg, [], false)
    else if k.name !in reg then Result(reg, [], true)
    else Result(reg[k.name := Remove(reg[k.name], k.guestIP, k.port)], [], true)
  }

  /** Takes back every listed membership that is not kept. */
  function RetractEach(reg: Registry, prev: seq<Membership>, keep: seq<Membership>, down: set<Id>): (r: Result)
    ensures r.reg.Keys == reg.Keys
    decreases |prev|
  {
    if prev == [] then Result(reg, [], true)
    else
      var k := prev[|prev| - 1];
      var r := RetractEach(reg, prev[..|prev| - 1], keep, down);
      if !r.ok || k in keep then r else Retract(r.reg, k, down)
  }

  function RegisterAll(reg: Registry, services: seq<Service>, ip: Id, down: set<Id>): (r: Result)
    ensures r.reg.Keys == reg.Keys
  {
    if ip == NoId then Result(reg, [], true) else RegisterEach(reg, services, ip, down)
  }

  /** reconcileServiceFabric: the registry afterwards and the list it returns. Services in
      `down` fail while registering, those in `stuck` while pruning. */
  function Reconcile(reg: Registry, services: seq<Service>, prev: seq<Membership>, ip: Id, down: set<Id>,
                     stuck: set<Id>): (r: Result)
    ensures r.reg.Keys == reg.Keys
  {
    var r1 := RegisterAll(reg, services, ip, down);
    if !r1.ok then r1.(applied := prev)
    else
      var r2 := RetractEach(r1.reg, prev, r1.applied, stuck);
      r2.(applied := if r2.ok then r1.applied else prev)
  }

  // ------------------------------------------------------------ what is there

  predicate HasKey(bs: seq<Backend>, address: Id, port: nat) {
    exists i :: 0 <= i < |bs| && At(bs[i], address, port)
  }

  predicate Has(reg: Registry, k: Membership) {
    k.name in reg && HasKey(reg[k.name], k.guestIP, k.port)
  }

  predicate UniqueKeys(bs: seq<Backend>) {
    forall i, j :: 0 <= i < j < |bs| ==> !At(bs[j], bs[i].address, bs[i].port)
  }

  predicate Tidy(reg: Registry) { forall n :: n in reg ==> UniqueKeys(reg[n]) }

  /** The backends of a service that are not in `own`, in their order. */
  function Others(bs: seq<Backend>, name: Id, own: set<Membership>): (r: seq<Backend>) {
    if bs == [] then []
    else (if Membership(name, bs[0].port, bs[0].address) in own then [] else [bs[0]]) + Others(bs[1..], name, own)
  }
}
