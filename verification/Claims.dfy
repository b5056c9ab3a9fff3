/** One MachineClaim's decision, and the filter that says which warm Machine it may take. */
module Claims {

  import opened Options

  type Id = nat
  const NoId: Id := 0

  datatype Phase = NoPhase | PhaseRunning | PhaseOther
  datatype PoolState = NoState | Warm | Taken | StateOther

  /** A pool member as the controller lists it. `rv` is its resourceVersion, `claim` the
      claim label, `born` its creation time. */
  datatype Machine = Machine(
    ns: Id, name: nat, rv: nat, pool: Id, state: PoolState, claim: Id, hash: nat, phase: Phase,
    deleting: bool, born: int, tenant: Id, hypervisor: Id)

  /** The same member as StepClaim sees it. */
  datatype WarmMachine = WarmMachine(name: nat, tenant: Id, phase: Phase, state: PoolState, hypervisor: Id)

  function ViewOf(m: Machine): (w: WarmMachine) {
    WarmMachine(m.name, m.tenant, m.phase, m.state, m.hypervisor)
  }

  datatype Reclaim = NoReclaim | Delete | Retain | ReclaimOther

  /** `tenant` and `hypervisor` are the claim's constraints; `egressOk` says its egress,
      if any, compiles. `bound`, `boundAt` and `machine` are its status. */
  datatype Claim = Claim(
    ns: Id, name: Id, pool: Id, tenant: Id, hypervisor: Id, egressOk: bool, reclaim: Reclaim, snapshot: bool,
    ttl: int, bound: bool, boundAt: Option<int>, machine: Option<nat>, born: int, deleting: bool, finalizer: bool)

  datatype Decision =
    | Bind(first: nat)
    | Hold(held: Option<nat>)
    | Wait
    | Expire(held: Option<nat>, snapshot: bool, retain: bool)
    | Invalid

  predicate EligibleWarm(c: Claim, m: Machine) {
    && (m.phase == NoPhase || m.phase == PhaseRunning)
    && (m.state == NoState || m.state == Warm)
    && (c.tenant == NoId || m.tenant == NoId || m.tenant == c.tenant)
    && (c.hypervisor == NoId || m.hypervisor == NoId || m.hypervisor == c.hypervisor)
  }

  /** The loop of StepClaim: the first member it does not skip. */
  function FirstFit(c: Claim, warm: seq<WarmMachine>): (d: Decision) {
    if warm == [] then Wait
    else
      var m := warm[0];
      if m.phase != NoPhase && m.phase != PhaseRunning then FirstFit(c, warm[1..])
      else if m.state != NoState && m.state != Warm then FirstFit(c, warm[1..])
      else if c.tenant != NoId && m.tenant != NoId && m.tenant != c.tenant then FirstFit(c, warm[1..])
      else if c.hypervisor != NoId && m.hypervisor != NoId && m.hypervisor != c.hypervisor then FirstFit(c, warm[1..])
      else Bind(m.name)
  }

  predicate WellFormed(c: Claim) {
    c.name != NoId && c.pool != NoId && c.egressOk && c.reclaim != ReclaimOther
  }

  predicate Timed(c: Claim) { c.bound && c.boundAt.Some? && c.ttl > 0 }

  function StepClaim(now: int, c: Claim, warm: seq<WarmMachine>): (d: Decision) {
    if !WellFormed(c) then Invalid
    else if Timed(c) && now >= c.boundAt.value + c.ttl then Expire(c.machine, c.snapshot, c.reclaim == Retain)
    else if c.bound then Hold(c.machine)
    else FirstFit(c, warm)
  }

  function Views(ms: seq<Machine>): (r: seq<WarmMachine>)
    ensures |r| == |ms|
  {
    seq(|ms|, i requires 0 <= i < |ms| => ViewOf(ms[i]))
  }

  predicate IsFirst(c: Claim, ms: seq<Machine>, i: int) {
    0 <= i < |ms| && EligibleWarm(c, ms[i]) && forall j :: 0 <= j < i ==> !EligibleWarm(c, ms[j])
  }

  lemma {:induction false} FirstFitIs(c: Claim, ms: seq<Machine>)
    ensures (FirstFit(c, Views(ms)) == Wait && forall i :: 0 <= i < |ms| ==> !EligibleWarm(c, ms[i]))
         || exists i :: IsFirst(c, ms, i) && FirstFit(c, Views(ms)) == Bind(ms[i].name)
  {
    if ms != [] {
      assert Views(ms)[1..] == Views(ms[1..]);
      assert Views(ms)[0] == ViewOf(ms[0]);
      if EligibleWarm(c, ms[0]) {
        assert IsFirst(c, ms, 0);
      } else {
        FirstFitIs(c, ms[1..]);
        if exists i :: IsFirst(c, ms[1..], i) && FirstFit(c, Views(ms[1..])) == Bind(ms[1..][i].name) {
          var i :| IsFirst(c, ms[1..], i) && FirstFit(c, Views(ms[1..])) == Bind(ms[1..][i].name);
          assert IsFirst(c, ms, i + 1) by {
            forall j | 0 <= j < i + 1 ensures !EligibleWarm(c, ms[j]) {
              if j > 0 { assert ms[j] == ms[1..][j - 1]; }
            }
          }
        } else {
          forall i | 0 <= i < |ms| ensures !EligibleWarm(c, ms[i]) {
            if i > 0 { assert ms[i] == ms[1..][i - 1]; }
          }
        }
      }
    }
  }

  /** A well-formed pending claim binds the first member the controller's own filter
      accepts, and waits exactly when that filter accepts none. */
  lemma StepClaimBindsFirstEligible(now: int, c: Claim, ms: seq<Machine>)
    requires WellFormed(c) && !c.bound
    ensures StepClaim(now, c, Views(ms)) == Wait <==> forall i :: 0 <= i < |ms| ==> !EligibleWarm(c, ms[i])
    ensures forall i :: IsFirst(c, ms, i) ==> StepClaim(now, c, Views(ms)) == Bind(ms[i].name)
  {
    FirstFitIs(c, ms);
    forall i | IsFirst(c, ms, i) ensures StepClaim(now, c, Views(ms)) == Bind(ms[i].name) {
      var k :| IsFirst(c, ms, k) && FirstFit(c, Views(ms)) == Bind(ms[k].name);
      assert k == i by { assert !(k < i) && !(i < k); }
    }
  }
}
