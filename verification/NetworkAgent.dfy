/** The network tick as the agent runs it, loop by loop, against FluxVM. */
module NetworkAgents {

  import opened Options
  import opened NetworkPolicy

  method PolicyClaims(ps: seq<Policy>, m: Machine) returns (found: bool)
    ensures found == AnyClaims(ps, m)
  {
    for i := 0 to |ps|
      invariant forall k :: 0 <= k < i ==> !Claims(ps[k], m)
    {
      if ps[i].ns != m.ns || ps[i].deleting { continue; }
      if Selects(ps[i], m) { return true; }
    }
    found := false;
  }

  method OtherPolicyClaims(ps: seq<Policy>, exclude: Policy, m: Machine) returns (found: bool)
    ensures found == AnotherClaims(ps, exclude, m)
  {
    for i := 0 to |ps|
      invariant forall k :: 0 <= k < i && !SameObject(ps[k], exclude) ==> !Claims(ps[k], m)
    {
      if ps[i].ns == exclude.ns && ps[i].name == exclude.name { continue; }
      if ps[i].ns != m.ns || ps[i].deleting { continue; }
      if Selects(ps[i], m) { return true; }
    }
    found := false;
  }

  class NetworkAgent {
    const c: Config
    var flux: Flux

    constructor (c: Config, flux: Flux)
      ensures this.c == c && this.flux == flux
    {
      this.c := c;
      this.flux := flux;
    }

    method SetVMNetworkPolicy(rt: Id, pol: VmPolicy, down: set<Id>) returns (ok: bool)
      modifies this`flux
      ensures Result(flux, ok) == Push(old(flux), rt, pol, down)
    {
      if rt in down { return false; }
      if rt in flux { flux := flux[rt := pol]; }
      ok := true;
    }

    method ReleaseSelected(p: Policy, ms: seq<Machine>, down: set<Id>) returns (ok: bool)
      modifies this`flux
      ensures Result(flux, ok) == ReleaseEach(c, p, ms, down, old(flux))
    {
      ok := true;
      for i := 0 to |ms|
        invariant ok && Result(flux, ok) == ReleaseEach(c, p, ms[..i], down, old(flux))
      {
        var m := ms[i];
        assert ms[..i + 1][..|ms[..i + 1]| - 1] == ms[..i];
        if m.node != c.node || m.ns != p.ns { continue; }
        if !Selects(p, m) { continue; }
        if m.runtime == NoId { continue; }
        ok := SetVMNetworkPolicy(m.runtime, AllowAll, down);
        if !ok {
          ReleaseStopped(p, ms, i + 1, down, old(flux));
          return;
        }
      }
      assert ms[..|ms|] == ms;
    }

    method PushSelected(p: Policy, ms: seq<Machine>, down: set<Id>) returns (ok: bool, names: seq<Id>)
      modifies this`flux
      ensures Result(flux, ok) == PushEach(c, p, ms, down, old(flux))
      ensures ok ==> names == Names(c, p, ms)
    {
      ok, names := true, [];
      for i := 0 to |ms|
        invariant ok && Result(flux, ok) == PushEach(c, p, ms[..i], down, old(flux))
        invariant names == Names(c, p, ms[..i])
      {
        var m := ms[i];
        assert ms[..i + 1][..|ms[..i + 1]| - 1] == ms[..i];
        if m.node != c.node || m.ns != p.ns { continue; }
        if !Selects(p, m) { continue; }
        if !m.running || m.runtime == NoId { continue; }
        ok := SetVMNetworkPolicy(m.runtime, c.merge(p.rules, m.denies), down);
        if !ok {
          PushStopped(p, ms, i + 1, down, old(flux));
          return;
        }
        names := names + [m.name];
      }
      assert ms[..|ms|] == ms;
    }

    method PruneDropped(p: Policy, ps: seq<Policy>, ms: seq<Machine>, names: seq<Id>, down: set<Id>) returns (ok: bool)
      requires names == Names(c, p, ms)
      modifies this`flux
      ensures Result(flux, ok) == PruneEach(c, p, ps, ms, p.applied, down, old(flux))
    {
      ok := true;
      for i := 0 to |p.applied|
        invariant ok && Result(flux, ok) == PruneEach(c, p, ps, ms, p.applied[..i], down, old(flux))
      {
        var name := p.applied[i];
        assert p.applied[..i + 1][..|p.applied[..i + 1]| - 1] == p.applied[..i];
        if name in names { continue; }
        var target := Find(ms, p.ns, name);
        if target.None? || target.value.node != c.node || target.value.runtime == NoId { continue; }
        var other := OtherPolicyClaims(ps, p, target.value);
        if other { continue; }
        ok := SetVMNetworkPolicy(target.value.runtime, AllowAll, down);
        if !ok {
          PruneStopped(p, ps, ms, i + 1, down, old(flux));
          return;
        }
      }
      assert p.applied[..|p.applied|] == p.applied;
    }

    /** reconcileMachineNetworkPolicy; `applied` is what status records when it succeeds. */
    method ReconcilePolicy(p: Policy, ps: seq<Policy>, ms: seq<Machine>, t: Trouble)
      returns (ok: bool, applied: seq<Id>)
      modifies this`flux
      ensures Result(flux, ok) == Turn(c, p, ps, ms, t, old(flux))
      ensures ok && !p.deleting ==> MergePatchList(p.applied, applied) == Recorded(c, p, ms)
    {
      applied := [];
      if p.deleting {
        ok := true;
        if p.finalizer { ok := ReleaseSelected(p, ms, t.turn(p.ns, p.name)); }
        return;
      }
      if (p.ns, p.name) in t.stuck { return false, []; }
      ok, applied := PushSelected(p, ms, t.turn(p.ns, p.name));
      if !ok { return; }
      ok := PruneDropped(p, ps, ms, applied, t.turn(p.ns, p.name));
    }

    method EnforceDefaultDeny(ps: seq<Policy>, ms: seq<Machine>, t: Trouble)
      modifies this`flux
      ensures flux == DenyPass(c, ps, ms, t.deny, old(flux))
    {
      for i := 0 to |ms|
        invariant flux == DenyPass(c, ps, ms[..i], t.deny, old(flux))
      {
        var m := ms[i];
        assert ms[..i + 1][..|ms[..i + 1]| - 1] == ms[..i];
        if m.node != c.node { continue; }
        if !m.running || m.runtime == NoId { continue; }
        var claimed := PolicyClaims(ps, m);
        if claimed { continue; }
        var ok := SetVMNetworkPolicy(m.runtime, DenyAll, t.deny);
      }
      assert ms[..|ms|] == ms;
    }

    method EnforceTenantFence(ps: seq<Policy>, ms: seq<Machine>, t: Trouble)
      modifies this`flux
      ensures flux == FencePass(c, ps, ms, t.fence, old(flux))
    {
      for i := 0 to |ms|
        invariant flux == FencePass(c, ps, ms[..i], t.fence, old(flux))
      {
        var m := ms[i];
        assert ms[..i + 1][..|ms[..i + 1]| - 1] == ms[..i];
        if m.node != c.node || !m.wantsFence { continue; }
        if !m.running || m.runtime == NoId { continue; }
        var claimed := PolicyClaims(ps, m);
        if claimed { continue; }
        if |m.denies| == 0 { continue; }
        var ok := SetVMNetworkPolicy(m.runtime, c.merge(VmPolicy(!c.defaultDeny, []), m.denies), t.fence);
      }
      assert ms[..|ms|] == ms;
    }

    /** The tick; what each guest ends with is TickOutcome. */
    method ReconcileNetworkResources(ps: seq<Policy>, ms: seq<Machine>, t: Trouble)
      modifies this`flux
      ensures flux == Tick(c, ps, ms, t, old(flux))
    {
      for i := 0 to |ps|
        invariant flux == Turns(c, ps[..i], ps, ms, t, old(flux))
      {
        assert ps[..i + 1][..|ps[..i + 1]| - 1] == ps[..i];
        var ok, applied := ReconcilePolicy(ps[i], ps, ms, t);
      }
      assert ps[..|ps|] == ps;
      if c.defaultDeny { EnforceDefaultDeny(ps, ms, t); }
      EnforceTenantFence(ps, ms, t);
    }

    // A loop that met a refusal has reached its result: nothing after it changes it.

    lemma {:induction false} ReleaseStopped(p: Policy, ms: seq<Machine>, i: nat, down: set<Id>, f: Flux)
      requires i <= |ms| && !ReleaseEach(c, p, ms[..i], down, f).ok
      ensures ReleaseEach(c, p, ms, down, f) == ReleaseEach(c, p, ms[..i], down, f)
      decreases |ms| - i
    {
      if i < |ms| {
        assert ms[..i + 1][..|ms[..i + 1]| - 1] == ms[..i];
        ReleaseStopped(p, ms, i + 1, down, f);
      } else {
        assert ms[..i] == ms;
      }
    }

    lemma {:induction false} PushStopped(p: Policy, ms: seq<Machine>, i: nat, down: set<Id>, f: Flux)
      requires i <= |ms| && !PushEach(c, p, ms[..i], down, f).ok
      ensures PushEach(c, p, ms, down, f) == PushEach(c, p, ms[..i], down, f)
      decreases |ms| - i
    {
      if i < |ms| {
        assert ms[..i + 1][..|ms[..i + 1]| - 1] == ms[..i];
        PushStopped(p, ms, i + 1, down, f);
      } else {
        assert ms[..i] == ms;
      }
    }

    lemma {:induction false} PruneStopped(p: Policy, ps: seq<Policy>, ms: seq<Machine>, i: nat, down: set<Id>, f: Flux)
      requires i <= |p.applied| && !PruneEach(c, p, ps, ms, p.applied[..i], down, f).ok
      ensures PruneEach(c, p, ps, ms, p.applied, down, f) == PruneEach(c, p, ps, ms, p.applied[..i], down, f)
      decreases |p.applied| - i
    {
      if i < |p.applied| {
        assert p.applied[..i + 1][..|p.applied[..i + 1]| - 1] == p.applied[..i];
        PruneStopped(p, ps, ms, i + 1, down, f);
      } else {
        assert p.applied[..i] == p.applied;
      }
    }
  }
}
