/**
 Several nodes and one stored policy. Every node's agent takes its turn with every policy,
 works on its own guests only, and writes the names it applied to over the one list that
 the policy's status holds.
 */
module NetworkFleet {

  import opened Options
  import opened NetworkPolicy
  import opened NetworkOutcome

  // ------------------------------------------------------- the list all nodes write

  /** One node's turn with the policy as its spec then was; `lands` says that the turn came
      to its end and its status write landed. */
  datatype Visit = Visit(c: Config, p: Policy, ms: seq<Machine>, lands: bool)

  /** status.appliedMachines after the visits. */
  function StoredAfter(list: seq<Id>, visits: seq<Visit>): (r: seq<Id>)
    decreases |visits|
  {
    if visits == [] then list
    else
      var v, before := visits[|visits| - 1], StoredAfter(list, visits[..|visits| - 1]);
      if v.lands then MergePatchList(before, Names(v.c, v.p, v.ms)) else before
  }

  /** The visit replaces the list. */
  predicate Writes(v: Visit) { v.lands && Names(v.c, v.p, v.ms) != [] }

  /** The last visit that replaced the list, if any did, was the node's own. */
  predicate OursLast(visits: seq<Visit>, node: Id)
    decreases |visits|
  {
    visits == [] ||
    var v := visits[|visits| - 1];
    if Writes(v) then v.c.node == node else OursLast(visits[..|visits| - 1], node)
  }

  /** During the visit the guest lives on `node`, and a visit by that node applies the policy
      to it. */
  predicate Attends(v: Visit, node: Id, ns: Id, name: Id) {
    && v.p.ns == ns
    && (v.c.node == node ==> exists i :: 0 <= i < |v.ms| && v.ms[i].name == name && Receives(v.c, v.p, v.ms[i]))
    && (v.c.node != node ==>
          forall i :: 0 <= i < |v.ms| && v.ms[i].ns == ns && v.ms[i].name == name ==> v.ms[i].node != v.c.node)
  }

  lemma {:induction false} NamesHas(c: Config, p: Policy, ms: seq<Machine>, name: Id)
    ensures name in Names(c, p, ms) <==> exists i :: 0 <= i < |ms| && ms[i].name == name && Receives(c, p, ms[i])
  {
    if ms != [] {
      var front, last := ms[..|ms| - 1], ms[|ms| - 1];
      NamesHas(c, p, front, name);
      if name in Names(c, p, front) {
        var i :| 0 <= i < |front| && front[i].name == name && Receives(c, p, front[i]);
        assert ms[i] == front[i];
      }
      if exists i :: 0 <= i < |ms| && ms[i].name == name && Receives(c, p, ms[i]) {
        var i :| 0 <= i < |ms| && ms[i].name == name && Receives(c, p, ms[i]);
        if i < |front| { assert front[i] == ms[i]; }
      }
      assert ms[|ms| - 1] == last;
    }
  }

  /** A guest's name is still in the list if and only if its own node was the last to replace
      it. */
  lemma {:induction false} StillListedIff(list: seq<Id>, visits: seq<Visit>, node: Id, ns: Id, name: Id)
    requires name in list && forall i :: 0 <= i < |visits| ==> Attends(visits[i], node, ns, name)
    ensures name in StoredAfter(list, visits) <==> OursLast(visits, node)
    decreases |visits|
  {
    if visits != [] {
      var v := visits[|visits| - 1];
      StillListedIff(list, visits[..|visits| - 1], node, ns, name);
      NamesHas(v.c, v.p, v.ms, name);
    }
  }

  /** Some other policy of the listing resets the guest. */
  predicate FreedByOther(c: Config, ps: seq<Policy>, k: nat, m: Machine) {
    exists j :: 0 <= j < |ps| && j != k && Frees(c, ps[j], ps, m)
  }

  /** A guest the policy was applied to, that nobody claims any more, is put right by its
      node's next good tick if and only if no other node has replaced the list since, some
      other policy resets it, or default deny or a fence applies; otherwise it keeps the
      rules it had. */
  lemma {:induction false} DroppedResetIff(c: Config, list: seq<Id>, visits: seq<Visit>, later: seq<Policy>,
                                           laterMs: seq<Machine>, flux: Flux, now: Machine, k: nat)
    requires now.name in list && forall i :: 0 <= i < |visits| ==> Attends(visits[i], c.node, now.ns, now.name)
    requires UniquePolicies(later) && k < |later| && !later[k].deleting
    requires later[k].ns == now.ns && later[k].applied == StoredAfter(list, visits)
    requires Here(c, now) && now in laterMs && now.runtime in flux && Owns(c, laterMs, now) && OnlyName(laterMs, now)
    requires !AnyClaims(later, now)
    ensures Tick(c, later, laterMs, NoTrouble, flux)[now.runtime]
         == if now.running && now.wantsFence && now.denies != [] then FenceOf(c, now)
            else if now.running && c.defaultDeny then DenyAll
            else if OursLast(visits, c.node) || FreedByOther(c, later, k, now) then AllowAll
            else flux[now.runtime]
  {
    StillListedIff(list, visits, c.node, now.ns, now.name);
    TickOutcome(c, later, laterMs, flux, now);
    assert !Claims(later[k], now) && !AnotherClaims(later, later[k], now);
    assert Frees(c, later[k], later, now) <==> OursLast(visits, c.node);
    if AnyFrees(c, later, now) {
      var j :| 0 <= j < |later| && Frees(c, later[j], later, now);
      assert j == k || FreedByOther(c, later, k, now);
    }
  }

  const One := Config(1, false, (pol: VmPolicy, denies: seq<nat>) => pol)
  const Two := One.(node := 2)
  const Rules := Policy(1, 1, false, true, NoId, {5}, VmPolicy(false, [8]), [])
  const Web1 := Machine(1, 1, 1, 5, true, 9, false, [])
  const Web2 := Machine(1, 2, 2, 5, true, 10, false, [])

  lemma {:induction false} EachOnItsOwn()
    ensures Names(One, Rules, [Web1, Web2]) == [1] && Names(Two, Rules, [Web1, Web2]) == [2]
  {
    var ms := [Web1, Web2];
    assert ms[..1] == [Web1] && [Web1][..0] == [];
    assert Receives(One, Rules, Web1) && !Receives(One, Rules, Web2);
    assert !Receives(Two, Rules, Web1) && Receives(Two, Rules, Web2);
    assert Names(One, Rules, [Web1]) == [] + [1] == [1];
    assert Names(Two, Rules, [Web1]) == [] + [] == [];
    assert Names(One, Rules, ms) == [1] + [] == [1];
    assert Names(Two, Rules, ms) == [] + [2] == [2];
  }

  /** One policy and a guest on each of two nodes. Node one writes its list, then node two
      its own; then the first guest loses its label. Node one's next tick leaves it with the
      rules, although nobody claims it. */
  lemma {:induction false} OtherNodeForgets()
    ensures var ms := [Web1, Web2];
            var visits := [Visit(One, Rules, ms, true), Visit(Two, Rules, ms, true)];
            var later, now := Rules.(applied := StoredAfter([], visits)), Web1.(labels := 6);
            && !AnyClaims([later], now)
            && Tick(One, [later], [now, Web2], NoTrouble, map[9 := Rules.rules])[9] == Rules.rules != AllowAll
  {
    var ms := [Web1, Web2];
    var first, second := Visit(One, Rules, ms, true), Visit(Two, Rules, ms, true);
    var now := Web1.(labels := 6);
    EachOnItsOwn();
    assert [first, second][..1] == [first] && [first][..0] == [];
    assert StoredAfter([], [first, second]) == [2] == StoredAfter([1], [second]);
    assert [second][..0] == [];
    var later := Rules.(applied := [2]);
    DroppedResetIff(One, [1], [second], [later], [now, Web2], map[9 := Rules.rules], now, 0);
  }

  // ----------------------------------------------------------- a policy that vanishes

  /** What FluxVM holds on each node. */
  type Fleet = map<Id, Flux>

  /** The policy may be in force in this Machine's guest, on whatever node. */
  predicate Bears(w: Fleet, p: Policy, m: Machine) {
    m.ns == p.ns && Selects(p, m) && m.runtime != NoId && m.node in w && m.runtime in w[m.node]
  }

  function Deleted(c: Config, p: Policy, ps: seq<Policy>, ms: seq<Machine>, w: Fleet): (r: Fleet)
    requires c.node in w
  {
    w[c.node := Turn(c, p, ps, ms, NoTrouble, w[c.node]).flux]
  }

  /** The first node to take its turn with a deleting policy drops the finalizer, and with it
      the policy. A guest the policy selects is reset then if and only if it lives on that
      node, or had nothing to reset. */
  lemma {:induction false} DeletionReachesIff(c: Config, p: Policy, ps: seq<Policy>, ms: seq<Machine>, w: Fleet,
                                              m: Machine)
    requires p.deleting && p.finalizer && c.node in w && m in ms && Bears(w, p, m)
    requires m.node == c.node ==> Owns(c, ms, m)
    ensures m.node in Deleted(c, p, ps, ms, w) && m.runtime in Deleted(c, p, ps, ms, w)[m.node]
    ensures Deleted(c, p, ps, ms, w)[m.node][m.runtime] == AllowAll
       <==> m.node == c.node || w[m.node][m.runtime] == AllowAll
  {
    if m.node == c.node { ReleaseEachAt(c, p, ms, w[c.node], m); }
  }

  lemma {:induction false} ReleaseSucceeds(c: Config, p: Policy, ms: seq<Machine>, flux: Flux)
    ensures ReleaseEach(c, p, ms, {}, flux).ok
  {
    if ms != [] { ReleaseSucceeds(c, p, ms[..|ms| - 1], flux); }
  }

  predicate NoneLeft(w: Fleet, p: Policy, ms: seq<Machine>) {
    forall m :: m in ms && Bears(w, p, m) ==> w[m.node][m.runtime] == AllowAll
  }

  /** So a policy that vanishes leaves no guest behind if and only if every guest it selects
      on another node was free of rules already. */
  lemma {:induction false} VanishesCleanIff(c: Config, p: Policy, ps: seq<Policy>, ms: seq<Machine>, w: Fleet)
    requires p.deleting && p.finalizer && c.node in w
    requires forall m :: m in ms && m.node == c.node ==> Owns(c, ms, m)
    ensures Turn(c, p, ps, ms, NoTrouble, w[c.node]).ok
    ensures NoneLeft(Deleted(c, p, ps, ms, w), p, ms)
       <==> forall m :: m in ms && Bears(w, p, m) && m.node != c.node ==> w[m.node][m.runtime] == AllowAll
  {
    var w' := Deleted(c, p, ps, ms, w);
    ReleaseSucceeds(c, p, ms, w[c.node]);
    forall m | m in ms && Bears(w, p, m)
      ensures Bears(w', p, m) && (w'[m.node][m.runtime] == AllowAll
                                  <==> m.node == c.node || w[m.node][m.runtime] == AllowAll)
    {
      DeletionReachesIff(c, p, ps, ms, w, m);
    }
    forall m | Bears(w', p, m) ensures Bears(w, p, m) {}
  }

  /** A later tick on the guest's node, and the Machine as it then is. */
  datatype Round = Round(ps: seq<Policy>, ms: seq<Machine>, now: Machine)

  /** In which nobody claims or resets the guest, and no default applies to it. */
  predicate Unheeded(c: Config, r: Round, rt: Id) {
    && UniquePolicies(r.ps) && r.now in r.ms && r.now.runtime == rt && Here(c, r.now)
    && Owns(c, r.ms, r.now) && OnlyName(r.ms, r.now)
    && (r.now.running ==> !AnyClaims(r.ps, r.now) && !c.defaultDeny && !(r.now.wantsFence && r.now.denies != []))
    && !AnyFrees(c, r.ps, r.now)
  }

  function Rounds(c: Config, rounds: seq<Round>, flux: Flux): (r: Flux)
    ensures r.Keys == flux.Keys
    decreases |rounds|
  {
    if rounds == [] then flux
    else
      var last := rounds[|rounds| - 1];
      Tick(c, last.ps, last.ms, NoTrouble, Rounds(c, rounds[..|rounds| - 1], flux))
  }

  /** And what it left behind stays, for as long as nothing else takes that guest up. */
  lemma {:induction false} LeftBehindStays(c: Config, rounds: seq<Round>, flux: Flux, rt: Id)
    requires rt in flux && forall i :: 0 <= i < |rounds| ==> Unheeded(c, rounds[i], rt)
    ensures Rounds(c, rounds, flux)[rt] == flux[rt]
    decreases |rounds|
  {
    if rounds != [] {
      var front, last := rounds[..|rounds| - 1], rounds[|rounds| - 1];
      LeftBehindStays(c, front, flux, rt);
      assert Unheeded(c, last, rt);
      TickOutcome(c, last.ps, last.ms, Rounds(c, front, flux), last.now);
    }
  }

  /** A policy with a guest on each of two nodes is deleted, and node one comes first: it
      vanishes, and node two's guest keeps its rules. */
  lemma {:induction false} VanishesEarly()
    ensures var gone := Rules.(deleting := true);
            var w: Fleet := map[1 := map[9 := Rules.rules], 2 := map[10 := Rules.rules]];
            var r := Deleted(One, gone, [gone], [Web1, Web2], w);
            && Turn(One, gone, [gone], [Web1, Web2], NoTrouble, w[1]).ok
            && r[1][9] == AllowAll && r[2][10] == Rules.rules
  {
    var gone := Rules.(deleting := true);
    var w: Fleet := map[1 := map[9 := Rules.rules], 2 := map[10 := Rules.rules]];
    ReleaseSucceeds(One, gone, [Web1, Web2], w[1]);
    DeletionReachesIff(One, gone, [gone], [Web1, Web2], w, Web1);
  }
}
