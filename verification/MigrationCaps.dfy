/**
 Migration concurrency caps. Many migrations share one cluster; a controller tick
 lists them once, counts the active ones and then handles the listed copies one by
 one, while node agents and operators keep changing the stored ones.
 */
module MigrationCaps {

  import opened Migration

  // ------------------------------------------------------------------ objects

  /** A stored MachineMigration. `matches[k]` says that policy k selects its Machine;
      `source` and `target` are the recorded nodes. */
  datatype Slot = Slot(phase: Phase, source: Node, target: Node, matches: seq<bool>, deleted: bool)

  /** The three kinds of cap: cluster-wide, per node, per MigrationPolicy. */
  datatype Scope = Cluster | On(n: Node) | Under(k: nat)

  /** A cap that is not positive is no cap. */
  datatype Caps = Caps(cluster: int, perNode: int, policy: seq<int>)

  function Cap(caps: Caps, sc: Scope): (c: int) {
    match sc
    case Cluster => caps.cluster
    case On(n) => caps.perNode
    case Under(k) => if k < |caps.policy| then caps.policy[k] else 0
  }

  /** An active migration that occupies a place in the scope. */
  predicate Occupies(x: Slot, sc: Scope) {
    && !x.deleted
    && Active(x.phase)
    && match sc
       case Cluster => true
       case On(n) => n != NoNode && (n == x.source || n == x.target)
       case Under(k) => k < |x.matches| && x.matches[k]
  }

  /** How many stored migrations occupy the scope. */
  function Recount(xs: seq<Slot>, sc: Scope): (r: nat) {
    if xs == [] then 0
    else Recount(xs[..|xs| - 1], sc) + if Occupies(xs[|xs| - 1], sc) then 1 else 0
  }

  // ------------------------------------------------------- the tick's counters

  datatype Load = Load(byNode: map<Node, nat>, total: nat, active: seq<nat>)

  function At(byNode: map<Node, nat>, n: Node): (r: nat) {
    if n in byNode then byNode[n] else 0
  }

  function Counted(load: Load, sc: Scope): (r: nat) {
    match sc
    case Cluster => load.total
    case On(n) => if n == NoNode then 0 else At(load.byNode, n)
    case Under(k) => if k < |load.active| then load.active[k] else 0
  }

  function Bump(byNode: map<Node, nat>, n: Node): (r: map<Node, nat>) {
    if n == NoNode then byNode else byNode[n := At(byNode, n) + 1]
  }

  function BumpRoute(byNode: map<Node, nat>, source: Node, target: Node): (r: map<Node, nat>) {
    if target == source then Bump(byNode, source) else Bump(Bump(byNode, source), target)
  }

  function Spend(active: seq<nat>, matches: seq<bool>): (r: seq<nat>) {
    seq(|active|, k requires 0 <= k < |active| =>
      active[k] + if k < |matches| && matches[k] then 1 else 0)
  }

  /** Every policy that selects the Machine has a place left. */
  predicate PolicyRoom(active: seq<nat>, maxima: seq<int>, matches: seq<bool>) {
    forall k :: 0 <= k < |active| && k < |maxima| && k < |matches| && matches[k] && maxima[k] > 0
      ==> active[k] < maxima[k]
  }

  predicate Room(load: Load, caps: Caps, sc: Scope) {
    Cap(caps, sc) <= 0 || Counted(load, sc) < Cap(caps, sc)
  }

  // ------------------------------------------------------- handling one listed

  datatype HandleEnv = HandleEnv(
    machineFound: bool, node: Node, wanted: Wanted, liveEligible: bool, choice: Node,
    live: bool, stopped: bool, arrived: bool,
    machineLands: bool, statusLands: bool, failedLands: bool)

  datatype Verdict =
    | Quiet
    | Erred
    | Refused
    | Moved(to: Phase)
    | Admitted(first: Phase, source: Node, target: Node)

  /** The places an admission has to find free, in the order they are looked at. */
  function Admission(load: Load, caps: Caps, matches: seq<bool>, e: HandleEnv): (v: Verdict) {
    if e.node == NoNode || !Room(load, caps, Cluster) || !Room(load, caps, On(e.node)) then Refused
    else if !PolicyRoom(load.active, caps.policy, matches) then Refused
    else
      var strategy := EffectiveStrategy(e.wanted, e.liveEligible);
      var target := MigrationTarget(e.node, e.choice);
      if strategy == NoStrategy || target == NoNode || !Room(load, caps, On(target)) then Refused
      else Admitted(if strategy == Live then Starting else Stopping, e.node, target)
  }

  function Decide(load: Load, caps: Caps, x: Slot, e: HandleEnv): (v: Verdict) {
    if x.deleted || Settled(x.phase) then Quiet
    else if !e.machineFound then Erred
    else match x.phase
      case Unset => Admission(load, caps, x.matches, e)
      case Pending => Admission(load, caps, x.matches, e)
      case Starting => Quiet
      case Running => Quiet
      case Cutover => if !e.live || !e.machineLands then Erred else Moved(Adopting)
      case Adopting => if !e.arrived then Quiet else if !e.machineLands then Erred else Moved(Succeeded)
      case Stopping => if !e.stopped then Quiet else if !e.machineLands then Erred else Moved(Restarting)
      case Restarting => if e.arrived then Moved(Succeeded) else Quiet
      case _ => Erred
  }

  /** The policies are spent as soon as they agree, whatever is refused after that. */
  predicate Spends(load: Load, caps: Caps, x: Slot, e: HandleEnv) {
    && !x.deleted && e.machineFound && (x.phase.Unset? || x.phase.Pending?)
    && e.node != NoNode && Room(load, caps, Cluster) && Room(load, caps, On(e.node))
    && PolicyRoom(load.active, caps.policy, x.matches)
  }

  function Charge(load: Load, caps: Caps, x: Slot, e: HandleEnv): (r: Load) {
    var active := if Spends(load, caps, x, e) then Spend(load.active, x.matches) else load.active;
    match Decide(load, caps, x, e)
    case Admitted(_, source, target) => Load(BumpRoute(load.byNode, source, target), load.total + 1, active)
    case _ => load.(active := active)
  }

  function PatchFailed(stored: Slot, x: Slot, e: HandleEnv): (r: Slot) {
    if e.failedLands && !stored.deleted then x.(phase := Failed) else stored
  }

  /** A status write made from the listed copy. */
  function Patch(stored: Slot, x: Slot, to: Slot, e: HandleEnv): (r: Slot) {
    if e.statusLands && !stored.deleted then to else PatchFailed(stored, x, e)
  }

  function Written(stored: Slot, x: Slot, v: Verdict, e: HandleEnv): (r: Slot) {
    match v
    case Quiet => stored
    case Erred => PatchFailed(stored, x, e)
    case Refused => Patch(stored, x, x.(phase := Blocked), e)
    case Moved(to) => Patch(stored, x, x.(phase := to), e)
    case Admitted(first, source, target) =>
      if first == Stopping && !e.machineLands then PatchFailed(stored, x, e)
      else Patch(stored, x, x.(phase := first, source := source, target := target), e)
  }

  // -------------------------------------------------------------------- runs

  datatype Tick = NoTick | Tick(listing: seq<Slot>, next: nat, load: Load)

  datatype Sys = Sys(stored: seq<Slot>, tick: Tick)

  datatype Act =
    | BeginTick
    | HandleNext(e: HandleEnv)
    | EndTick
    | AgentWrites(i: nat, after: Slot)
    | CreateMigration(matches: seq<bool>)
    | DeleteMigration(i: nat)

  /** Phases a node agent may leave; all of them hold a place. */
  predicate AgentOwned(p: Phase) {
    p.Starting? || p.Running? || p.NeedsRecovery?
  }

  predicate AgentMove(x: Slot, y: Slot) {
    && y.source == x.source && y.target == x.target
    && y.matches == x.matches && y.deleted == x.deleted
    && (y.phase == x.phase || AgentOwned(x.phase))
  }

  /** newMigrationLoad and LoadMigrationPolicyStates over one listing. */
  function CountListing(xs: seq<Slot>, policies: nat): (r: Load)
    ensures |r.active| == policies
  {
    if xs == [] then Load(map[], 0, seq(policies, _ => 0))
    else
      var l := CountListing(xs[..|xs| - 1], policies);
      var x := xs[|xs| - 1];
      if x.deleted || !Active(x.phase) then l
      else Load(BumpRoute(l.byNode, x.source, x.target), l.total + 1, Spend(l.active, x.matches))
  }

  function Handle(s: Sys, caps: Caps, e: HandleEnv): (r: Sys)
    requires s.tick.Tick? && s.tick.next < |s.tick.listing| <= |s.stored|
  {
    var i := s.tick.next;
    var x := s.tick.listing[i];
    var v := Decide(s.tick.load, caps, x, e);
    Sys(s.stored[i := Written(s.stored[i], x, v, e)],
        s.tick.(next := i + 1, load := Charge(s.tick.load, caps, x, e)))
  }

  function Step(s: Sys, caps: Caps, a: Act): (r: Sys) {
    match a
    case BeginTick => s.(tick := Tick(s.stored, 0, CountListing(s.stored, |caps.policy|)))
    case HandleNext(e) =>
      if s.tick.Tick? && s.tick.next < |s.tick.listing| <= |s.stored| then Handle(s, caps, e) else s
    case EndTick => s.(tick := NoTick)
    case AgentWrites(i, after) =>
      if i < |s.stored| && !s.stored[i].deleted && AgentMove(s.stored[i], after)
      then s.(stored := s.stored[i := after]) else s
    case CreateMigration(matches) => s.(stored := s.stored + [Slot(Unset, NoNode, NoNode, matches, false)])
    case DeleteMigration(i) =>
      if i < |s.stored| then s.(stored := s.stored[i := s.stored[i].(deleted := true)]) else s
  }

  function Run(s: Sys, caps: Caps, acts: seq<Act>): (r: Sys)
    decreases |acts|
  {
    if acts == [] then s else Run(Step(s, caps, acts[0]), caps, acts[1..])
  }
}
