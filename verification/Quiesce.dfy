/**
 The freeze/thaw protocol around MachineSnapshots of one Machine. The controller asks
 through a request annotation, the node agent answers through a status annotation, and
 a finalizer keeps a snapshot that may be holding the guest frozen. A reconcile of one
 object is one step, and so is the agent's FluxVM call with its annotation patch.
 */
module Quiesce {

  type Id = nat
  const NoId: Id := 0

  datatype Phase = Unset | Freezing | Thawing | Pending | Succeeded | Failed

  datatype Snap = Snap(phase: Phase, deleting: bool, finalizer: bool)

  /** Set by an event that breaks the rule it names, and never cleared. */
  datatype Ledger = Ledger(tookUnfrozen: bool, leftThawingFrozen: bool, droppedHeld: bool)

  /** `request` and `status` are the snapshots the two annotations name; `agentOn` is
      spec.guestAgent.enabled; `active` is false while the Machine is paused, when its node's
      reconcile does not come to the quiesce step. */
  datatype State = State(
    agentOn: bool, active: bool, gone: bool, request: Id, status: Id, frozen: bool,
    snaps: map<Id, Snap>, ledger: Ledger)

  // -------------------------------------------------------------- the volumes

  /** How one volume's turn goes. Only the last two come from Atlas. */
  datatype Volume =
    | Unusable
    | LookupFailed
    | CreateFailed
    | Existing(errored: bool, ready: bool)
    | Fresh(errored: bool, ready: bool)
    | AtlasStep(made: bool, ready: bool)
    | AtlasError(made: bool)

  datatype Taking = Taking(stopped: bool, viaAtlas: bool, created: bool, allReady: bool, refs: seq<bool>)

  /** One volume added to what the earlier ones came to. */
  function TakeOne(t: Taking, v: Volume): (r: Taking) {
    if t.stopped then t
    else match v
      case Unusable => t.(stopped := true)
      case LookupFailed => t.(stopped := true)
      case CreateFailed => t.(stopped := true)
      case Existing(errored, ready) => Note(t, errored, ready)
      case Fresh(errored, ready) => Note(t.(created := true), errored, ready)
      case AtlasStep(made, ready) => Note(t.(created := t.created || made), false, ready)
      case AtlasError(made) => t.(stopped := true, viaAtlas := true, created := t.created || made)
  }

  function Note(t: Taking, errored: bool, ready: bool): (r: Taking) {
    if errored then t.(stopped := true)
    else t.(allReady := t.allReady && ready, refs := t.refs + [ready])
  }

  function Take(vs: seq<Volume>): (r: Taking) {
    if vs == [] then Taking(false, false, false, true, [])
    else TakeOne(Take(vs[..|vs| - 1]), vs[|vs| - 1])
  }

  predicate Halts(v: Volume) {
    v.Unusable? || v.LookupFailed? || v.CreateFailed? || v.AtlasError?
    || ((v.Existing? || v.Fresh?) && v.errored)
  }

  predicate Makes(v: Volume) {
    v.Fresh? || ((v.AtlasStep? || v.AtlasError?) && v.made)
  }

  predicate IsReady(v: Volume) { (v.Existing? || v.Fresh? || v.AtlasStep?) && v.ready }

  predicate NoneHalts(vs: seq<Volume>) { forall k :: 0 <= k < |vs| ==> !Halts(vs[k]) }
  predicate SomeMade(vs: seq<Volume>) { exists k :: 0 <= k < |vs| && Makes(vs[k]) }
  predicate AllReady(vs: seq<Volume>) { forall k :: 0 <= k < |vs| ==> IsReady(vs[k]) }

  // --------------------------------------------------------------- controller

  datatype Env = Env(
    specOk: bool, timedOut: bool, finalizerLands: bool, requestLands: bool, clearLands: bool, messageLands: bool,
    thawLands: bool, statusLands: bool, failedLands: bool, volumes: seq<Volume>)

  function Noted(l: Ledger, left: bool): (r: Ledger) { if left then l.(leftThawingFrozen := true) else l }

  /** A snapshot given a phase, noting whether it left Thawing with the guest frozen. */
  function WithPhase(s: State, x: Id, p: Phase): (r: State)
    requires x in s.snaps
    ensures x in r.snaps && r.agentOn == s.agentOn && r.active == s.active && r.status == s.status
  {
    s.(snaps := s.snaps[x := s.snaps[x].(phase := p)],
       ledger := Noted(s.ledger, s.snaps[x].phase == Thawing && p != Thawing && s.frozen))
  }

  /** The error path: the listed status with phase Failed. */
  function Fail(s: State, x: Id, e: Env): (r: State)
    requires x in s.snaps
    ensures x in r.snaps && r.agentOn == s.agentOn && r.active == s.active && r.status == s.status
  {
    if e.failedLands then WithPhase(s, x, Failed) else s
  }

  function SetPhase(s: State, x: Id, p: Phase, e: Env): (r: State)
    requires x in s.snaps
    ensures x in r.snaps && r.agentOn == s.agentOn && r.active == s.active && r.status == s.status
  {
    if e.statusLands then WithPhase(s, x, p) else Fail(s, x, e)
  }

  function RequestFreeze(s: State, x: Id, e: Env): (r: State)
    requires x in s.snaps
    ensures x in r.snaps && r.agentOn == s.agentOn && r.active == s.active && r.status == s.status
  {
    if !s.snaps[x].finalizer && !e.finalizerLands then Fail(s, x, e)
    else
      var s1 := s.(snaps := s.snaps[x := s.snaps[x].(finalizer := true)]);
      if !e.requestLands then Fail(s1, x, e) else SetPhase(s1.(request := x), x, Freezing, e)
  }

  function RequestThaw(s: State, x: Id, e: Env): (r: State)
    requires x in s.snaps
    ensures x in r.snaps && r.agentOn == s.agentOn && r.active == s.active && r.status == s.status
  {
    if !e.thawLands then Fail(s, x, e) else SetPhase(s.(request := NoId), x, Thawing, e)
  }

  /** failSnapshot, Atlas's own error path. */
  function FailTaking(s: State, x: Id, e: Env): (r: State)
    requires x in s.snaps
    ensures x in r.snaps && r.agentOn == s.agentOn && r.active == s.active && r.status == s.status
  {
    if s.snaps[x].phase == Freezing && !e.thawLands then Fail(s, x, e)
    else
      var s1 := if s.snaps[x].phase == Freezing then s.(request := NoId) else s;
      SetPhase(s1, x, Failed, e)
  }

  /** What follows the loop over the volumes. */
  function Conclude(s: State, x: Id, t: Taking, e: Env): (r: State)
    requires x in s.snaps
    ensures x in r.snaps && r.agentOn == s.agentOn && r.active == s.active && r.status == s.status
  {
    if t.stopped then if t.viaAtlas then FailTaking(s, x, e) else Fail(s, x, e)
    else if t.created && s.agentOn && s.snaps[x].phase == Freezing then RequestThaw(s, x, e)
    else SetPhase(s, x, if t.allReady then Succeeded else Pending, e)
  }

  /** `confirmed` says the agent confirmed the freeze for this snapshot. */
  function TakeVolumes(s: State, x: Id, confirmed: bool, e: Env): (r: State)
    requires x in s.snaps
    ensures x in r.snaps && r.agentOn == s.agentOn && r.active == s.active && r.status == s.status
  {
    var t := Take(e.volumes);
    var s1 := s.(ledger := s.ledger.(tookUnfrozen :=
      s.ledger.tookUnfrozen || (t.created && confirmed && !s.frozen)));
    Conclude(s1, x, t, e)
  }

  function AwaitFreeze(s: State, x: Id, e: Env): (r: State)
    requires x in s.snaps
    ensures x in r.snaps && r.agentOn == s.agentOn && r.active == s.active && r.status == s.status
  {
    if s.request != x then RequestFreeze(s, x, e)
    else if s.status == x then TakeVolumes(s, x, true, e)
    else if !e.timedOut then s
    else GiveUpFreeze(s, x, e)
  }

  function GiveUpFreeze(s: State, x: Id, e: Env): (r: State)
    requires x in s.snaps
    ensures x in r.snaps && r.agentOn == s.agentOn && r.active == s.active && r.status == s.status
  {
    if !e.clearLands then Fail(s, x, e)
    else if !e.messageLands then Fail(s.(request := NoId), x, e)
    else TakeVolumes(s.(request := NoId), x, false, e)
  }

  /** The object disappears once its finalizer is dropped. */
  function DropFinalizer(s: State, x: Id): (r: State) {
    var held := !s.gone && (s.request == x || s.status == x);
    s.(snaps := s.snaps - {x}, ledger := s.ledger.(droppedHeld := s.ledger.droppedHeld || held))
  }

  function Deletion(s: State, x: Id, e: Env): (r: State)
    requires x in s.snaps
    ensures r.agentOn == s.agentOn && r.active == s.active && r.status == s.status
  {
    if !s.snaps[x].finalizer then s.(snaps := s.snaps - {x})
    else if !s.gone && s.request == x then
      if e.clearLands then s.(request := NoId) else Fail(s, x, e)
    else if !s.gone && s.status == x then s
    else if e.finalizerLands then DropFinalizer(s, x)
    else Fail(s, x, e)
  }

  function Progress(s: State, x: Id, e: Env): (r: State)
    requires x in s.snaps
    ensures x in r.snaps && r.agentOn == s.agentOn && r.active == s.active && r.status == s.status
  {
    if !s.agentOn then TakeVolumes(s, x, false, e)
    else match s.snaps[x].phase
      case Unset => RequestFreeze(s, x, e)
      case Freezing => AwaitFreeze(s, x, e)
      case Thawing => if s.status != NoId then s else TakeVolumes(s, x, false, e)
      case _ => TakeVolumes(s, x, false, e)
  }

  function Reconcile(s: State, x: Id, e: Env): (r: State)
    requires x in s.snaps
    ensures r.agentOn == s.agentOn && r.active == s.active && r.status == s.status
  {
    if s.snaps[x].deleting then Deletion(s, x, e)
    else if s.snaps[x].phase == Succeeded || s.snaps[x].phase == Failed then s
    else if s.gone || !e.specOk then Fail(s, x, e)
    else Progress(s, x, e)
  }

  // -------------------------------------------------------------------- agent

  function AgentStep(s: State, ok: bool): (r: State) {
    if !s.agentOn || !s.active || s.gone || !ok then s
    else if s.request != NoId && s.status != s.request then s.(frozen := true, status := s.request)
    else if s.request == NoId && s.status != NoId then s.(frozen := false, status := NoId)
    else s
  }

  // --------------------------------------------------------------------- runs

  datatype Act =
    | ReconcileOne(x: Id, e: Env)
    | ByAgent(ok: bool)
    | Create(x: Id)
    | Delete(x: Id)
    | SetAgent(on: bool)
    | SetActive(on: bool)
    | MachineGone
    | MachineBack

  function Step(s: State, a: Act): (r: State) {
    match a
    case ReconcileOne(x, e) => if x in s.snaps then Reconcile(s, x, e) else s
    case ByAgent(ok) => AgentStep(s, ok)
    case Create(x) => if x in s.snaps || x == NoId then s else s.(snaps := s.snaps[x := Snap(Unset, false, false)])
    case Delete(x) => if x in s.snaps then s.(snaps := s.snaps[x := s.snaps[x].(deleting := true)]) else s
    case SetAgent(on) => s.(agentOn := on)
    case SetActive(on) => s.(active := on)
    case MachineGone => s.(gone := true, request := NoId, status := NoId, frozen := false)
    case MachineBack => s.(gone := false)
  }

  function Run(s: State, acts: seq<Act>): (r: State)
    decreases |acts|
  {
    if acts == [] then s else Run(Step(s, acts[0]), acts[1..])
  }

  /** Nothing has been asked of the guest yet. */
  predicate Start(s: State) {
    && s.request == NoId && s.status == NoId && !s.frozen && NoId !in s.snaps
    && s.ledger == Ledger(false, false, false)
  }
}
