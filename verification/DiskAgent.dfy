/** The disk reconciler as the agent runs it: three loops over one map of records, with
    FluxVM and the CSI drivers behind the calls. */
module DiskAgents {

  import opened Options
  import opened Sorting
  import opened Disks
  import opened DiskLaws

  class DiskAgent {
    var live: Live

    method AttachDisks(i: Input, e: Env, known: map<Id, Volume>)
      returns (volumes: map<Id, Volume>, want: set<Id>, failed: bool)
      modifies this
      ensures Work(volumes, live, failed) == AttachEach(Work(known, old(live), false), i.disks, i.node, e)
      ensures want == Wanted(i.disks)
    {
      volumes, want, failed := known, {}, false;
      for k := 0 to |i.disks|
        invariant Work(volumes, live, failed) == AttachEach(Work(known, old(live), false), i.disks[..k], i.node, e)
        invariant want == Wanted(i.disks[..k])
      {
        var d := i.disks[k];
        assert i.disks[..k + 1][..|i.disks[..k + 1]| - 1] == i.disks[..k];
        assert Wanted(i.disks[..k + 1]) == Wanted(i.disks[..k]) + {d.name};
        want := want + {d.name};
        if d.name in live.plugged { continue; }
        var res := Resolve(d, volumes, i.node, e);
        if res.volume.Some? { volumes := volumes[d.name := res.volume.value]; }
        if res.published { live := live.(published := live.published + {res.volume.value}); }
        if !res.ok || d.name in e.attachFails {
          failed := true;
          continue;
        }
        live := live.(plugged := live.plugged + {d.name});
      }
      assert i.disks[..|i.disks|] == i.disks;
    }

    method DetachDisks(i: Input, e: Env, want: set<Id>, ghost w: Work, failedBefore: bool) returns (failed: bool)
      requires w.live == live && w.failed == failedBefore
      modifies this
      ensures live == DetachEach(w, i.attached, want, e).live && failed == DetachEach(w, i.attached, want, e).failed
    {
      failed := failedBefore;
      for k := 0 to |i.attached|
        invariant live == DetachEach(w, i.attached[..k], want, e).live
        invariant failed == DetachEach(w, i.attached[..k], want, e).failed
      {
        var name := i.attached[k];
        assert i.attached[..k + 1][..|i.attached[..k + 1]| - 1] == i.attached[..k];
        if name in want || name !in live.plugged { continue; }
        if name in e.detachFails {
          failed := true;
          continue;
        }
        live := live.(plugged := live.plugged - {name});
      }
      assert i.attached[..|i.attached|] == i.attached;
    }

    lemma UnpublishSkips(w: Work, names: set<Id>, n: Id, want: set<Id>, e: Env)
      requires n in w.volumes && n !in names && (n in want || n in w.live.plugged)
      ensures Unpublish(w, names + {n}, want, e) == Unpublish(w, names, want, e)
    {
      assert Idle(w, want) * (names + {n}) == Idle(w, want) * names;
    }

    lemma UnpublishFails(w: Work, names: set<Id>, n: Id, want: set<Id>, e: Env)
      requires n in w.volumes && n !in names && n !in want && n !in w.live.plugged && n in e.unpublishFails
      ensures Unpublish(w, names + {n}, want, e) == Unpublish(w, names, want, e).(failed := true)
    {
      assert Idle(w, want) * (names + {n}) - e.unpublishFails == Idle(w, want) * names - e.unpublishFails;
      assert n in Idle(w, want) * (names + {n}) * e.unpublishFails;
    }

    lemma UnpublishDrops(w: Work, names: set<Id>, n: Id, want: set<Id>, e: Env)
      requires n in w.volumes && n !in names && n !in want && n !in w.live.plugged && n !in e.unpublishFails
      requires w.volumes[n].name == n
      ensures var before := Unpublish(w, names, want, e);
              Unpublish(w, names + {n}, want, e)
              == Work(before.volumes - {n},
                      before.live.(published := before.live.published - {w.volumes[n]}), before.failed)
    {
      var gone := Idle(w, want) * names - e.unpublishFails;
      assert Idle(w, want) * (names + {n}) - e.unpublishFails == gone + {n};
      assert Idle(w, want) * (names + {n}) * e.unpublishFails == Idle(w, want) * names * e.unpublishFails;
      assert w.volumes - (gone + {n}) == w.volumes - gone - {n};
    }

    /** The loop over the record map, in whatever order its keys come. */
    method UnpublishVolumes(e: Env, want: set<Id>, known: map<Id, Volume>, failedBefore: bool)
      returns (volumes: map<Id, Volume>, failed: bool)
      requires forall n :: n in known ==> known[n].name == n
      modifies this
      ensures Work(volumes, live, failed) == UnpublishIdle(Work(known, old(live), failedBefore), want, e)
    {
      var w := Work(known, live, failedBefore);
      var r := w;
      var todo := known.Keys;
      ghost var done: set<Id> := {};
      UnpublishNone(w, want, e);
      while todo != {}
        invariant done == known.Keys - todo && todo <= known.Keys
        invariant r == Unpublish(w, done, want, e)
        decreases todo
      {
        var name :| name in todo;
        r := UnpublishOne(w, done, r, name, want, e);
        todo, done := todo - {name}, done + {name};
      }
      volumes, live, failed := r.volumes, r.live, r.failed;
    }

    /** One record of the loop. */
    method UnpublishOne(ghost w: Work, ghost done: set<Id>, before: Work, name: Id, want: set<Id>, e: Env)
      returns (r: Work)
      requires name in w.volumes && w.volumes[name].name == name && name !in done
      requires before == Unpublish(w, done, want, e)
      ensures r == Unpublish(w, done + {name}, want, e)
    {
      if name in want || name in before.live.plugged {
        UnpublishSkips(w, done, name, want, e);
        r := before;
      } else if name in e.unpublishFails {
        UnpublishFails(w, done, name, want, e);
        r := before.(failed := true);
      } else {
        UnpublishDrops(w, done, name, want, e);
        r := Work(before.volumes - {name},
                  before.live.(published := before.live.published - {before.volumes[name]}), before.failed);
      }
    }

    lemma UnpublishNone(w: Work, want: set<Id>, e: Env)
      ensures Unpublish(w, {}, want, e) == w
    {
      assert Idle(w, want) * {} == {};
      assert w.volumes - {} == w.volumes;
    }

    /** The records of this node in whatever order its map gives them. */
    method Values(volumes: map<Id, Volume>) returns (out: seq<Volume>)
      requires forall n :: n in volumes ==> volumes[n].name == n
      ensures Enumerates(out, volumes)
    {
      out := [];
      var todo := volumes.Keys;
      while todo != {}
        invariant todo <= volumes.Keys
        invariant forall v :: v in out <==> v.name in volumes && v.name !in todo && volumes[v.name] == v
        invariant |out| + |todo| == |volumes.Keys|
        decreases |todo|
      {
        var name :| name in todo;
        out := out + [volumes[name]];
        todo := todo - {name};
      }
    }

    /** reconcileDisks; what it may touch is OnlyDroppedDisksGo, RecordsConserved and
        FullSuccess. */
    method ReconcileDisks(i: Input, e: Env, rank: Volume -> int) returns (r: Result)
      modifies this
      ensures r.live == live
      ensures Skipped(i) ==> r == Result([], [], old(live), true)
      ensures !Skipped(i) && (!i.valid || !e.listOk) ==> r == Result(i.attached, i.records, old(live), false)
      ensures !Skipped(i) && i.valid && e.listOk ==>
        var w := Reconciled(i, old(live), e);
        && live == w.live && r.ok == !w.failed
        && r.attached == AttachedSpec(i.disks, w.live.plugged)
                         + AttachedRest(i.attached, Wanted(i.disks), w.live.plugged)
        && Sorted(r.records, rank) && Recorded(r.records, ForeignOf(i.node, i.records), w.volumes)
    {
      if |i.disks| == 0 && |i.attached| == 0 && |i.records| == 0 { return Result([], [], live, true); }
      if !i.valid || !e.listOk { return Result(i.attached, i.records, live, false); }
      var start, foreign := Split(i.node, i.records);
      var volumes, want, failed := AttachDisks(i, e, start);
      ghost var attachedWork := Work(volumes, live, failed);
      assert forall n :: n in volumes ==> volumes[n].name == n by {
        AttachTouches(Work(start, old(live), false), i.disks, i.node, e);
      }
      failed := DetachDisks(i, e, want, attachedWork, failed);
      DetachTouches(attachedWork, i.attached, want, e);
      volumes, failed := UnpublishVolumes(e, want, volumes, failed);
      var records := ListRecords(foreign, volumes, rank);
      var first := ListSpec(i.disks);
      var rest := ListRest(i.attached, want);
      r := Result(first + rest, records, live, !failed);
    }

    method ListRecords(foreign: seq<Volume>, volumes: map<Id, Volume>, rank: Volume -> int)
      returns (records: seq<Volume>)
      requires forall n :: n in volumes ==> volumes[n].name == n
      ensures Sorted(records, rank) && Recorded(records, foreign, volumes)
    {
      var locals := Values(volumes);
      SortBySorts(foreign + locals, rank);
      records := SortBy(foreign + locals, rank);
    }

    method Split(node: Id, records: seq<Volume>) returns (volumes: map<Id, Volume>, foreign: seq<Volume>)
      ensures volumes == LocalOf(node, records) && foreign == ForeignOf(node, records)
    {
      volumes, foreign := map[], [];
      for k := 0 to |records|
        invariant volumes == LocalOf(node, records[..k]) && foreign == ForeignOf(node, records[..k])
      {
        assert records[..k + 1][..|records[..k + 1]| - 1] == records[..k];
        if records[k].node == node {
          volumes := volumes[records[k].name := records[k]];
        } else {
          foreign := foreign + [records[k]];
        }
      }
      assert records[..|records|] == records;
    }

    method ListSpec(disks: seq<Disk>) returns (out: seq<Id>)
      ensures out == AttachedSpec(disks, live.plugged)
    {
      out := [];
      for k := 0 to |disks|
        invariant out == AttachedSpec(disks[..k], live.plugged)
      {
        assert disks[..k + 1][..|disks[..k + 1]| - 1] == disks[..k];
        if disks[k].name in live.plugged { out := out + [disks[k].name]; }
      }
      assert disks[..|disks|] == disks;
    }

    method ListRest(names: seq<Id>, want: set<Id>) returns (out: seq<Id>)
      ensures out == AttachedRest(names, want, live.plugged)
    {
      out := [];
      for k := 0 to |names|
        invariant out == AttachedRest(names[..k], want, live.plugged)
      {
        assert names[..k + 1][..|names[..k + 1]| - 1] == names[..k];
        if names[k] !in want && names[k] in live.plugged { out := out + [names[k]]; }
      }
      assert names[..|names|] == names;
    }
  }
}
