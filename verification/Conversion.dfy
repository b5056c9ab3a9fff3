/**
 MachineQuota conversion between two versions that differ in field names. The renames are
 applied in the order a map gives them, which is no order at all.
 */
module Conversion {

  import opened Options

  datatype Json = Null | Bool(b: bool) | Number(n: int) | Text(s: string)
                | List(items: seq<Json>) | Object(fields: Fields)

  type Fields = map<string, Json>
  type Renames = map<string, string>

  const V1Alpha1 := "kairon.zyvor.dev/v1alpha1"
  const V1 := "kairon.zyvor.dev/v1"

  const SpecRenames: Renames := map["maxTotalCpu" := "maxCpu", "maxTotalMemory" := "maxMemory"]
  const StatusRenames: Renames :=
    map["usedTotalCpuCores" := "usedCpuCores", "usedTotalMemoryMiB" := "usedMemoryMiB"]

  /** The second table undoes the first. */
  predicate Inverse(r: Renames, back: Renames) {
    && (forall f :: f in r ==> r[f] in back && back[r[f]] == f)
    && (forall t :: t in back ==> back[t] in r && r[back[t]] == t)
  }

  /** No field is both an old name and a new one. */
  predicate Apart(r: Renames, back: Renames) { forall f :: f in r ==> f !in back }

  // ----------------------------------------------------------------- renaming

  /** One entry of the table, if the field is there. */
  function RenameOne(sub: Fields, f: string, t: string): (r: Fields) {
    if f in sub then (sub - {f})[t := sub[f]] else sub
  }

  /** The field `k` of the result comes from the old name it is a new name of. */
  predicate Comes(sub: Fields, back: Renames, done: set<string>, k: string) {
    k in back && back[k] in done && back[k] in sub
  }

  /** The renames in `done` applied all at once. */
  function Renamed(sub: Fields, r: Renames, back: Renames, done: set<string>): (out: Fields)
    requires Inverse(r, back) && done <= r.Keys
  {
    map k | k in (sub.Keys - done) + (set f | f in done && f in sub :: r[f]) ::
      if Comes(sub, back, done, k) then sub[back[k]] else sub[k]
  }

  lemma {:induction false} RenamedKeys(sub: Fields, r: Renames, back: Renames, done: set<string>, k: string)
    requires Inverse(r, back) && done <= r.Keys
    ensures k in Renamed(sub, r, back, done) <==> (k in sub && k !in done) || Comes(sub, back, done, k)
  {
    if Comes(sub, back, done, k) { assert r[back[k]] == k; }
  }

  /** One more entry, whichever it is, extends what was done. */
  lemma {:induction false} RenameStep(sub: Fields, r: Renames, back: Renames, done: set<string>, f: string)
    requires Inverse(r, back) && Apart(r, back) && done <= r.Keys && f in r && f !in done
    ensures RenameOne(Renamed(sub, r, back, done), f, r[f]) == Renamed(sub, r, back, done + {f})
  {
    var a, b := RenameOne(Renamed(sub, r, back, done), f, r[f]), Renamed(sub, r, back, done + {f});
    RenamedKeys(sub, r, back, done, f);
    forall k ensures k in a <==> k in b {
      RenamedKeys(sub, r, back, done, k);
      RenamedKeys(sub, r, back, done + {f}, k);
    }
    forall k | k in a ensures a[k] == b[k] {
      RenamedKeys(sub, r, back, done, k);
    }
  }

  lemma {:induction false} RenamedNone(sub: Fields, r: Renames, back: Renames)
    requires Inverse(r, back)
    ensures Renamed(sub, r, back, {}) == sub
  {
  }

  function RenameInOrder(sub: Fields, r: Renames, order: seq<string>): (out: Fields)
    requires forall i :: 0 <= i < |order| ==> order[i] in r
  {
    if order == [] then sub
    else RenameOne(RenameInOrder(sub, r, order[..|order| - 1]), order[|order| - 1], r[order[|order| - 1]])
  }

  predicate Distinct(order: seq<string>) { forall i, j :: 0 <= i < j < |order| ==> order[i] != order[j] }

  lemma {:induction false} OrderIsRenamed(sub: Fields, r: Renames, back: Renames, order: seq<string>)
    requires Inverse(r, back) && Apart(r, back) && Distinct(order)
    requires forall i :: 0 <= i < |order| ==> order[i] in r
    ensures (set f | f in order) <= r.Keys
    ensures RenameInOrder(sub, r, order) == Renamed(sub, r, back, set f | f in order)
  {
    if order == [] {
      RenamedNone(sub, r, back);
      assert (set f | f in order) == {};
    } else {
      var front, f := order[..|order| - 1], order[|order| - 1];
      OrderIsRenamed(sub, r, back, front);
      RenameStep(sub, r, back, (set g | g in front), f);
      assert order == front + [f];
      assert (set g | g in order) == (set g | g in front) + {f};
    }
  }

  /** Whatever order a map is walked in, the result is the same. */
  lemma {:induction false} OrderDoesNotMatter(sub: Fields, r: Renames, back: Renames, a: seq<string>, b: seq<string>)
    requires Inverse(r, back) && Apart(r, back) && Distinct(a) && Distinct(b)
    requires forall f :: f in a <==> f in r
    requires forall f :: f in b <==> f in r
    ensures RenameInOrder(sub, r, a) == RenameInOrder(sub, r, b)
  {
    OrderIsRenamed(sub, r, back, a);
    OrderIsRenamed(sub, r, back, b);
    assert (set f | f in a) == (set f | f in b);
  }

  // --------------------------------------------------------------- round trip

  function Forth(sub: Fields, r: Renames, back: Renames): (out: Fields)
    requires Inverse(r, back)
  {
    Renamed(sub, r, back, r.Keys)
  }

  lemma {:induction false} InverseBack(r: Renames, back: Renames)
    requires Inverse(r, back)
    ensures Inverse(back, r)
  {
  }

  predicate NoNewName(sub: Fields, back: Renames) { forall t :: t in back ==> t !in sub }

  lemma {:induction false} ForthKeys(sub: Fields, r: Renames, back: Renames, k: string)
    requires Inverse(r, back)
    ensures k in Forth(sub, r, back) <==> (k in sub && k !in r) || (k in back && back[k] in sub)
  {
    RenamedKeys(sub, r, back, r.Keys, k);
  }

  lemma {:induction false} BackKeys(sub: Fields, r: Renames, back: Renames, k: string)
    requires Inverse(r, back) && Apart(r, back)
    ensures k in Forth(Forth(sub, r, back), back, r)
       <==> (k in r && (k in sub || r[k] in sub)) || (k !in r && k !in back && k in sub)
  {
    InverseBack(r, back);
    ForthKeys(Forth(sub, r, back), back, r, k);
    ForthKeys(sub, r, back, k);
    if k in r { ForthKeys(sub, r, back, r[k]); }
  }

  /** Renaming there and back is the identity exactly when no new name was already there. */
  lemma {:induction false} ThereAndBack(sub: Fields, r: Renames, back: Renames)
    requires Inverse(r, back) && Apart(r, back)
    ensures Forth(Forth(sub, r, back), back, r) == sub <==> NoNewName(sub, back)
  {
    var mid := Forth(sub, r, back);
    var out := Forth(mid, back, r);
    forall k ensures k in out <==> (k in r && (k in sub || r[k] in sub)) || (k !in r && k !in back && k in sub) {
      BackKeys(sub, r, back, k);
    }
    if NoNewName(sub, back) {
      forall k | k in sub ensures out[k] == sub[k] {
        ForthKeys(sub, r, back, k);
        if k in r { ForthKeys(sub, r, back, r[k]); }
      }
      assert out.Keys == sub.Keys;
    } else {
      var t :| t in back && t in sub;
      assert t !in r;
      assert t !in out;
    }
  }

  // --------------------------------------------------------------- conversion

  predicate IsSection(obj: Fields, name: string) { name in obj && obj[name].Object? }

  function RenameSection(obj: Fields, name: string, r: Renames, back: Renames): (out: Fields)
    requires Inverse(r, back)
  {
    if IsSection(obj, name) then obj[name := Object(Forth(obj[name].fields, r, back))] else obj
  }

  const SpecBack: Renames := map["maxCpu" := "maxTotalCpu", "maxMemory" := "maxTotalMemory"]
  const StatusBack: Renames :=
    map["usedCpuCores" := "usedTotalCpuCores", "usedMemoryMiB" := "usedTotalMemoryMiB"]

  lemma {:induction false} Tables()
    ensures Inverse(SpecRenames, SpecBack) && Apart(SpecRenames, SpecBack)
    ensures Inverse(StatusRenames, StatusBack) && Apart(StatusRenames, StatusBack)
    ensures Inverse(SpecBack, SpecRenames) && Inverse(StatusBack, StatusRenames)
  {
  }

  function VersionOf(obj: Fields): (v: string) {
    if "apiVersion" in obj && obj["apiVersion"].Text? then obj["apiVersion"].s else ""
  }

  /** ConvertMachineQuota; None is its error. */
  function Convert(obj: Fields, to: string): (r: Option<Fields>) {
    Tables();
    var from := VersionOf(obj);
    if from == "" then None
    else if from == to then Some(obj)
    else if from == V1Alpha1 && to == V1 then
      Some(RenameSection(RenameSection(obj, "spec", SpecRenames, SpecBack), "status", StatusRenames, StatusBack)
             ["apiVersion" := Text(to)])
    else if from == V1 && to == V1Alpha1 then
      Some(RenameSection(RenameSection(obj, "spec", SpecBack, SpecRenames), "status", StatusBack, StatusRenames)
             ["apiVersion" := Text(to)])
    else None
  }

  predicate SectionFree(obj: Fields, name: string, back: Renames) {
    IsSection(obj, name) ==> NoNewName(obj[name].fields, back)
  }

  /** A section renamed there and back, around any change elsewhere. */
  lemma {:induction false} SectionRoundTrip(obj: Fields, name: string, r: Renames, back: Renames)
    requires Inverse(r, back) && Apart(r, back) && Inverse(back, r)
    ensures RenameSection(RenameSection(obj, name, r, back), name, back, r) == obj <==> SectionFree(obj, name, back)
  {
    if IsSection(obj, name) {
      var out := RenameSection(RenameSection(obj, name, r, back), name, back, r);
      ThereAndBack(obj[name].fields, r, back);
      assert out[name] == Object(Forth(Forth(obj[name].fields, r, back), back, r));
      assert out.Keys == obj.Keys;
    }
  }

  lemma {:induction false} SectionsCommute(obj: Fields, a: string, b: string, r: Renames, rb: Renames, q: Renames,
                                           qb: Renames)
    requires a != b && Inverse(r, rb) && Inverse(q, qb)
    ensures RenameSection(RenameSection(obj, a, r, rb), b, q, qb)
         == RenameSection(RenameSection(obj, b, q, qb), a, r, rb)
  {
  }

  lemma {:induction false} VersionAside(obj: Fields, name: string, r: Renames, back: Renames, v: Json)
    requires Inverse(r, back) && name != "apiVersion"
    ensures RenameSection(obj["apiVersion" := v], name, r, back) == RenameSection(obj, name, r, back)["apiVersion" := v]
  {
  }

  /** Both sections forth, then both back. */
  function Forward(obj: Fields): (r: Fields) {
    Tables();
    RenameSection(RenameSection(obj, "spec", SpecRenames, SpecBack), "status", StatusRenames, StatusBack)
  }

  function Backward(obj: Fields): (r: Fields) {
    Tables();
    RenameSection(RenameSection(obj, "spec", SpecBack, SpecRenames), "status", StatusBack, StatusRenames)
  }

  lemma {:induction false} BothSections(obj: Fields)
    ensures Inverse(SpecRenames, SpecBack) && Inverse(SpecBack, SpecRenames)
    ensures Inverse(StatusRenames, StatusBack) && Inverse(StatusBack, StatusRenames)
    ensures Backward(Forward(obj))
         == RenameSection(RenameSection(RenameSection(RenameSection(obj, "spec", SpecRenames, SpecBack),
              "spec", SpecBack, SpecRenames), "status", StatusRenames, StatusBack), "status", StatusBack, StatusRenames)
  {
    Tables();
    var a := RenameSection(obj, "spec", SpecRenames, SpecBack);
    SectionsCommute(a, "spec", "status", SpecBack, SpecRenames, StatusRenames, StatusBack);
  }

  lemma {:induction false} BothRoundTrip(obj: Fields)
    ensures Backward(Forward(obj)) == obj
       <==> SectionFree(obj, "spec", SpecBack) && SectionFree(obj, "status", StatusBack)
  {
    Tables();
    BothSections(obj);
    var mid := RenameSection(RenameSection(obj, "spec", SpecRenames, SpecBack), "spec", SpecBack, SpecRenames);
    SectionRoundTrip(obj, "spec", SpecRenames, SpecBack);
    SectionRoundTrip(mid, "status", StatusRenames, StatusBack);
    StatusUntouched(obj);
    SpecUntouched(mid);
  }

  lemma {:induction false} StatusUntouched(obj: Fields)
    ensures Inverse(SpecRenames, SpecBack) && Inverse(SpecBack, SpecRenames)
    ensures var mid := RenameSection(RenameSection(obj, "spec", SpecRenames, SpecBack), "spec", SpecBack, SpecRenames);
            SectionFree(mid, "status", StatusBack) <==> SectionFree(obj, "status", StatusBack)
  {
    Tables();
  }

  lemma {:induction false} SpecUntouched(obj: Fields)
    ensures Inverse(StatusRenames, StatusBack) && Inverse(StatusBack, StatusRenames)
    ensures var out := RenameSection(RenameSection(obj, "status", StatusRenames, StatusBack),
                                     "status", StatusBack, StatusRenames);
            IsSection(out, "spec") == IsSection(obj, "spec") && ("spec" in out <==> "spec" in obj)
            && ("spec" in obj ==> out["spec"] == obj["spec"])
  {
    Tables();
  }

  /** Converting a v1alpha1 object to v1 and back gives the object again exactly when
      neither section already holds a v1 name. */
  lemma {:induction false} RoundTrip(obj: Fields)
    requires VersionOf(obj) == V1Alpha1
    ensures var there := Convert(obj, V1);
            && there.Some?
            && (Convert(there.value, V1Alpha1) == Some(obj)
                <==> SectionFree(obj, "spec", SpecBack) && SectionFree(obj, "status", StatusBack))
  {
    Tables();
    var there := Forward(obj)["apiVersion" := Text(V1)];
    assert Convert(obj, V1) == Some(there);
    VersionAside(Forward(obj), "spec", SpecBack, SpecRenames, Text(V1));
    VersionAside(RenameSection(Forward(obj), "spec", SpecBack, SpecRenames),
                 "status", StatusBack, StatusRenames, Text(V1));
    assert Backward(there) == Backward(Forward(obj))["apiVersion" := Text(V1)];
    assert Convert(there, V1Alpha1) == Some(Backward(there)["apiVersion" := Text(V1Alpha1)]);
    BothRoundTrip(obj);
    VersionKept(obj);
  }

  lemma {:induction false} VersionKept(obj: Fields)
    requires VersionOf(obj) == V1Alpha1
    ensures var b := Backward(Forward(obj));
            "apiVersion" in b && b["apiVersion"] == Text(V1Alpha1) == obj["apiVersion"]
            && b["apiVersion" := Text(V1)]["apiVersion" := Text(V1Alpha1)] == b
  {
  }

  // ------------------------------------------------------------------- methods

  /** renameFieldsIn's loop, in whatever order the table is walked. */
  method RenameFields(sub: Fields, r: Renames, ghost back: Renames) returns (out: Fields)
    requires Inverse(r, back) && Apart(r, back)
    ensures out == Forth(sub, r, back)
  {
    out := sub;
    var todo := r.Keys;
    ghost var done: set<string> := {};
    RenamedNone(sub, r, back);
    while todo != {}
      invariant done == r.Keys - todo && todo <= r.Keys
      invariant out == Renamed(sub, r, back, done)
      decreases todo
    {
      var f :| f in todo;
      RenameStep(sub, r, back, done, f);
      if f in out {
        var v := out[f];
        out := out - {f};
        out := out[r[f] := v];
      }
      todo, done := todo - {f}, done + {f};
    }
  }

  /** invertRenames: new names that are all different give the inverse table. */
  method InvertRenames(r: Renames) returns (inverted: Renames)
    requires forall f, g :: f in r && g in r && r[f] == r[g] ==> f == g
    ensures Inverse(r, inverted)
  {
    inverted := map[];
    var todo := r.Keys;
    while todo != {}
      invariant todo <= r.Keys
      invariant forall f :: f in r && f !in todo ==> r[f] in inverted && inverted[r[f]] == f
      invariant forall t :: t in inverted ==> inverted[t] in r && inverted[t] !in todo && r[inverted[t]] == t
      decreases todo
    {
      var f :| f in todo;
      inverted := inverted[r[f] := f];
      todo := todo - {f};
    }
  }
}
