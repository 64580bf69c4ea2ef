/** internal/patch/patch.go: the merge patch every write is sent as, pinned to the uid
    and resourceVersion it was computed from. JSON as section 2 of RFC 7396 sees it;
    numbers are kept as text. */
module Patch {
  import opened Api

  datatype Json =
    | Null
    | Bool(b: bool)
    | Num(text: string)
    | Str(s: string)
    | Arr(items: seq<Json>)
    | Obj(fields: Fields)

  type Fields = map<string, Json>

  // ---- Applying a merge patch

  function Merged(target: Fields, patch: Fields): Fields
    decreases Obj(patch), 0
  {
    map k | k in target.Keys + patch.Keys && !(k in patch && patch[k].Null?) ::
      if k in patch then Apply(if k in target then target[k] else Null, patch[k]) else target[k]
  }

  function Apply(target: Json, patch: Json): Json
    decreases patch, 1
  {
    if patch.Obj? then Obj(Merged(if target.Obj? then target.fields else map[], patch.fields)) else patch
  }

  // ---- Creating one

  /** What CreateMergePatch puts under `k`, if anything: a nested patch where both sides
      hold objects, the new value where they differ, null where it is gone. */
  function Change(a: Fields, b: Fields, k: string): Option<Json>
    decreases Obj(b), 0
  {
    if k !in b then (if k in a then Some(Null) else None)
    else if k !in a then Some(b[k])
    else if a[k].Obj? && b[k].Obj? then
      var nested := Diff(a[k].fields, b[k].fields);
      if nested == map[] then None else Some(Obj(nested))
    else if a[k] == b[k] then None
    else Some(b[k])
  }

  function Diff(a: Fields, b: Fields): Fields
    decreases Obj(b), 1
  {
    map k | k in a.Keys + b.Keys && Change(a, b, k).Some? :: Change(a, b, k).value
  }

  // ---- The round trip

  /** No member of an object, at any depth outside arrays, is null. */
  predicate NullFree(v: Json) {
    v.Obj? ==> forall k :: k in v.fields ==> !v.fields[k].Null? && NullFree(v.fields[k])
  }

  /** Nulls of `b` survive: each sits where `a` has the very same value. */
  predicate NullsKept(a: Fields, b: Fields)
    decreases Obj(b), 1
  {
    forall k :: k in b ==> NullsKeptAt(a, b, k)
  }

  predicate NullsKeptAt(a: Fields, b: Fields, k: string)
    requires k in b
    decreases Obj(b), 0
  {
    if k in a && a[k].Obj? && b[k].Obj? then NullsKept(a[k].fields, b[k].fields)
    else (k in a && a[k] == b[k]) || (!b[k].Null? && NullFree(b[k]))
  }

  /** Only an unchanged object has an empty patch. */
  lemma {:induction false} EmptyDiff(a: Fields, b: Fields)
    ensures Diff(a, b) == map[] <==> a == b
    decreases Obj(b)
  {
    forall k | k in a.Keys + b.Keys
      ensures Change(a, b, k).None? <==> k in a && k in b && a[k] == b[k]
    {
      if k in a && k in b && a[k].Obj? && b[k].Obj? {
        EmptyDiff(a[k].fields, b[k].fields);
      }
    }
    if Diff(a, b) == map[] {
      assert forall k :: k in a.Keys + b.Keys ==> k !in Diff(a, b);
    }
  }

  /** A value put where no object was arrives whole exactly when it is null-free. */
  lemma {:induction false} ApplyFresh(target: Json, v: Json)
    requires !target.Obj?
    ensures Apply(target, v) == v <==> NullFree(v)
    decreases v
  {
    if v.Obj? {
      var r := Merged(map[], v.fields);
      forall k | k in v.fields
        ensures k in r && r[k] == v.fields[k] <==> !v.fields[k].Null? && NullFree(v.fields[k])
      {
        ApplyFresh(Null, v.fields[k]);
      }
      if NullFree(v) {
        assert r == v.fields;
      }
    }
  }

  lemma MemberRoundTrip(a: Fields, b: Fields, k: string)
    requires k in b
    ensures var r := Merged(a, Diff(a, b)); k in r && r[k] == b[k] <==> NullsKeptAt(a, b, k)
    decreases Obj(b), 0
  {
    if k in a && a[k].Obj? && b[k].Obj? {
      EmptyDiff(a[k].fields, b[k].fields);
      RoundTrip(a[k].fields, b[k].fields);
      if a[k] == b[k] {
        UnchangedKeepsNulls(b[k].fields);
      }
    } else if k !in a || a[k] != b[k] {
      ApplyFresh(if k in a && !a[k].Obj? then a[k] else Null, b[k]);
    }
  }

  lemma {:induction false} UnchangedKeepsNulls(b: Fields)
    ensures NullsKept(b, b)
    decreases Obj(b)
  {
    forall k | k in b ensures NullsKeptAt(b, b, k) {
      if b[k].Obj? {
        UnchangedKeepsNulls(b[k].fields);
      }
    }
  }

  /** Applying the patch to the object it was computed from gives the other object
      exactly when no null is new. */
  lemma {:induction false} RoundTrip(a: Fields, b: Fields)
    ensures Merged(a, Diff(a, b)) == b <==> NullsKept(a, b)
    decreases Obj(b), 1
  {
    var r := Merged(a, Diff(a, b));
    forall k | k in b ensures k in r && r[k] == b[k] <==> NullsKeptAt(a, b, k) {
      MemberRoundTrip(a, b, k);
    }
    assert forall k :: k in a && k !in b ==> Change(a, b, k) == Some(Null) && k in Diff(a, b);
    if NullsKept(a, b) {
      assert r == b;
    }
  }

  lemma {:induction false} NullFreeKeepsNulls(a: Fields, b: Fields)
    requires NullFree(Obj(b))
    ensures NullsKept(a, b)
    decreases Obj(b)
  {
    forall k | k in b ensures NullsKeptAt(a, b, k) {
      if k in a && a[k].Obj? && b[k].Obj? {
        NullFreeKeepsNulls(a[k].fields, b[k].fields);
      }
    }
  }

  /** A null that was not there is lost: setting a field to null removes it instead. */
  lemma NewNullIsLost()
    ensures var a, b := map["x" := Bool(true)], map["x" := Null]; Merged(a, Diff(a, b)) == map[] != b
  {
    var a: Fields, b: Fields := map["x" := Bool(true)], map["x" := Null];
    assert Change(a, b, "x") == Some(Null);
    assert Diff(a, b) == map["x" := Null];
  }

  // ---- The pins

  const METADATA := "metadata"
  const RESOURCE_VERSION := "resourceVersion"
  const UID := "uid"

  function MetaOf(doc: Fields): Fields {
    if METADATA in doc && doc[METADATA].Obj? then doc[METADATA].fields else map[]
  }

  /** GetUID and GetResourceVersion. */
  function MetaText(doc: Fields, key: string): string {
    var meta := MetaOf(doc);
    if key in meta && meta[key].Str? then meta[key].s else ""
  }

  function WithPins(doc: Fields, rv: string, uid: string): Fields {
    doc[METADATA := Obj(MetaOf(doc)[RESOURCE_VERSION := Str(rv)][UID := Str(uid)])]
  }

  predicate Pinnable(orig: Fields) {
    MetaText(orig, RESOURCE_VERSION) != "" && MetaText(orig, UID) != ""
  }

  function PinnedPatch(orig: Fields, mutated: Fields): Fields {
    WithPins(Diff(orig, mutated), MetaText(orig, RESOURCE_VERSION), MetaText(orig, UID))
  }

  /** Optimistic: the patch, with the pins put into its metadata in place. */
  method Optimistic(orig: Fields, mutated: Fields) returns (patch: Option<Fields>)
    ensures patch == if Pinnable(orig) then Some(PinnedPatch(orig, mutated)) else None
  {
    if MetaText(orig, RESOURCE_VERSION) == "" || MetaText(orig, UID) == "" {
      return None;
    }
    var doc := Diff(orig, mutated);
    var meta: Fields := if METADATA in doc && doc[METADATA].Obj? then doc[METADATA].fields else map[];
    meta := meta[RESOURCE_VERSION := Str(MetaText(orig, RESOURCE_VERSION))];
    meta := meta[UID := Str(MetaText(orig, UID))];
    doc := doc[METADATA := Obj(meta)];
    return Some(doc);
  }

  /** Members that `b` and `c` share are patched alike. */
  lemma SameChange(a: Fields, b: Fields, c: Fields, k: string)
    requires k in b <==> k in c
    requires k in b ==> b[k] == c[k]
    ensures Change(a, b, k) == Change(a, c, k)
  {
  }

  lemma MetaOfDiff(a: Fields, b: Fields)
    requires METADATA in a && a[METADATA].Obj? && METADATA in b && b[METADATA].Obj?
    ensures MetaOf(Diff(a, b)) == Diff(MetaOf(a), MetaOf(b))
  {
  }

  lemma NothingMerged(a: Fields)
    ensures Merged(a, map[]) == a
  {
  }

  /** Pins equal to what the object already has change nothing. */
  lemma PinsAreNeutral(om: Fields, mm: Fields, rv: string, uid: string)
    requires RESOURCE_VERSION in om && om[RESOURCE_VERSION] == Str(rv) && UID in om && om[UID] == Str(uid)
    ensures Merged(om, Diff(om, mm)[RESOURCE_VERSION := Str(rv)][UID := Str(uid)]) ==
            Merged(om, Diff(om, mm[RESOURCE_VERSION := Str(rv)][UID := Str(uid)]))
  {
    var xm := mm[RESOURCE_VERSION := Str(rv)][UID := Str(uid)];
    var p, q := Diff(om, mm)[RESOURCE_VERSION := Str(rv)][UID := Str(uid)], Diff(om, xm);
    assert Change(om, xm, RESOURCE_VERSION).None? && Change(om, xm, UID).None?;
    assert RESOURCE_VERSION !in q && UID !in q;
    forall k | k != RESOURCE_VERSION && k != UID
      ensures k in p <==> k in q
      ensures k in p ==> p[k] == q[k]
    {
      SameChange(om, mm, xm, k);
    }
    assert Merged(om, p) == Merged(om, q);
  }

  /** Under a member that holds objects on both sides, the patch acts as the nested
      patch does. */
  lemma NestedMember(a: Fields, b: Fields, k: string)
    requires k in a && a[k].Obj? && k in b && b[k].Obj?
    ensures var r := Merged(a, Diff(a, b));
            k in r && r[k] == Obj(Merged(a[k].fields, Diff(a[k].fields, b[k].fields)))
  {
    NothingMerged(a[k].fields);
  }

  lemma PinnedIsMeant(orig: Fields, mutated: Fields, meant: Fields)
    requires Pinnable(orig) && METADATA in mutated && mutated[METADATA].Obj?
    requires meant == WithPins(mutated, MetaText(orig, RESOURCE_VERSION), MetaText(orig, UID))
    ensures Merged(orig, PinnedPatch(orig, mutated)) == Merged(orig, Diff(orig, meant))
  {
    var rv, uid := MetaText(orig, RESOURCE_VERSION), MetaText(orig, UID);
    var p, q := PinnedPatch(orig, mutated), Diff(orig, meant);
    forall k | k != METADATA
      ensures k in p <==> k in q
      ensures k in p ==> p[k] == q[k]
    {
      SameChange(orig, mutated, meant, k);
    }
    PinnedMetadata(orig, mutated, meant);
    SameMembers(orig, p, q);
  }

  lemma PinnedMetadata(orig: Fields, mutated: Fields, meant: Fields)
    requires Pinnable(orig) && METADATA in mutated && mutated[METADATA].Obj?
    requires meant == WithPins(mutated, MetaText(orig, RESOURCE_VERSION), MetaText(orig, UID))
    ensures var x, y := Merged(orig, PinnedPatch(orig, mutated)), Merged(orig, Diff(orig, meant));
            METADATA in x && METADATA in y && x[METADATA] == y[METADATA]
  {
    hide Diff, Change;
    MetaOfDiff(orig, mutated);
    PinsAreNeutral(MetaOf(orig), MetaOf(mutated), MetaText(orig, RESOURCE_VERSION), MetaText(orig, UID));
    NestedMember(orig, meant, METADATA);
  }

  /** Patches that differ only under metadata, and agree on what comes of that. */
  lemma SameMembers(a: Fields, p: Fields, q: Fields)
    requires forall k :: k != METADATA ==> (k in p <==> k in q) && (k in p ==> p[k] == q[k])
    requires METADATA in Merged(a, p) && METADATA in Merged(a, q) && Merged(a, p)[METADATA] == Merged(a, q)[METADATA]
    ensures Merged(a, p) == Merged(a, q)
  {
    var x, y := Merged(a, p), Merged(a, q);
    forall k ensures k in x <==> k in y ensures k in x ==> x[k] == y[k] {
      if k != METADATA {
        assert k in p <==> k in q;
      }
    }
  }

  /** The pinned patch, applied to the object it was computed from, gives the edited
      object with the uid and resourceVersion that were read, losing no other change of
      its metadata, exactly when no null is new. */
  lemma PinnedRoundTrip(orig: Fields, mutated: Fields)
    requires Pinnable(orig) && METADATA in mutated && mutated[METADATA].Obj?
    ensures var meant := WithPins(mutated, MetaText(orig, RESOURCE_VERSION), MetaText(orig, UID));
            Merged(orig, PinnedPatch(orig, mutated)) == meant <==> NullsKept(orig, meant)
  {
    hide Merged, Diff, NullsKept, Pinnable;
    var meant := WithPins(mutated, MetaText(orig, RESOURCE_VERSION), MetaText(orig, UID));
    PinnedIsMeant(orig, mutated, meant);
    RoundTrip(orig, meant);
  }

  // ---- The commit point

  /** How the API server answers a merge patch: a missing object, another uid, another
      resourceVersion, or the merged object. */
  datatype Answer = Accepted(merged: Fields) | Conflict | Invalid | NotFound

  function Send(cur: Option<Fields>, patch: Fields): Answer {
    if cur.None? then NotFound
    else if UID in MetaOf(patch) && MetaText(patch, UID) != MetaText(cur.value, UID) then Invalid
    else if RESOURCE_VERSION in MetaOf(patch) &&
            MetaText(patch, RESOURCE_VERSION) != MetaText(cur.value, RESOURCE_VERSION) then Conflict
    else Accepted(Merged(cur.value, patch))
  }

  predicate SamePins(a: Fields, b: Fields) {
    MetaText(a, UID) == MetaText(b, UID) && MetaText(a, RESOURCE_VERSION) == MetaText(b, RESOURCE_VERSION)
  }

  predicate IsStale(answer: Answer) {
    answer.Conflict? || answer.Invalid? || answer.NotFound?
  }

  /** A pinned patch commits on the very version it was computed from and on no other,
      whatever the edit did to its own uid and resourceVersion; the three refusals say
      which pin failed; and what commits is the edited object. `cur`: a version of a
      uid never changes. */
  lemma CommitsOnlyOnItsVersion(orig: Fields, mutated: Fields, cur: Option<Fields>)
    requires Pinnable(orig) && METADATA in mutated && mutated[METADATA].Obj?
    requires cur.Some? && SamePins(cur.value, orig) ==> cur.value == orig
    ensures var answer := Send(cur, PinnedPatch(orig, mutated));
            && (IsStale(answer) <==> cur != Some(orig))
            && (answer.NotFound? <==> cur.None?)
            && (answer.Invalid? <==> cur.Some? && MetaText(cur.value, UID) != MetaText(orig, UID))
            && (answer.Accepted? && NullFree(Obj(mutated)) ==>
                  answer.merged == WithPins(mutated, MetaText(orig, RESOURCE_VERSION), MetaText(orig, UID)))
  {
    hide Diff, Merged;
    var meant := WithPins(mutated, MetaText(orig, RESOURCE_VERSION), MetaText(orig, UID));
    PinnedRoundTrip(orig, mutated);
    if NullFree(Obj(mutated)) {
      PinsAreNullFree(mutated, MetaText(orig, RESOURCE_VERSION), MetaText(orig, UID));
      NullFreeKeepsNulls(orig, meant);
    }
  }

  lemma PinsAreNullFree(doc: Fields, rv: string, uid: string)
    requires NullFree(Obj(doc)) && METADATA in doc && doc[METADATA].Obj?
    ensures NullFree(Obj(WithPins(doc, rv, uid)))
  {
    assert NullFree(Str(rv)) && NullFree(Str(uid));
    assert NullFree(Obj(MetaOf(doc)[RESOURCE_VERSION := Str(rv)][UID := Str(uid)]));
  }
}
