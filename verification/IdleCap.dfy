/** The idle-session cap: which asleep Sandboxes are beyond it (idleVictims), and
    what repeated passes leave behind. */
module IdleCap {
  import opened Sets

  /** idleEntry of internal/sessioncontroller/reconciler.go. */
  datatype Entry = Entry(name: string, uid: string, at: int)

  /** Lexicographic order of strings, as Go compares them. */
  predicate Less(a: string, b: string) {
    b != "" && (a == "" || a[0] < b[0] || (a[0] == b[0] && Less(a[1..], b[1..])))
  }

  lemma {:induction false} LessTransitive(a: string, b: string, c: string)
    requires Less(a, b) && Less(b, c)
    ensures Less(a, c)
  {
    if a != "" && a[0] == b[0] && b[0] == c[0] {
      LessTransitive(a[1..], b[1..], c[1..]);
    }
  }

  lemma {:induction false} LessTotal(a: string, b: string)
    ensures Less(a, b) || Less(b, a) || a == b
    ensures !(Less(a, b) && Less(b, a))
    ensures !Less(a, a)
  {
    if a != "" {
      LessTotal(a[1..], a[1..]);
      if b != "" {
        LessTotal(a[1..], b[1..]);
        assert a == [a[0]] + a[1..] && b == [b[0]] + b[1..];
      }
    }
  }

  /** a goes before b: asleep longer, ties by name. */
  predicate Before(a: Entry, b: Entry) {
    a.at < b.at || (a.at == b.at && Less(a.name, b.name))
  }

  lemma BeforeTransitive(a: Entry, b: Entry, c: Entry)
    requires Before(a, b) && Before(b, c)
    ensures Before(a, c)
  {
    if a.at == b.at == c.at {
      LessTransitive(a.name, b.name, c.name);
    }
  }

  lemma BeforeTotal(a: Entry, b: Entry)
    requires a.name != b.name
    ensures Before(a, b) != Before(b, a)
  {
    LessTotal(a.name, b.name);
  }

  lemma BeforeIrreflexive(a: Entry)
    ensures !Before(a, a)
  {
    LessTotal(a.name, a.name);
  }

  predicate DistinctNames(s: seq<Entry>) {
    forall i, j :: 0 <= i < j < |s| ==> s[i].name != s[j].name
  }

  predicate Ascending(s: seq<Entry>) {
    forall i, j :: 0 <= i < j < |s| ==> Before(s[i], s[j])
  }

  /** The members of `all` that fell asleep after `e`. */
  function NewerThan(e: Entry, all: set<Entry>): set<Entry> {
    set f | f in all && Before(e, f)
  }

  /** Beyond the cap: at least `keep` asleep Sandboxes are newer. */
  predicate IsVictim(e: Entry, all: set<Entry>, keep: int) {
    e in all && |NewerThan(e, all)| >= keep
  }

  function SetOf(s: seq<Entry>): set<Entry> {
    set e | e in s
  }

  /** sort.Slice with the comparison of idleVictims. */
  method SortByAge(entries: seq<Entry>) returns (sorted: seq<Entry>)
    requires DistinctNames(entries)
    ensures multiset(sorted) == multiset(entries)
    ensures Ascending(sorted)
  {
    sorted := [];
    for i := 0 to |entries|
      invariant multiset(sorted) == multiset(entries[..i])
      invariant Ascending(sorted)
    {
      var e := entries[i];
      assert entries[..i + 1] == entries[..i] + [e];
      forall k | 0 <= k < |sorted| ensures sorted[k].name != e.name {
        assert sorted[k] in multiset(sorted);
        assert sorted[k] in entries[..i];
      }
      sorted := Insert(sorted, e);
    }
    assert entries[..|entries|] == entries;
  }

  method Insert(s: seq<Entry>, e: Entry) returns (r: seq<Entry>)
    requires Ascending(s)
    requires forall k :: 0 <= k < |s| ==> s[k].name != e.name
    ensures multiset(r) == multiset(s) + multiset{e}
    ensures Ascending(r)
  {
    var i := |s|;
    while i > 0 && Before(e, s[i - 1])
      invariant 0 <= i <= |s|
      invariant forall k :: i <= k < |s| ==> Before(e, s[k])
    {
      i := i - 1;
    }
    forall k | 0 <= k < i ensures Before(s[k], e) {
      BeforeTotal(s[i - 1], e);
      if k < i - 1 {
        BeforeTransitive(s[k], s[i - 1], e);
      }
    }
    assert s == s[..i] + s[i..];
    r := s[..i] + [e] + s[i..];
    SplicedAscending(s, i, e);
  }

  lemma SplicedAscending(s: seq<Entry>, i: nat, e: Entry)
    requires Ascending(s) && i <= |s|
    requires forall k :: 0 <= k < i ==> Before(s[k], e)
    requires forall k :: i <= k < |s| ==> Before(e, s[k])
    ensures Ascending(s[..i] + [e] + s[i..])
  {
    var r := s[..i] + [e] + s[i..];
    forall j, k | 0 <= j < k < |r| ensures Before(r[j], r[k]) {
      var x, y := if j < i then j else j - 1, if k < i then k else k - 1;
      assert j != i ==> r[j] == s[x];
      assert k != i ==> r[k] == s[y];
    }
  }

  lemma AscendingIsDistinct(s: seq<Entry>)
    requires Ascending(s)
    ensures forall i, j :: 0 <= i < j < |s| ==> s[i] != s[j]
  {
    forall i, j | 0 <= i < j < |s| ensures s[i] != s[j] {
      BeforeIrreflexive(s[i]);
    }
  }

  lemma {:induction false} DistinctCardinality(s: seq<Entry>)
    requires forall i, j :: 0 <= i < j < |s| ==> s[i] != s[j]
    ensures |SetOf(s)| == |s|
  {
    if s != [] {
      DistinctCardinality(s[1..]);
      assert SetOf(s) == {s[0]} + SetOf(s[1..]);
    }
  }

  /** In ascending order, position tells how many are newer. */
  lemma NewerByPosition(s: seq<Entry>, i: nat)
    requires Ascending(s) && i < |s|
    ensures |NewerThan(s[i], SetOf(s))| == |s| - 1 - i
  {
    var rest := s[i + 1..];
    AscendingIsDistinct(s);
    DistinctCardinality(rest);
    forall e | e in NewerThan(s[i], SetOf(s)) ensures e in SetOf(rest) {
      var k :| 0 <= k < |s| && s[k] == e;
      BeforeIrreflexive(e);
      if k < i {
        BeforeTransitive(s[i], e, s[i]);
        BeforeIrreflexive(s[i]);
      }
      assert k > i;
      assert e == rest[k - i - 1];
    }
    forall e | e in SetOf(rest) ensures e in NewerThan(s[i], SetOf(s)) {
      var k :| 0 <= k < |rest| && rest[k] == e;
      assert e == s[i + 1 + k];
    }
    assert NewerThan(s[i], SetOf(s)) == SetOf(rest);
  }

  /** The victims are exactly the entries with at least `keep` newer ones, in
      whatever order the entries came; oldest first. */
  method SelectVictims(idle: seq<Entry>, keep: int) returns (victims: seq<Entry>)
    requires keep > 0 && DistinctNames(idle)
    ensures forall e :: e in victims <==> IsVictim(e, SetOf(idle), keep)
    ensures Ascending(victims)
    ensures |victims| == if |idle| > keep then |idle| - keep else 0
  {
    var sorted := SortByAge(idle);
    SameMembers(idle, sorted);
    var excess := |sorted| - keep;
    if excess <= 0 {
      victims := [];
    } else {
      victims := sorted[..excess];
    }
    forall e ensures e in victims <==> IsVictim(e, SetOf(idle), keep) {
      if e in sorted {
        var i :| 0 <= i < |sorted| && sorted[i] == e;
        NewerByPosition(sorted, i);
        AscendingIsDistinct(sorted);
        if e in victims {
          var j :| 0 <= j < |victims| && victims[j] == e;
          assert j == i;
        }
      }
    }
  }

  lemma SameMembers(a: seq<Entry>, b: seq<Entry>)
    requires multiset(b) == multiset(a)
    ensures SetOf(a) == SetOf(b) && |a| == |b|
  {
    assert |multiset(a)| == |a| && |multiset(b)| == |b|;
    forall e ensures e in a <==> e in b {
      assert e in a <==> e in multiset(a);
      assert e in b <==> e in multiset(b);
    }
  }

  // ---- Passes over a fleet of asleep Sandboxes

  /** One gc pass on the Sandbox `e` with a current list of the fleet. */
  function Pass(fleet: set<Entry>, e: Entry, keep: int): set<Entry> {
    if IsVictim(e, fleet, keep) then fleet - {e} else fleet
  }

  function Passes(fleet: set<Entry>, order: seq<Entry>, keep: int): set<Entry> {
    if order == [] then fleet else Passes(Pass(fleet, order[0], keep), order[1..], keep)
  }

  /** The `keep` newest. */
  function Newest(fleet: set<Entry>, keep: int): set<Entry> {
    set e | e in fleet && |NewerThan(e, fleet)| < keep
  }

  predicate NamesDiffer(fleet: set<Entry>) {
    forall e, f :: e in fleet && f in fleet && e != f ==> e.name != f.name
  }

  /** Collecting one victim changes nobody else's fate. */
  lemma VictimStaysVictim(fleet: set<Entry>, v: Entry, e: Entry, keep: int)
    requires IsVictim(v, fleet, keep) && e in fleet && e != v
    ensures IsVictim(e, fleet - {v}, keep) <==> IsVictim(e, fleet, keep)
  {
    var before, after := NewerThan(e, fleet), NewerThan(e, fleet - {v});
    assert after == before - {v};
    if Before(e, v) {
      var aboveV := NewerThan(v, fleet);
      forall f | f in aboveV ensures f in after {
        BeforeTransitive(e, v, f);
        BeforeIrreflexive(v);
      }
      SubsetSize(aboveV, after);
      assert before == after + {v};
    } else {
      assert after == before;
    }
  }

  lemma PassKeepsNewest(fleet: set<Entry>, e: Entry, keep: int)
    ensures Newest(Pass(fleet, e, keep), keep) == Newest(fleet, keep)
  {
    if IsVictim(e, fleet, keep) {
      forall f | f in fleet && f != e ensures f in Newest(fleet - {e}, keep) <==> f in Newest(fleet, keep) {
        VictimStaysVictim(fleet, e, f, keep);
      }
    }
  }

  /** Passes in any order and with any repetition delete no member of the `keep`
      newest; once every Sandbox of the fleet has had a pass, exactly those remain. */
  lemma {:induction false} PassesConverge(fleet: set<Entry>, order: seq<Entry>, keep: int)
    ensures Newest(fleet, keep) <= Passes(fleet, order, keep) <= fleet
    ensures Newest(Passes(fleet, order, keep), keep) == Newest(fleet, keep)
    ensures (forall e :: e in fleet && e !in Newest(fleet, keep) ==> e in order) ==>
              Passes(fleet, order, keep) == Newest(fleet, keep)
  {
    if order != [] {
      var e, rest := order[0], Pass(fleet, order[0], keep);
      PassKeepsNewest(fleet, e, keep);
      PassesConverge(rest, order[1..], keep);
      if forall f :: f in fleet && f !in Newest(fleet, keep) ==> f in order {
        forall f | f in rest && f !in Newest(rest, keep) ensures f in order[1..] {
          assert f in order && f != e;
        }
      }
    }
  }

  /** The cap is exact: the newest are min(keep, n) Sandboxes. */
  lemma {:induction false} NewestCount(fleet: set<Entry>, keep: nat)
    requires NamesDiffer(fleet)
    ensures |Newest(fleet, keep)| == if |fleet| < keep then |fleet| else keep
    decreases |fleet|
  {
    if |fleet| <= keep {
      forall e | e in fleet ensures e in Newest(fleet, keep) {
        BeforeIrreflexive(e);
        SubsetSize(NewerThan(e, fleet), fleet - {e});
      }
      assert Newest(fleet, keep) == fleet;
    } else {
      var v := Oldest(fleet);
      var rest := fleet - {v};
      BeforeIrreflexive(v);
      assert NewerThan(v, fleet) == rest;
      NewestCount(rest, keep);
      PassKeepsNewest(fleet, v, keep);
    }
  }

  lemma {:induction false} Oldest(fleet: set<Entry>) returns (v: Entry)
    requires fleet != {} && NamesDiffer(fleet)
    ensures v in fleet && forall e :: e in fleet && e != v ==> Before(v, e)
    decreases |fleet|
  {
    hide Before;
    var some :| some in fleet;
    v := some;
    var rest := fleet - {some};
    if rest == {} {
      assert fleet == rest + {some};
    } else {
      var w := Oldest(rest);
      assert w in fleet && w != some;
      BeforeTotal(some, w);
      v := if Before(w, some) then w else some;
      forall e | e in fleet && e != v ensures Before(v, e) {
        if e != some && e != w {
          assert e in rest && Before(w, e);
          if v == some {
            BeforeTransitive(some, w, e);
          }
        }
      }
    }
  }
}
