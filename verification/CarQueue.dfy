/** The waiting queue of the service centre: an array kept in two-level order.

    The order, the shifting insertion and the sort are described by functions on
    sequences of entries; what those functions mean is proved by lemmas. The class
    `PriorityQueue` in PriorityQueue.dfy works in place and is proved against them. */
module CarQueue {

  /** The three fields of a car record that the queue reads. */
  datatype Entry = Entry(id: nat, priority: int, enterTime: int)

  /** The guard of both shifting loops: a goes strictly in front of b. */
  predicate Before(a: Entry, b: Entry) {
    || a.priority > b.priority
    || (a.priority == b.priority && a.enterTime < b.enterTime)
  }

  predicate SameKey(a: Entry, b: Entry) {
    a.priority == b.priority && a.enterTime == b.enterTime
  }

  ghost predicate Sorted(q: seq<Entry>) {
    forall i, j :: 0 <= i < j < |q| ==> !Before(q[j], q[i])
  }

  ghost predicate DistinctIds(q: seq<Entry>) {
    forall i, j :: 0 <= i < j < |q| ==> q[i].id != q[j].id
  }

  ghost predicate Has(q: seq<Entry>, id: nat) {
    exists j :: 0 <= j < |q| && q[j].id == id
  }

  /** a stands somewhere in front of b. */
  ghost predicate Precedes(q: seq<Entry>, a: Entry, b: Entry) {
    exists i, j :: 0 <= i < j < |q| && q[i] == a && q[j] == b
  }

  /** Where a shifting loop that starts at the back stops. */
  function Place(q: seq<Entry>, e: Entry): (k: nat)
    ensures k <= |q|
    ensures forall j :: k <= j < |q| ==> Before(e, q[j])
    ensures k > 0 ==> !Before(e, q[k - 1])
  {
    if q == [] || !Before(e, q[|q| - 1]) then |q| else Place(q[..|q| - 1], e)
  }

  function Insert(q: seq<Entry>, e: Entry): seq<Entry> {
    var k := Place(q, e);
    q[..k] + [e] + q[k..]
  }

  function Sort(q: seq<Entry>): (r: seq<Entry>)
    ensures |r| == |q|
  {
    if q == [] then [] else Insert(Sort(q[..|q| - 1]), q[|q| - 1])
  }

  /** What one pass of the aging monitor does to an entry. */
  function Aged(e: Entry, now: int, threshold: real): Entry {
    if e.priority == 0 && (now - e.enterTime) as real >= threshold then e.(priority := 1) else e
  }

  function AgeAll(q: seq<Entry>, now: int, threshold: real): (r: seq<Entry>)
    ensures |r| == |q|
    ensures forall j :: 0 <= j < |q| ==> r[j] == Aged(q[j], now, threshold)
  {
    seq(|q|, j requires 0 <= j < |q| => Aged(q[j], now, threshold))
  }

  /** The entries with one particular key, in queue order. */
  function Tier(q: seq<Entry>, key: Entry): seq<Entry> {
    if q == [] then []
    else
      var rest := Tier(q[..|q| - 1], key);
      if SameKey(q[|q| - 1], key) then rest + [q[|q| - 1]] else rest
  }

  // ----- placing -----

  /** `Place` is the only position with its two properties when nothing behind it
      stops the loop. */
  lemma PlaceIs(q: seq<Entry>, e: Entry, k: nat)
    requires k <= |q|
    requires forall j :: k <= j < |q| ==> Before(e, q[j])
    requires k > 0 ==> !Before(e, q[k - 1])
    ensures Place(q, e) == k
  {
  }

  // ----- tiers -----

  lemma {:induction false} TierConcat(a: seq<Entry>, b: seq<Entry>, key: Entry)
    ensures Tier(a + b, key) == Tier(a, key) + Tier(b, key)
  {
    if b == [] {
      assert a + b == a;
    } else {
      assert (a + b)[..|a + b| - 1] == a + b[..|b| - 1];
      TierConcat(a, b[..|b| - 1], key);
    }
  }

  lemma {:induction false} TierNone(q: seq<Entry>, key: Entry)
    requires forall j :: 0 <= j < |q| ==> !SameKey(q[j], key)
    ensures Tier(q, key) == []
  {
    if q != [] {
      TierNone(q[..|q| - 1], key);
    }
  }

  lemma {:induction false} TierHas(q: seq<Entry>, j: nat)
    requires j < |q|
    ensures q[j] in Tier(q, q[j])
  {
    if j < |q| - 1 {
      TierHas(q[..|q| - 1], j);
    }
  }

  lemma {:induction false} TierFrom(q: seq<Entry>, key: Entry, e: Entry)
    requires e in Tier(q, key)
    ensures e in q && SameKey(e, key)
  {
    if e in Tier(q[..|q| - 1], key) {
      TierFrom(q[..|q| - 1], key, e);
    }
  }

  /** An insertion puts the new entry behind every entry with the same key and leaves
      the order inside every tier as it was. */
  lemma {:induction false} InsertIsStable(q: seq<Entry>, e: Entry, key: Entry)
    ensures Tier(Insert(q, e), key) == Tier(q, key) + (if SameKey(e, key) then [e] else [])
  {
    var k := Place(q, e);
    TierConcat(q[..k] + [e], q[k..], key);
    TierConcat(q[..k], [e], key);
    TierConcat(q[..k], q[k..], key);
    assert q[..k] + q[k..] == q;
    assert [e][..0] == [];
    if SameKey(e, key) {
      TierNone(q[k..], key);
    }
  }

  /** Sorting is a stable permutation: every tier keeps its entries and their order. */
  lemma {:induction false} SortIsStable(q: seq<Entry>, key: Entry)
    ensures Tier(Sort(q), key) == Tier(q, key)
  {
    if q != [] {
      SortIsStable(q[..|q| - 1], key);
      InsertIsStable(Sort(q[..|q| - 1]), q[|q| - 1], key);
    }
  }

  // ----- order -----

  lemma InsertKeepsSorted(q: seq<Entry>, e: Entry)
    requires Sorted(q)
    ensures Sorted(Insert(q, e))
  {
    var k := Place(q, e);
    var r := Insert(q, e);
    forall i, j | 0 <= i < j < |r| ensures !Before(r[j], r[i]) {
      if i < k && j == k {
        assert !Before(q[k - 1], q[i]) || i == k - 1;
      } else if j > k {
        assert r[j] == q[j - 1];
        if i > k { assert r[i] == q[i - 1]; }
      }
    }
  }

  lemma {:induction false} SortSorts(q: seq<Entry>)
    ensures Sorted(Sort(q))
  {
    if q != [] {
      SortSorts(q[..|q| - 1]);
      InsertKeepsSorted(Sort(q[..|q| - 1]), q[|q| - 1]);
    }
  }

  ghost predicate SameTiers(q: seq<Entry>, r: seq<Entry>) {
    forall key :: Tier(q, key) == Tier(r, key)
  }

  lemma SameTiersSameEntries(q: seq<Entry>, r: seq<Entry>, j: nat)
    requires SameTiers(q, r) && j < |q|
    ensures q[j] in r
  {
    TierHas(q, j);
    assert Tier(q, q[j]) == Tier(r, q[j]);
    TierFrom(r, q[j], q[j]);
  }

  lemma LastEntriesAgree(q: seq<Entry>, r: seq<Entry>)
    requires Sorted(q) && Sorted(r) && SameTiers(q, r) && q != [] && r != []
    ensures q[|q| - 1] == r[|r| - 1]
  {
    var x, y := q[|q| - 1], r[|r| - 1];
    SameTiersSameEntries(q, r, |q| - 1);
    SameTiersSameEntries(r, q, |r| - 1);
    assert SameKey(x, y);
    assert Tier(q, x)[|Tier(q, x)| - 1] == x;
    assert Tier(r, x)[|Tier(r, x)| - 1] == y;
    assert Tier(q, x) == Tier(r, x);
  }

  lemma WithoutLastSameTiers(q: seq<Entry>, r: seq<Entry>, x: Entry)
    requires SameTiers(q + [x], r + [x])
    ensures SameTiers(q, r)
  {
    forall key ensures Tier(q, key) == Tier(r, key) {
      assert Tier(q + [x], key) == Tier(r + [x], key);
      TierConcat(q, [x], key);
      TierConcat(r, [x], key);
      var tq, tr, tx := Tier(q, key), Tier(r, key), Tier([x], key);
      assert |tq| == |tr|;
      assert tq == (tq + tx)[..|tq|] == (tr + tx)[..|tr|] == tr;
    }
  }

  /** Two sorted queues with the same tiers are the same queue. */
  lemma {:induction false} SortedWithSameTiersIsUnique(q: seq<Entry>, r: seq<Entry>)
    requires Sorted(q) && Sorted(r) && SameTiers(q, r)
    ensures q == r
    decreases |q|
  {
    if q == [] {
      if r != [] { SameTiersSameEntries(r, q, 0); }
    } else {
      SameTiersSameEntries(q, r, 0);
      LastEntriesAgree(q, r);
      var x, q', r' := q[|q| - 1], q[..|q| - 1], r[..|r| - 1];
      assert q == q' + [x] && r == r' + [x];
      WithoutLastSameTiers(q', r', x);
      SortedWithSameTiersIsUnique(q', r');
    }
  }

  /** The sort computes the one queue that is sorted and has the input's tiers. */
  lemma SortIsTheStableOrder(q: seq<Entry>, r: seq<Entry>)
    ensures r == Sort(q) <==> Sorted(r) && SameTiers(r, q)
  {
    SortSorts(q);
    forall key ensures Tier(Sort(q), key) == Tier(q, key) {
      SortIsStable(q, key);
    }
    if Sorted(r) && SameTiers(r, q) {
      forall key ensures Tier(r, key) == Tier(Sort(q), key) {
        assert Tier(r, key) == Tier(q, key);
      }
      SortedWithSameTiersIsUnique(r, Sort(q));
    }
  }

  // ----- contents -----

  lemma InsertContents(q: seq<Entry>, e: Entry)
    ensures multiset(Insert(q, e)) == multiset(q) + multiset{e}
  {
    var k := Place(q, e);
    assert q == q[..k] + q[k..];
  }

  lemma {:induction false} SortContents(q: seq<Entry>)
    ensures multiset(Sort(q)) == multiset(q)
  {
    if q != [] {
      SortContents(q[..|q| - 1]);
      InsertContents(Sort(q[..|q| - 1]), q[|q| - 1]);
      assert q == q[..|q| - 1] + [q[|q| - 1]];
    }
  }

  lemma InsertHas(q: seq<Entry>, e: Entry, id: nat)
    ensures Has(Insert(q, e), id) <==> Has(q, id) || id == e.id
  {
    var k := Place(q, e);
    var r := Insert(q, e);
    if j :| 0 <= j < |q| && q[j].id == id {
      assert r[if j < k then j else j + 1].id == id;
    }
    if j :| 0 <= j < |r| && r[j].id == id {
      assert j != k ==> q[if j < k then j else j - 1].id == id;
    }
    assert r[k] == e;
  }

  lemma InsertDistinct(q: seq<Entry>, e: Entry)
    requires DistinctIds(q) && !Has(q, e.id)
    ensures DistinctIds(Insert(q, e))
  {
  }

  lemma {:induction false} SortHas(q: seq<Entry>, id: nat)
    ensures Has(Sort(q), id) <==> Has(q, id)
  {
    if q != [] {
      var n := |q| - 1;
      SortHas(q[..n], id);
      InsertHas(Sort(q[..n]), q[n], id);
      assert forall j :: 0 <= j < n ==> q[..n][j] == q[j];
      assert Has(q, id) <==> Has(q[..n], id) || q[n].id == id;
    }
  }

  lemma {:induction false} SortDistinct(q: seq<Entry>)
    requires DistinctIds(q)
    ensures DistinctIds(Sort(q))
  {
    if q != [] {
      var n := |q| - 1;
      SortDistinct(q[..n]);
      SortHas(q[..n], q[n].id);
      InsertDistinct(Sort(q[..n]), q[n]);
    }
  }

  // ----- who can get in front of whom -----

  lemma InsertKeepsOrder(q: seq<Entry>, e: Entry, a: Entry, b: Entry)
    requires Precedes(q, a, b)
    ensures Precedes(Insert(q, e), a, b)
  {
    var k := Place(q, e);
    var r := Insert(q, e);
    var i, j :| 0 <= i < j < |q| && q[i] == a && q[j] == b;
    var i', j' := if i < k then i else i + 1, if j < k then j else j + 1;
    assert r[i'] == a && r[j'] == b;
  }

  lemma InsertGoesBehind(q: seq<Entry>, e: Entry, a: Entry)
    requires a in q && !Before(e, a)
    ensures Precedes(Insert(q, e), a, e)
  {
    var k := Place(q, e);
    var r := Insert(q, e);
    var i :| 0 <= i < |q| && q[i] == a;
    assert i < k;
    assert r[i] == a && r[k] == e;
  }

  /** An entry that stood in front keeps its place against every entry that has no
      strictly better key. */
  lemma {:induction false} SortKeepsOrder(q: seq<Entry>, i: nat, j: nat)
    requires i < j < |q| && !Before(q[j], q[i])
    ensures Precedes(Sort(q), q[i], q[j])
  {
    var n := |q| - 1;
    var front := q[..n];
    assert front[i] == q[i];
    if j < n {
      assert front[j] == q[j];
      SortKeepsOrder(front, i, j);
      InsertKeepsOrder(Sort(front), q[n], q[i], q[j]);
    } else {
      SortContents(front);
      assert q[i] in multiset(front);
      InsertGoesBehind(Sort(front), q[n], q[i]);
    }
  }
}
