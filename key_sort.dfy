/**
 * `ksort($params)` on a parameter array whose keys are non-numeric strings:
 * the entries reordered by key, compared byte by byte.
 */
module KeySort {
  /** One request parameter: name and value. */
  type Param = (string, string)

  /** Lexicographic order on strings; a proper prefix comes first. */
  predicate Less(a: string, b: string)
    decreases |a|
  {
    if a == [] then b != []
    else if b == [] then false
    else if a[0] != b[0] then a[0] < b[0]
    else Less(a[1..], b[1..])
  }

  predicate LessOrEqual(a: string, b: string) {
    a == b || Less(a, b)
  }

  lemma {:induction false} LessIrreflexive(a: string)
    ensures !Less(a, a)
    decreases |a|
  {
    if a != [] {
      LessIrreflexive(a[1..]);
    }
  }

  lemma {:induction false} LessTransitive(a: string, b: string, c: string)
    requires Less(a, b) && Less(b, c)
    ensures Less(a, c)
    decreases |a|
  {
    if a != [] && a[0] == b[0] && b[0] == c[0] {
      LessTransitive(a[1..], b[1..], c[1..]);
    }
  }

  lemma {:induction false} LessTotal(a: string, b: string)
    requires a != b
    ensures Less(a, b) || Less(b, a)
    decreases |a|
  {
    if a != [] && b != [] && a[0] == b[0] {
      assert a == [a[0]] + a[1..] && b == [b[0]] + b[1..];
      LessTotal(a[1..], b[1..]);
    }
  }

  lemma LessOrEqualTransitive(a: string, b: string, c: string)
    requires LessOrEqual(a, b) && LessOrEqual(b, c)
    ensures LessOrEqual(a, c)
  {
    if a != b && b != c {
      LessTransitive(a, b, c);
    }
  }

  /** The keys of a PHP array are distinct. */
  predicate DistinctKeys(ps: seq<Param>) {
    forall i, j :: 0 <= i < j < |ps| ==> ps[i].0 != ps[j].0
  }

  predicate Ordered(ps: seq<Param>) {
    forall i, j :: 0 <= i < j < |ps| ==> LessOrEqual(ps[i].0, ps[j].0)
  }

  predicate StrictlyOrdered(ps: seq<Param>) {
    forall i, j :: 0 <= i < j < |ps| ==> Less(ps[i].0, ps[j].0)
  }

  /** Inserts `p` before the first entry whose key is not smaller than its own. */
  function Insert(p: Param, ps: seq<Param>): (r: seq<Param>)
    ensures multiset(r) == multiset(ps) + multiset{p}
    decreases |ps|
  {
    if ps == [] || !Less(ps[0].0, p.0) then [p] + ps
    else
      assert ps == [ps[0]] + ps[1..];
      [ps[0]] + Insert(p, ps[1..])
  }

  /** `ksort`: the same entries, reordered by key. */
  function KSort(ps: seq<Param>): (r: seq<Param>)
    ensures multiset(r) == multiset(ps)
    decreases |ps|
  {
    if ps == [] then []
    else
      assert ps == [ps[0]] + ps[1..];
      Insert(ps[0], KSort(ps[1..]))
  }

  /** Every entry of `ps` is larger than `p`'s key, so `p` may go in front. */
  lemma InsertFront(p: Param, ps: seq<Param>, strict: bool)
    requires forall j :: 0 <= j < |ps| ==> if strict then Less(p.0, ps[j].0) else LessOrEqual(p.0, ps[j].0)
    requires if strict then StrictlyOrdered(ps) else Ordered(ps)
    ensures if strict then StrictlyOrdered([p] + ps) else Ordered([p] + ps)
  {
    var r := [p] + ps;
    if strict {
      forall i, j | 0 <= i < j < |r| ensures Less(r[i].0, r[j].0) {
        if i > 0 { assert r[i] == ps[i - 1]; }
        assert r[j] == ps[j - 1];
      }
    } else {
      forall i, j | 0 <= i < j < |r| ensures LessOrEqual(r[i].0, r[j].0) {
        if i > 0 { assert r[i] == ps[i - 1]; }
        assert r[j] == ps[j - 1];
      }
    }
  }

  /** Inserting into an ordered list keeps it ordered. */
  lemma {:induction false} InsertOrdered(p: Param, ps: seq<Param>)
    requires Ordered(ps)
    ensures Ordered(Insert(p, ps))
    decreases |ps|
  {
    if ps == [] {
    } else if !Less(ps[0].0, p.0) {
      if p.0 != ps[0].0 {
        LessTotal(p.0, ps[0].0);
      }
      forall j | 0 <= j < |ps| ensures LessOrEqual(p.0, ps[j].0) {
        if j > 0 {
          LessOrEqualTransitive(p.0, ps[0].0, ps[j].0);
        }
      }
      InsertFront(p, ps, false);
    } else {
      var tail := ps[1..];
      InsertOrdered(p, tail);
      var rest := Insert(p, tail);
      forall j | 0 <= j < |rest| ensures LessOrEqual(ps[0].0, rest[j].0) {
        assert rest[j] in multiset(rest);
        if rest[j] != p {
          assert rest[j] in tail;
          var k :| 0 <= k < |tail| && tail[k] == rest[j];
          assert ps[k + 1] == rest[j];
        }
      }
      InsertFront(ps[0], rest, false);
    }
  }

  /** Inserting a new key into a strictly ordered list keeps it strictly ordered. */
  lemma {:induction false} InsertStrictlyOrdered(p: Param, ps: seq<Param>)
    requires StrictlyOrdered(ps)
    requires forall q :: q in ps ==> q.0 != p.0
    ensures StrictlyOrdered(Insert(p, ps))
    decreases |ps|
  {
    if ps == [] {
    } else if !Less(ps[0].0, p.0) {
      assert ps[0] in ps;
      LessTotal(p.0, ps[0].0);
      forall j | 0 <= j < |ps| ensures Less(p.0, ps[j].0) {
        if j > 0 {
          LessTransitive(p.0, ps[0].0, ps[j].0);
        }
      }
      InsertFront(p, ps, true);
    } else {
      var tail := ps[1..];
      forall q | q in tail ensures q.0 != p.0 {
        assert q in ps;
      }
      InsertStrictlyOrdered(p, tail);
      var rest := Insert(p, tail);
      forall j | 0 <= j < |rest| ensures Less(ps[0].0, rest[j].0) {
        assert rest[j] in multiset(rest);
        if rest[j] != p {
          assert rest[j] in tail;
          var k :| 0 <= k < |tail| && tail[k] == rest[j];
          assert ps[k + 1] == rest[j];
        }
      }
      InsertFront(ps[0], rest, true);
    }
  }

  /** `ksort` orders by key; with distinct keys the order is strict. */
  lemma {:induction false} KSortOrdered(ps: seq<Param>)
    ensures Ordered(KSort(ps))
    ensures DistinctKeys(ps) ==> StrictlyOrdered(KSort(ps))
    decreases |ps|
  {
    if ps != [] {
      var tail := ps[1..];
      KSortOrdered(tail);
      InsertOrdered(ps[0], KSort(tail));
      if DistinctKeys(ps) {
        assert DistinctKeys(tail) by {
          forall i, j | 0 <= i < j < |tail| ensures tail[i].0 != tail[j].0 {
            assert tail[i] == ps[i + 1] && tail[j] == ps[j + 1];
          }
        }
        forall q | q in KSort(tail) ensures q.0 != ps[0].0 {
          assert q in multiset(KSort(tail));
          assert q in tail;
          var k :| 0 <= k < |tail| && tail[k] == q;
          assert ps[k + 1] == q;
        }
        InsertStrictlyOrdered(ps[0], KSort(tail));
      }
    }
  }

  /** Two strictly ordered non-empty lists holding the same entries start alike. */
  lemma SameFirst(a: seq<Param>, b: seq<Param>)
    requires a != [] && b != []
    requires StrictlyOrdered(a) && StrictlyOrdered(b)
    requires multiset(a) == multiset(b)
    ensures a[0] == b[0]
  {
    assert a[0] in multiset(b) && b[0] in multiset(a);
    var j :| 0 <= j < |b| && b[j] == a[0];
    var i :| 0 <= i < |a| && a[i] == b[0];
    if i != 0 && j != 0 {
      LessTransitive(a[0].0, b[0].0, a[0].0);
      LessIrreflexive(a[0].0);
      assert false;
    }
  }

  /** Two strictly ordered lists holding the same entries are the same list. */
  lemma {:induction false} StrictlyOrderedUnique(a: seq<Param>, b: seq<Param>)
    requires StrictlyOrdered(a) && StrictlyOrdered(b)
    requires multiset(a) == multiset(b)
    ensures a == b
    decreases |a|
  {
    if a == [] {
      assert |multiset(b)| == 0;
    } else {
      assert |b| == |multiset(b)| == |multiset(a)| == |a|;
      SameFirst(a, b);
      var ta, tb := a[1..], b[1..];
      assert multiset(ta) == multiset(tb) by {
        assert a == [a[0]] + ta && b == [b[0]] + tb;
        assert multiset(a) == multiset{a[0]} + multiset(ta);
        assert multiset(b) == multiset{a[0]} + multiset(tb);
        forall x ensures multiset(ta)[x] == multiset(tb)[x] {
          assert multiset(a)[x] == multiset{a[0]}[x] + multiset(ta)[x];
          assert multiset(b)[x] == multiset{a[0]}[x] + multiset(tb)[x];
        }
      }
      StrictlyOrderedUnique(ta, tb);
      assert a == [a[0]] + ta && b == [b[0]] + tb;
    }
  }

  /**
   * Parameter arrays that hold the same entries in different orders sort to
   * the same list: the order of the call site does not matter.
   */
  lemma KSortIgnoresOrder(p: seq<Param>, q: seq<Param>)
    requires DistinctKeys(p) && DistinctKeys(q)
    requires multiset(p) == multiset(q)
    ensures KSort(p) == KSort(q)
  {
    KSortOrdered(p);
    KSortOrdered(q);
    StrictlyOrderedUnique(KSort(p), KSort(q));
  }
}
