/**
 * The id namespace of the server: every id is drawn with
 * `random.randint(100000, 999999)`, so there are 900000 of them, shared by
 * music, track and job ids.
 */
module IdSpace {

  const MinId: nat := 100000
  const MaxId: nat := 999999
  /** The number of ids `randint(MinId, MaxId)` can return. */
  const Span: nat := MaxId - MinId + 1

  predicate InRange(id: int) { MinId <= id <= MaxId }

  /** No id occurs twice in the list. */
  predicate Distinct(ids: seq<nat>)
  {
    forall i, j :: 0 <= i < j < |ids| ==> ids[i] != ids[j]
  }

  /** The integers from `lo` up to but not including `hi`. */
  function Interval(lo: int, hi: int): (r: set<int>)
    ensures forall x :: x in r <==> lo <= x < hi
    ensures lo <= hi ==> |r| == hi - lo
    decreases hi - lo
  {
    if hi <= lo then {} else Interval(lo, hi - 1) + {hi - 1}
  }

  function Elements(ids: seq<nat>): (r: set<int>)
    ensures forall x :: x in r <==> x in ids
  {
    set x | x in ids
  }

  lemma {:induction false} ElementsSize(ids: seq<nat>)
    ensures |Elements(ids)| <= |ids|
  {
    if |ids| > 0 {
      var init := ids[..|ids| - 1];
      ElementsSize(init);
      assert ids == init + [ids[|ids| - 1]];
      assert Elements(ids) == Elements(init) + {ids[|ids| - 1]};
    }
  }

  lemma SubsetSize(a: set<int>, b: set<int>)
    requires a <= b
    ensures |a| <= |b|
  {
    assert b == a + (b - a);
    assert a * (b - a) == {};
  }

  /**
   * While fewer than `Span` ids have been drawn, the redraw loop of
   * generateID has an id left to find.
   */
  lemma FreshIdExists(used: seq<nat>)
    requires |used| < Span
    ensures exists id: nat :: InRange(id) && id !in used
  {
    var all := Interval(MinId, MaxId + 1);
    ElementsSize(used);
    if all <= Elements(used) {
      SubsetSize(all, Elements(used));
      assert false;
    }
    var id :| id in all && id !in Elements(used);
    assert InRange(id) && id !in used;
  }
}
