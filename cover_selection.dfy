/**
 * get_precalculated of src/Layers/LayersCache.py: choose cached keys that
 * occur as contiguous runs of the requested tuple, no two overlapping, so
 * that the pairwise overlays still to be done are as few as possible.
 *
 * A key of n layers stands for n - 1 overlays, so a selection "saves" the
 * sum of (length - 1) over its keys. The choice is a weighted interval
 * scheduling problem, solved here by a table best[0..|t|] over end
 * positions: best[i] is an optimal selection inside t[..i].
 */
module CoverSelection {
  import opened Seqs
  import opened Cache

  /** The run t[start..end] of the requested tuple t. */
  datatype Span = Span(start: nat, end: nat)

  /** `s` is a non-empty run of `t` that is one cached key. */
  predicate Cached(keys: set<Key>, t: Key, s: Span)
  {
    s.start < s.end <= |t| && t[s.start..s.end] in keys
  }

  /** All the runs of `t` that are cached keys. */
  function Runs(keys: set<Key>, t: Key): (r: set<Span>)
    ensures forall s :: s in r <==> Cached(keys, t, s)
  {
    var r := set a: nat, b: nat | a < b <= |t| && t[a..b] in keys :: Span(a, b);
    assert forall s :: Cached(keys, t, s) ==> Span(s.start, s.end) in r;
    r
  }

  /** A candidate answer inside the first `upto` positions: runs from `runs`, left to right, no two overlapping. */
  predicate Selection(runs: set<Span>, sel: seq<Span>, upto: nat)
  {
    && (forall i :: 0 <= i < |sel| ==> sel[i] in runs && sel[i].start < sel[i].end <= upto)
    && (forall i, j :: 0 <= i < j < |sel| ==> sel[i].end <= sel[j].start)
  }

  /** The overlays a selection saves: length - 1 per key. */
  function Saving(sel: seq<Span>): int
  {
    if sel == [] then 0
    else Saving(sel[..|sel| - 1]) + (sel[|sel| - 1].end - sel[|sel| - 1].start - 1)
  }

  /** One row of the table: a selection with its saving. */
  datatype Plan = Plan(saving: int, spans: seq<Span>)

  /** A row that is a real answer inside the first `upto` positions: its runs have at least two layers. */
  predicate Good(runs: set<Span>, p: Plan, upto: nat)
  {
    && Selection(runs, p.spans, upto)
    && p.saving == Saving(p.spans)
    && forall i :: 0 <= i < |p.spans| ==> p.spans[i].end - p.spans[i].start >= 2
  }

  /** Appending a span after the last one adds its length - 1 to the saving. */
  lemma SavingAppend(sel: seq<Span>, s: Span)
    ensures Saving(sel + [s]) == Saving(sel) + (s.end - s.start - 1)
  {
    assert (sel + [s])[..|sel|] == sel;
  }

  /** A row inside the first s positions followed by the cached run s..i is a row inside the first i. */
  lemma AppendRun(runs: set<Span>, p: Plan, s: nat, i: nat)
    requires s + 2 <= i && Span(s, i) in runs
    requires Good(runs, p, s)
    ensures Good(runs, Plan(p.saving + (i - s) - 1, p.spans + [Span(s, i)]), i)
  {
    SavingAppend(p.spans, Span(s, i));
  }

  /**
   * Tries the cached runs i-len..i for len = len0..i, each on top of the
   * best row for the first i-len positions, keeping the first strictly
   * better candidate.
   */
  function Extend(runs: set<Span>, tbl: seq<Plan>, i: nat, len: nat, best: Plan): Plan
    requires |tbl| == i && 2 <= len
    decreases i + 1 - len
  {
    if len > i then best
    else
      var prev := tbl[i - len];
      var cand := Plan(prev.saving + len - 1, prev.spans + [Span(i - len, i)]);
      Extend(runs, tbl, i, len + 1,
        if Span(i - len, i) in runs && cand.saving > best.saving then cand else best)
  }

  /**
   * Extend's answer is no worse than the row it starts from, nor than any
   * cached run s..i of at least `len` layers put on top of row s.
   */
  lemma {:induction false} ExtendBest(runs: set<Span>, tbl: seq<Plan>, i: nat, len: nat, best: Plan)
    requires |tbl| == i && 2 <= len
    ensures Extend(runs, tbl, i, len, best).saving >= best.saving
    ensures forall s :: 0 <= s && s + len <= i && Span(s, i) in runs ==>
              Extend(runs, tbl, i, len, best).saving >= tbl[s].saving + (i - s) - 1
    decreases i + 1 - len
  {
    if len <= i {
      var prev := tbl[i - len];
      var cand := Plan(prev.saving + len - 1, prev.spans + [Span(i - len, i)]);
      ExtendBest(runs, tbl, i, len + 1,
        if Span(i - len, i) in runs && cand.saving > best.saving then cand else best);
    }
  }

  /** Extend only ever puts a cached run of two or more layers on a real row. */
  lemma {:induction false} ExtendGood(runs: set<Span>, tbl: seq<Plan>, i: nat, len: nat, best: Plan)
    requires |tbl| == i && 2 <= len
    requires forall j :: 0 <= j < i ==> Good(runs, tbl[j], j)
    requires Good(runs, best, i)
    ensures Good(runs, Extend(runs, tbl, i, len, best), i)
    decreases i + 1 - len
  {
    if len <= i {
      var prev := tbl[i - len];
      var cand := Plan(prev.saving + len - 1, prev.spans + [Span(i - len, i)]);
      if Span(i - len, i) in runs && cand.saving > best.saving {
        AppendRun(runs, prev, i - len, i);
        ExtendGood(runs, tbl, i, len + 1, cand);
      } else {
        ExtendGood(runs, tbl, i, len + 1, best);
      }
    }
  }

  /** The rows best[0..n]: row i is an optimal selection inside the first i positions. */
  function Table(runs: set<Span>, n: nat): (tbl: seq<Plan>)
    ensures |tbl| == n + 1
  {
    if n == 0 then [Plan(0, [])]
    else
      var prev := Table(runs, n - 1);
      prev + [Extend(runs, prev, n, 2, prev[n - 1])]
  }

  /** Every row of the table is a selection of runs of two or more cached layers. */
  lemma {:induction false} TableGood(runs: set<Span>, n: nat)
    ensures forall i :: 0 <= i <= n ==> Good(runs, Table(runs, n)[i], i)
  {
    if n > 0 {
      TableGood(runs, n - 1);
      var prev := Table(runs, n - 1);
      ExtendGood(runs, prev, n, 2, prev[n - 1]);
    }
  }

  /** The selected runs of t: the last row of the table. */
  function Cover(keys: set<Key>, t: Key): (sel: seq<Span>)
    ensures Selection(Runs(keys, t), sel, |t|)
    ensures forall i :: 0 <= i < |sel| ==> sel[i].end - sel[i].start >= 2
  {
    TableGood(Runs(keys, t), |t|);
    Table(Runs(keys, t), |t|)[|t|].spans
  }

  /** get_precalculated: the keys of the selected runs, left to right. */
  function Precalculated(keys: set<Key>, t: Key): (r: seq<Key>)
    ensures |r| == |Cover(keys, t)|
    ensures forall j :: 0 <= j < |r| ==> r[j] in keys && |r[j]| >= 2
    ensures forall j :: 0 <= j < |r| ==> r[j] == t[Cover(keys, t)[j].start..Cover(keys, t)[j].end]
  {
    var sel := Cover(keys, t);
    assert forall j :: 0 <= j < |sel| ==> Cached(keys, t, sel[j]);
    seq(|sel|, j requires 0 <= j < |sel| => t[sel[j].start..sel[j].end])
  }
}

module CoverSelectionProofs {
  import opened Seqs
  import opened Cache
  import opened CoverSelection

  /** Row m of the table does not depend on how far the table is built. */
  lemma {:induction false} TablePrefix(runs: set<Span>, m: nat, n: nat)
    requires m <= n
    ensures Table(runs, n)[m] == Table(runs, m)[m]
    decreases n
  {
    if m < n {
      TablePrefix(runs, m, n - 1);
    }
  }

  /** What row n gains over the rows before it: the facts Extend establishes. */
  lemma RowStep(runs: set<Span>, n: nat)
    requires 1 <= n
    ensures Table(runs, n)[n].saving >= Table(runs, n - 1)[n - 1].saving
    ensures forall s :: 0 <= s && s + 2 <= n && Span(s, n) in runs ==>
              Table(runs, n)[n].saving >= Table(runs, n - 1)[s].saving + (n - s) - 1
  {
    var prev := Table(runs, n - 1);
    assert Table(runs, n)[n] == Extend(runs, prev, n, 2, prev[n - 1]);
    ExtendBest(runs, prev, n, 2, prev[n - 1]);
  }

  /** Dropping the last run of a selection leaves a selection inside the first (its start) positions. */
  lemma DropLast(runs: set<Span>, sel: seq<Span>, n: nat)
    requires Selection(runs, sel, n) && sel != []
    ensures sel[|sel| - 1] in runs
    ensures Selection(runs, sel[..|sel| - 1], sel[|sel| - 1].start)
  {
    var pre := sel[..|sel| - 1];
    forall i | 0 <= i < |pre|
      ensures pre[i] in runs && pre[i].start < pre[i].end <= sel[|sel| - 1].start
    {
      assert pre[i] == sel[i];
    }
  }

  /** Row n is optimal: no selection inside the first n positions saves more. */
  lemma {:induction false} RowOptimal(runs: set<Span>, n: nat, sel: seq<Span>)
    requires Selection(runs, sel, n)
    ensures Saving(sel) <= Table(runs, n)[n].saving
    decreases n
  {
    if n > 0 {
      RowStep(runs, n);
      if sel == [] || sel[|sel| - 1].end < n {
        RowOptimal(runs, n - 1, sel);
      } else {
        var last := sel[|sel| - 1];
        DropLast(runs, sel, n);
        RowOptimal(runs, last.start, sel[..|sel| - 1]);
        TablePrefix(runs, last.start, n - 1);
      }
    }
  }

  /**
   * The selection returned by get_precalculated saves at least as many
   * overlays as any other set of non-overlapping cached runs of t.
   */
  lemma CoverOptimal(keys: set<Key>, t: Key, sel: seq<Span>)
    requires Selection(Runs(keys, t), sel, |t|)
    ensures Saving(sel) <= Saving(Cover(keys, t))
  {
    var runs := Runs(keys, t);
    TableGood(runs, |t|);
    RowOptimal(runs, |t|, sel);
  }

  /** get_precalculated is empty exactly when no run of two or more layers of t is cached. */
  lemma PrecalculatedEmpty(keys: set<Key>, t: Key)
    ensures Precalculated(keys, t) == [] <==>
            forall a, b :: 0 <= a && a + 2 <= b <= |t| ==> t[a..b] !in keys
  {
    var cover := Cover(keys, t);
    if cover != [] {
      assert Cached(keys, t, cover[0]);
      assert Precalculated(keys, t)[0] == t[cover[0].start..cover[0].end];
    }
    if a, b :| 0 <= a && a + 2 <= b <= |t| && t[a..b] in keys {
      var one := [Span(a, b)];
      assert Selection(Runs(keys, t), one, |t|) by {
        assert Cached(keys, t, one[0]);
      }
      assert one[..0] == [];
      CoverOptimal(keys, t, one);
    }
  }

  /** Saving adds up over concatenation. */
  lemma {:induction false} SavingConcat(a: seq<Span>, b: seq<Span>)
    ensures Saving(a + b) == Saving(a) + Saving(b)
    decreases |b|
  {
    if b != [] {
      var b' := b[..|b| - 1];
      assert a + b == (a + b') + [b[|b| - 1]];
      assert b == b' + [b[|b| - 1]];
      SavingAppend(a + b', b[|b| - 1]);
      SavingAppend(b', b[|b| - 1]);
      SavingConcat(a, b');
    } else {
      assert a + b == a;
    }
  }

  /** The number of leading spans that end at or before x. */
  function SplitPoint(sel: seq<Span>, x: nat): (k: nat)
    ensures k <= |sel|
    ensures forall j :: 0 <= j < k ==> sel[j].end <= x
    ensures k < |sel| ==> sel[k].end > x
  {
    if sel == [] || sel[0].end > x then 0 else 1 + SplitPoint(sel[1..], x)
  }

  /** Two runs of t share a position. */
  predicate Overlap(s: Span, u: Span)
  {
    s.start < u.end && u.start < s.end
  }

  /** `sel` with `s` put in at its place in the left-to-right order. */
  function Inserted(sel: seq<Span>, s: Span): seq<Span>
  {
    var k := SplitPoint(sel, s.start);
    sel[..k] + [s] + sel[k..]
  }

  /** A run overlapping none of a selection's runs can be put into it. */
  lemma InsertedSelection(runs: set<Span>, sel: seq<Span>, s: Span, upto: nat)
    requires Selection(runs, sel, upto)
    requires s in runs && s.start < s.end <= upto
    requires forall j :: 0 <= j < |sel| ==> !Overlap(sel[j], s)
    ensures Selection(runs, Inserted(sel, s), upto)
  {
    var k := SplitPoint(sel, s.start);
    forall j | k <= j < |sel|
      ensures sel[j].start >= s.end
    {
      if j > k {
        assert sel[k].end <= sel[j].start;
      }
      assert !Overlap(sel[j], s);
    }
    var bigger := Inserted(sel, s);
    assert |bigger| == |sel| + 1;
    assert forall i :: 0 <= i < k ==> bigger[i] == sel[i];
    assert bigger[k] == s;
    assert forall i :: k < i < |bigger| ==> bigger[i] == sel[i - 1];
    forall i, j | 0 <= i < j < |bigger|
      ensures bigger[i].end <= bigger[j].start
    {
      if j < k || i > k {
        var i', j' := if i < k then i else i - 1, if j < k then j else j - 1;
        assert bigger[i] == sel[i'] && bigger[j] == sel[j'];
      }
    }
  }

  /** Putting a run into a selection adds its length - 1 to the saving. */
  lemma InsertedSaving(sel: seq<Span>, s: Span)
    ensures Saving(Inserted(sel, s)) == Saving(sel) + (s.end - s.start - 1)
  {
    var k := SplitPoint(sel, s.start);
    var left, right := sel[..k], sel[k..];
    assert sel == left + right;
    SavingConcat(left + [s], right);
    SavingAppend(left, s);
    SavingConcat(left, right);
  }

  /**
   * No cached run of two or more layers is left out while it could be
   * added: every such run overlaps one of the selected runs.
   */
  lemma CoverMaximal(keys: set<Key>, t: Key, s: Span)
    requires Cached(keys, t, s) && s.end - s.start >= 2
    ensures exists j :: 0 <= j < |Cover(keys, t)| && Overlap(Cover(keys, t)[j], s)
  {
    var cover := Cover(keys, t);
    if forall j :: 0 <= j < |cover| ==> !Overlap(cover[j], s) {
      InsertedSelection(Runs(keys, t), cover, s, |t|);
      InsertedSaving(cover, s);
      CoverOptimal(keys, t, Inserted(cover, s));
      assert false;
    }
  }

  /**
   * For a strictly ascending request (every render target is one), no layer
   * occurs in two of the returned keys.
   */
  lemma PrecalculatedDisjoint(keys: set<Key>, t: Key, i: nat, j: nat, x: LayerIndex)
    requires StrictlyAscending(t)
    requires i < j < |Precalculated(keys, t)|
    ensures !(x in Precalculated(keys, t)[i] && x in Precalculated(keys, t)[j])
  {
    var cover := Cover(keys, t);
    var r := Precalculated(keys, t);
    assert Cached(keys, t, cover[i]) && Cached(keys, t, cover[j]);

  }

  /**
   * A key occurs at most once as a run of a strictly ascending tuple, so
   * keeping only the leftmost occurrence of each key loses nothing there.
   */
  lemma OccursOnce(t: Key, k: Key, a: nat, b: nat)
    requires StrictlyAscending(t) && |k| >= 1
    requires a + |k| <= |t| && t[a..a + |k|] == k
    requires b + |k| <= |t| && t[b..b + |k|] == k
    ensures a == b
  {
    assert t[a] == t[a..a + |k|][0] == k[0] == t[b..b + |k|][0] == t[b];
    AscendingInjective(t, a, b);
  }
}
