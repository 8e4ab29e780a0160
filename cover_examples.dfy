
/** The examples of get_precalculated in its doc-comment and its tests, worked out. */
module CoverSelectionExamples {
  import opened Cache
  import opened CoverSelection
  import opened CoverSelectionProofs

  /** In a tuple of consecutive layers starting at c, a run is fixed by its first layer and its length. */
  lemma RunOfConsecutive(t: Key, c: nat, k: Key, a: nat, b: nat)
    requires forall j :: 0 <= j < |t| ==> t[j] == j + c
    requires a < b <= |t| && t[a..b] == k
    ensures |k| == b - a && k[0] == a + c
  {
    assert k[0] == t[a];
  }

  /** Lengths for which the run ending at i is not cached leave Extend's candidate as it is. */
  lemma {:induction false} ExtendSkip(runs: set<Span>, tbl: seq<Plan>, i: nat, len: nat, upto: nat, best: Plan)
    requires |tbl| == i && 2 <= len <= upto <= i + 1
    requires forall s :: i + 1 - upto <= s <= i - len ==> Span(s, i) !in runs
    ensures Extend(runs, tbl, i, len, best) == Extend(runs, tbl, i, upto, best)
    decreases upto - len
  {
    if len < upto {
      ExtendSkip(runs, tbl, i, len + 1, upto, best);
    }
  }

  /** The cached runs of the request in DocExample. */
  lemma DocExampleRuns(K: set<Key>, T: Key)
    requires K == {[1, 2], [1, 2, 3], [0, 1, 2, 3], [5, 6]} && T == [1, 2, 3, 4, 5, 6]
    ensures Runs(K, T) == {Span(0, 2), Span(0, 3), Span(4, 6)}
  {
    forall j | 0 <= j < |T| ensures T[j] == j + 1 { }
    forall s | s in Runs(K, T) ensures s in {Span(0, 2), Span(0, 3), Span(4, 6)} {
      RunOfConsecutive(T, 1, T[s.start..s.end], s.start, s.end);
    }
    assert T[0..2] == [1, 2];
    assert T[0..3] == [1, 2, 3];
    assert T[4..6] == [5, 6];
  }

  lemma DocExampleRow1(runs: set<Span>)
    requires runs == {Span(0, 2), Span(0, 3), Span(4, 6)}
    ensures Table(runs, 1) == [Plan(0, []), Plan(0, [])]
  {
    var tbl := Table(runs, 0);
    ExtendSkip(runs, tbl, 1, 2, 2, Plan(0, []));
  }

  lemma DocExampleRow2(runs: set<Span>)
    requires runs == {Span(0, 2), Span(0, 3), Span(4, 6)}
    ensures Table(runs, 2) == [Plan(0, []), Plan(0, []), Plan(1, [Span(0, 2)])]
  {
    DocExampleRow1(runs);
    var tbl := Table(runs, 1);
    assert Extend(runs, tbl, 2, 2, Plan(0, [])) == Extend(runs, tbl, 2, 3, Plan(1, [Span(0, 2)]));
    ExtendSkip(runs, tbl, 2, 3, 3, Plan(1, [Span(0, 2)]));
  }

  lemma DocExampleRow3(runs: set<Span>)
    requires runs == {Span(0, 2), Span(0, 3), Span(4, 6)}
    ensures Table(runs, 3) == [Plan(0, []), Plan(0, []), Plan(1, [Span(0, 2)]), Plan(2, [Span(0, 3)])]
  {
    DocExampleRow2(runs);
    var tbl := Table(runs, 2);
    ExtendSkip(runs, tbl, 3, 2, 3, Plan(1, [Span(0, 2)]));
    assert Extend(runs, tbl, 3, 3, Plan(1, [Span(0, 2)])) == Extend(runs, tbl, 3, 4, Plan(2, [Span(0, 3)]));
    ExtendSkip(runs, tbl, 3, 4, 4, Plan(2, [Span(0, 3)]));
  }

  lemma DocExampleRow4(runs: set<Span>)
    requires runs == {Span(0, 2), Span(0, 3), Span(4, 6)}
    ensures Table(runs, 4) == [Plan(0, []), Plan(0, []), Plan(1, [Span(0, 2)]), Plan(2, [Span(0, 3)]), Plan(2, [Span(0, 3)])]
  {
    DocExampleRow3(runs);
    var tbl := Table(runs, 3);
    ExtendSkip(runs, tbl, 4, 2, 5, Plan(2, [Span(0, 3)]));
  }

  lemma DocExampleRow5(runs: set<Span>)
    requires runs == {Span(0, 2), Span(0, 3), Span(4, 6)}
    ensures Table(runs, 5) == [Plan(0, []), Plan(0, []), Plan(1, [Span(0, 2)]), Plan(2, [Span(0, 3)]), Plan(2, [Span(0, 3)]), Plan(2, [Span(0, 3)])]
  {
    DocExampleRow4(runs);
    var tbl := Table(runs, 4);
    ExtendSkip(runs, tbl, 5, 2, 6, Plan(2, [Span(0, 3)]));
  }

  lemma DocExampleRow6(runs: set<Span>)
    requires runs == {Span(0, 2), Span(0, 3), Span(4, 6)}
    ensures Table(runs, 6) == [Plan(0, []), Plan(0, []), Plan(1, [Span(0, 2)]), Plan(2, [Span(0, 3)]), Plan(2, [Span(0, 3)]), Plan(2, [Span(0, 3)]), Plan(3, [Span(0, 3), Span(4, 6)])]
  {
    DocExampleRow5(runs);
    var tbl := Table(runs, 5);
    assert Extend(runs, tbl, 6, 2, Plan(2, [Span(0, 3)])) == Extend(runs, tbl, 6, 3, Plan(3, [Span(0, 3), Span(4, 6)]));
    ExtendSkip(runs, tbl, 6, 3, 7, Plan(3, [Span(0, 3), Span(4, 6)]));
  }

  /** The doc-comment example: (0,1,2,3) is not a run of (1..6), and (1,2,3) beats (1,2). */
  lemma DocExample(K: set<Key>, T: Key)
    requires K == {[1, 2], [1, 2, 3], [0, 1, 2, 3], [5, 6]} && T == [1, 2, 3, 4, 5, 6]
    ensures Precalculated(K, T) == [[1, 2, 3], [5, 6]]
  {
    assert T[0..3] == [1, 2, 3];
    assert T[4..6] == [5, 6];
    DocExampleRuns(K, T);
    DocExampleRow6({Span(0, 2), Span(0, 3), Span(4, 6)});
    assert Cover(K, T) == [Span(0, 3), Span(4, 6)];
    var r := Precalculated(K, T);
    assert r[0] == T[0..3];
    assert r[1] == T[4..6];
  }

  /** The cached runs of the request in OverlappingChoices. */
  lemma OverlappingChoicesRuns(K: set<Key>, T: Key)
    requires K == {[1, 2], [2, 3], [1, 2, 3], [4, 5, 6]} && T == [1, 2, 3, 4, 5, 6]
    ensures Runs(K, T) == {Span(0, 2), Span(0, 3), Span(1, 3), Span(3, 6)}
  {
    forall j | 0 <= j < |T| ensures T[j] == j + 1 { }
    forall s | s in Runs(K, T) ensures s in {Span(0, 2), Span(0, 3), Span(1, 3), Span(3, 6)} {
      RunOfConsecutive(T, 1, T[s.start..s.end], s.start, s.end);
    }
    assert T[0..2] == [1, 2];
    assert T[0..3] == [1, 2, 3];
    assert T[1..3] == [2, 3];
    assert T[3..6] == [4, 5, 6];
  }

  lemma OverlappingChoicesRow1(runs: set<Span>)
    requires runs == {Span(0, 2), Span(0, 3), Span(1, 3), Span(3, 6)}
    ensures Table(runs, 1) == [Plan(0, []), Plan(0, [])]
  {
    var tbl := Table(runs, 0);
    ExtendSkip(runs, tbl, 1, 2, 2, Plan(0, []));
  }

  lemma OverlappingChoicesRow2(runs: set<Span>)
    requires runs == {Span(0, 2), Span(0, 3), Span(1, 3), Span(3, 6)}
    ensures Table(runs, 2) == [Plan(0, []), Plan(0, []), Plan(1, [Span(0, 2)])]
  {
    OverlappingChoicesRow1(runs);
    var tbl := Table(runs, 1);
    assert Extend(runs, tbl, 2, 2, Plan(0, [])) == Extend(runs, tbl, 2, 3, Plan(1, [Span(0, 2)]));
    ExtendSkip(runs, tbl, 2, 3, 3, Plan(1, [Span(0, 2)]));
  }

  lemma OverlappingChoicesRow3(runs: set<Span>)
    requires runs == {Span(0, 2), Span(0, 3), Span(1, 3), Span(3, 6)}
    ensures Table(runs, 3) == [Plan(0, []), Plan(0, []), Plan(1, [Span(0, 2)]), Plan(2, [Span(0, 3)])]
  {
    OverlappingChoicesRow2(runs);
    var tbl := Table(runs, 2);
    assert Extend(runs, tbl, 3, 2, Plan(1, [Span(0, 2)])) == Extend(runs, tbl, 3, 3, Plan(1, [Span(0, 2)]));
    assert Extend(runs, tbl, 3, 3, Plan(1, [Span(0, 2)])) == Extend(runs, tbl, 3, 4, Plan(2, [Span(0, 3)]));
    ExtendSkip(runs, tbl, 3, 4, 4, Plan(2, [Span(0, 3)]));
  }

  lemma OverlappingChoicesRow4(runs: set<Span>)
    requires runs == {Span(0, 2), Span(0, 3), Span(1, 3), Span(3, 6)}
    ensures Table(runs, 4) == [Plan(0, []), Plan(0, []), Plan(1, [Span(0, 2)]), Plan(2, [Span(0, 3)]), Plan(2, [Span(0, 3)])]
  {
    OverlappingChoicesRow3(runs);
    var tbl := Table(runs, 3);
    ExtendSkip(runs, tbl, 4, 2, 5, Plan(2, [Span(0, 3)]));
  }

  lemma OverlappingChoicesRow5(runs: set<Span>)
    requires runs == {Span(0, 2), Span(0, 3), Span(1, 3), Span(3, 6)}
    ensures Table(runs, 5) == [Plan(0, []), Plan(0, []), Plan(1, [Span(0, 2)]), Plan(2, [Span(0, 3)]), Plan(2, [Span(0, 3)]), Plan(2, [Span(0, 3)])]
  {
    OverlappingChoicesRow4(runs);
    var tbl := Table(runs, 4);
    ExtendSkip(runs, tbl, 5, 2, 6, Plan(2, [Span(0, 3)]));
  }

  lemma OverlappingChoicesRow6(runs: set<Span>)
    requires runs == {Span(0, 2), Span(0, 3), Span(1, 3), Span(3, 6)}
    ensures Table(runs, 6) == [Plan(0, []), Plan(0, []), Plan(1, [Span(0, 2)]), Plan(2, [Span(0, 3)]), Plan(2, [Span(0, 3)]), Plan(2, [Span(0, 3)]), Plan(4, [Span(0, 3), Span(3, 6)])]
  {
    OverlappingChoicesRow5(runs);
    var tbl := Table(runs, 5);
    ExtendSkip(runs, tbl, 6, 2, 3, Plan(2, [Span(0, 3)]));
    assert Extend(runs, tbl, 6, 3, Plan(2, [Span(0, 3)])) == Extend(runs, tbl, 6, 4, Plan(4, [Span(0, 3), Span(3, 6)]));
    ExtendSkip(runs, tbl, 6, 4, 7, Plan(4, [Span(0, 3), Span(3, 6)]));
  }

  /** Among overlapping cached runs the longer (1,2,3) is chosen, together with (4,5,6). */
  lemma OverlappingChoices(K: set<Key>, T: Key)
    requires K == {[1, 2], [2, 3], [1, 2, 3], [4, 5, 6]} && T == [1, 2, 3, 4, 5, 6]
    ensures Precalculated(K, T) == [[1, 2, 3], [4, 5, 6]]
  {
    assert T[0..3] == [1, 2, 3];
    assert T[3..6] == [4, 5, 6];
    OverlappingChoicesRuns(K, T);
    OverlappingChoicesRow6({Span(0, 2), Span(0, 3), Span(1, 3), Span(3, 6)});
    assert Cover(K, T) == [Span(0, 3), Span(3, 6)];
    var r := Precalculated(K, T);
    assert r[0] == T[0..3];
    assert r[1] == T[3..6];
  }

  /** The cached runs of the request in PartialMatch. */
  lemma PartialMatchRuns(K: set<Key>, T: Key)
    requires K == {[1, 2], [3, 4], [6, 7, 8]} && T == [1, 2, 3, 4, 5, 6, 7, 8, 9]
    ensures Runs(K, T) == {Span(0, 2), Span(2, 4), Span(5, 8)}
  {
    forall j | 0 <= j < |T| ensures T[j] == j + 1 { }
    forall s | s in Runs(K, T) ensures s in {Span(0, 2), Span(2, 4), Span(5, 8)} {
      RunOfConsecutive(T, 1, T[s.start..s.end], s.start, s.end);
    }
    assert T[0..2] == [1, 2];
    assert T[2..4] == [3, 4];
    assert T[5..8] == [6, 7, 8];
  }

  lemma PartialMatchRow1(runs: set<Span>)
    requires runs == {Span(0, 2), Span(2, 4), Span(5, 8)}
    ensures Table(runs, 1) == [Plan(0, []), Plan(0, [])]
  {
    var tbl := Table(runs, 0);
    ExtendSkip(runs, tbl, 1, 2, 2, Plan(0, []));
  }

  lemma PartialMatchRow2(runs: set<Span>)
    requires runs == {Span(0, 2), Span(2, 4), Span(5, 8)}
    ensures Table(runs, 2) == [Plan(0, []), Plan(0, []), Plan(1, [Span(0, 2)])]
  {
    PartialMatchRow1(runs);
    var tbl := Table(runs, 1);
    assert Extend(runs, tbl, 2, 2, Plan(0, [])) == Extend(runs, tbl, 2, 3, Plan(1, [Span(0, 2)]));
    ExtendSkip(runs, tbl, 2, 3, 3, Plan(1, [Span(0, 2)]));
  }

  lemma PartialMatchRow3(runs: set<Span>)
    requires runs == {Span(0, 2), Span(2, 4), Span(5, 8)}
    ensures Table(runs, 3) == [Plan(0, []), Plan(0, []), Plan(1, [Span(0, 2)]), Plan(1, [Span(0, 2)])]
  {
    PartialMatchRow2(runs);
    var tbl := Table(runs, 2);
    ExtendSkip(runs, tbl, 3, 2, 4, Plan(1, [Span(0, 2)]));
  }

  lemma PartialMatchRow4(runs: set<Span>)
    requires runs == {Span(0, 2), Span(2, 4), Span(5, 8)}
    ensures Table(runs, 4) == [Plan(0, []), Plan(0, []), Plan(1, [Span(0, 2)]), Plan(1, [Span(0, 2)]), Plan(2, [Span(0, 2), Span(2, 4)])]
  {
    PartialMatchRow3(runs);
    var tbl := Table(runs, 3);
    assert Extend(runs, tbl, 4, 2, Plan(1, [Span(0, 2)])) == Extend(runs, tbl, 4, 3, Plan(2, [Span(0, 2), Span(2, 4)]));
    ExtendSkip(runs, tbl, 4, 3, 5, Plan(2, [Span(0, 2), Span(2, 4)]));
  }

  lemma PartialMatchRow5(runs: set<Span>)
    requires runs == {Span(0, 2), Span(2, 4), Span(5, 8)}
    ensures Table(runs, 5) == [Plan(0, []), Plan(0, []), Plan(1, [Span(0, 2)]), Plan(1, [Span(0, 2)]), Plan(2, [Span(0, 2), Span(2, 4)]), Plan(2, [Span(0, 2), Span(2, 4)])]
  {
    PartialMatchRow4(runs);
    var tbl := Table(runs, 4);
    ExtendSkip(runs, tbl, 5, 2, 6, Plan(2, [Span(0, 2), Span(2, 4)]));
  }

  lemma PartialMatchRow6(runs: set<Span>)
    requires runs == {Span(0, 2), Span(2, 4), Span(5, 8)}
    ensures Table(runs, 6) == [Plan(0, []), Plan(0, []), Plan(1, [Span(0, 2)]), Plan(1, [Span(0, 2)]), Plan(2, [Span(0, 2), Span(2, 4)]), Plan(2, [Span(0, 2), Span(2, 4)]), Plan(2, [Span(0, 2), Span(2, 4)])]
  {
    PartialMatchRow5(runs);
    var tbl := Table(runs, 5);
    ExtendSkip(runs, tbl, 6, 2, 7, Plan(2, [Span(0, 2), Span(2, 4)]));
  }

  lemma PartialMatchRow7(runs: set<Span>)
    requires runs == {Span(0, 2), Span(2, 4), Span(5, 8)}
    ensures Table(runs, 7) == [Plan(0, []), Plan(0, []), Plan(1, [Span(0, 2)]), Plan(1, [Span(0, 2)]), Plan(2, [Span(0, 2), Span(2, 4)]), Plan(2, [Span(0, 2), Span(2, 4)]), Plan(2, [Span(0, 2), Span(2, 4)]), Plan(2, [Span(0, 2), Span(2, 4)])]
  {
    PartialMatchRow6(runs);
    var tbl := Table(runs, 6);
    ExtendSkip(runs, tbl, 7, 2, 8, Plan(2, [Span(0, 2), Span(2, 4)]));
  }

  lemma PartialMatchRow8(runs: set<Span>)
    requires runs == {Span(0, 2), Span(2, 4), Span(5, 8)}
    ensures Table(runs, 8) == [Plan(0, []), Plan(0, []), Plan(1, [Span(0, 2)]), Plan(1, [Span(0, 2)]), Plan(2, [Span(0, 2), Span(2, 4)]), Plan(2, [Span(0, 2), Span(2, 4)]), Plan(2, [Span(0, 2), Span(2, 4)]), Plan(2, [Span(0, 2), Span(2, 4)]), Plan(4, [Span(0, 2), Span(2, 4), Span(5, 8)])]
  {
    PartialMatchRow7(runs);
    var tbl := Table(runs, 7);
    ExtendSkip(runs, tbl, 8, 2, 3, Plan(2, [Span(0, 2), Span(2, 4)]));
    assert Extend(runs, tbl, 8, 3, Plan(2, [Span(0, 2), Span(2, 4)])) == Extend(runs, tbl, 8, 4, Plan(4, [Span(0, 2), Span(2, 4), Span(5, 8)]));
    ExtendSkip(runs, tbl, 8, 4, 9, Plan(4, [Span(0, 2), Span(2, 4), Span(5, 8)]));
  }

  lemma PartialMatchRow9(runs: set<Span>)
    requires runs == {Span(0, 2), Span(2, 4), Span(5, 8)}
    ensures Table(runs, 9) == [Plan(0, []), Plan(0, []), Plan(1, [Span(0, 2)]), Plan(1, [Span(0, 2)]), Plan(2, [Span(0, 2), Span(2, 4)]), Plan(2, [Span(0, 2), Span(2, 4)]), Plan(2, [Span(0, 2), Span(2, 4)]), Plan(2, [Span(0, 2), Span(2, 4)]), Plan(4, [Span(0, 2), Span(2, 4), Span(5, 8)]), Plan(4, [Span(0, 2), Span(2, 4), Span(5, 8)])]
  {
    PartialMatchRow8(runs);
    var tbl := Table(runs, 8);
    ExtendSkip(runs, tbl, 9, 2, 10, Plan(4, [Span(0, 2), Span(2, 4), Span(5, 8)]));
  }

  /** All disjoint matches are kept, left to right. */
  lemma PartialMatch(K: set<Key>, T: Key)
    requires K == {[1, 2], [3, 4], [6, 7, 8]} && T == [1, 2, 3, 4, 5, 6, 7, 8, 9]
    ensures Precalculated(K, T) == [[1, 2], [3, 4], [6, 7, 8]]
  {
    assert T[0..2] == [1, 2];
    assert T[2..4] == [3, 4];
    assert T[5..8] == [6, 7, 8];
    PartialMatchRuns(K, T);
    PartialMatchRow9({Span(0, 2), Span(2, 4), Span(5, 8)});
    assert Cover(K, T) == [Span(0, 2), Span(2, 4), Span(5, 8)];
    var r := Precalculated(K, T);
    assert r[0] == T[0..2];
    assert r[1] == T[2..4];
    assert r[2] == T[5..8];
  }

  /** No cache entries: nothing is returned (the no-cache test). */
  lemma NoCache()
    ensures Precalculated({}, [7, 8, 9]) == []
  {
    PrecalculatedEmpty({}, [7, 8, 9]);
  }
}
