/**
 * The favourite relation as the list of `user_save_images` rows, and the two
 * operations the services apply to it: delete every row of one (user, image)
 * pair, and toggle a pair. The table has no unique constraint on the pair, so
 * "at most one row per pair" is an invariant the toggle has to keep.
 */
module FavoriteRows {
  import opened Entities

  /** The rows of `rows` that satisfy `keep`, in their original order. */
  function Filter(rows: seq<Favorite>, keep: Favorite -> bool): (r: seq<Favorite>)
    ensures |r| <= |rows|
    ensures forall g :: g in r <==> g in rows && keep(g)
  {
    if rows == [] then []
    else
      assert rows == [rows[0]] + rows[1..];
      (if keep(rows[0]) then [rows[0]] else []) + Filter(rows[1..], keep)
  }

  /** Filtering keeps every selected row as often as it occurred, and no other row. */
  lemma {:induction false} FilterMultiset(rows: seq<Favorite>, keep: Favorite -> bool)
    ensures forall g :: multiset(Filter(rows, keep))[g] == if keep(g) then multiset(rows)[g] else 0
  {
    if rows != [] {
      assert rows == [rows[0]] + rows[1..];
      FilterMultiset(rows[1..], keep);
    }
  }

  /** Filtering keeps every row when every row passes. */
  lemma {:induction false} FilterKeepsAll(rows: seq<Favorite>, keep: Favorite -> bool)
    requires forall g :: g in rows ==> keep(g)
    ensures Filter(rows, keep) == rows
  {
    if rows != [] {
      FilterKeepsAll(rows[1..], keep);
    }
  }

  /** Filtering distributes over concatenation. */
  lemma {:induction false} FilterAppend(a: seq<Favorite>, b: seq<Favorite>, keep: Favorite -> bool)
    ensures Filter(a + b, keep) == Filter(a, keep) + Filter(b, keep)
  {
    if a == [] {
      assert a + b == b;
    } else {
      assert (a + b)[1..] == a[1..] + b;
      FilterAppend(a[1..], b, keep);
    }
  }

  /** No (user, image) pair has more than one row. */
  ghost predicate AtMostOnce(rows: seq<Favorite>) {
    forall g :: multiset(rows)[g] <= 1
  }

  /** `deleteByUserAndImage`: every row of the pair `f` goes, the others stay in order. */
  function RemovePair(rows: seq<Favorite>, f: Favorite): (r: seq<Favorite>)
    ensures f !in r
  {
    Filter(rows, g => g != f)
  }

  /** Deleting a pair leaves the rows of every other pair as they were. */
  lemma RemovePairKeepsOthers(rows: seq<Favorite>, f: Favorite)
    ensures forall g :: g != f ==> multiset(RemovePair(rows, f))[g] == multiset(rows)[g]
    ensures AtMostOnce(rows) ==> AtMostOnce(RemovePair(rows, f))
  {
    FilterMultiset(rows, g => g != f);
  }

  /** Deleting a pair that has no row changes nothing. */
  lemma RemoveAbsentPair(rows: seq<Favorite>, f: Favorite)
    requires f !in rows
    ensures RemovePair(rows, f) == rows
  {
    FilterKeepsAll(rows, g => g != f);
  }

  /** Deleting the same pair twice is the same as deleting it once. */
  lemma RemovePairIdempotent(rows: seq<Favorite>, f: Favorite)
    ensures RemovePair(RemovePair(rows, f), f) == RemovePair(rows, f)
  {
    RemoveAbsentPair(RemovePair(rows, f), f);
  }

  /**
   * The toggle of `saveImage`: delete the pair's rows when it has one,
   * otherwise append one new row for it.
   */
  function Toggle(rows: seq<Favorite>, f: Favorite): (r: seq<Favorite>)
    ensures (f in r) <==> (f !in rows)
  {
    if f in rows then RemovePair(rows, f) else rows + [f]
  }

  /**
   * A toggle changes the rows of its own pair only, and keeps "at most one row
   * per pair".
   */
  lemma ToggleKeepsOthers(rows: seq<Favorite>, f: Favorite)
    ensures forall g :: g != f ==> multiset(Toggle(rows, f))[g] == multiset(rows)[g]
    ensures AtMostOnce(rows) ==> AtMostOnce(Toggle(rows, f))
  {
    RemovePairKeepsOthers(rows, f);
  }

  /** Two toggles of an absent pair give back exactly the same rows. */
  lemma ToggleTwiceFromAbsent(rows: seq<Favorite>, f: Favorite)
    requires f !in rows
    ensures Toggle(Toggle(rows, f), f) == rows
  {
    FilterAppend(rows, [f], g => g != f);
    RemoveAbsentPair(rows, f);
    assert Filter([f], g => g != f) == [];
  }

  /**
   * Two toggles restore the favourite relation: with at most one row per pair,
   * the same rows are present the same number of times (the re-inserted row of a
   * present pair moves to the end of the table).
   */
  lemma ToggleTwiceRestores(rows: seq<Favorite>, f: Favorite)
    requires AtMostOnce(rows)
    ensures multiset(Toggle(Toggle(rows, f), f)) == multiset(rows)
  {
    var once := Toggle(rows, f);
    var twice := Toggle(once, f);
    ToggleKeepsOthers(rows, f);
    ToggleKeepsOthers(once, f);
    forall g ensures multiset(twice)[g] == multiset(rows)[g] {
      if g == f {
        assert multiset(twice)[g] <= 1 && multiset(rows)[g] <= 1;
        assert (g in twice) <==> (g in rows);
      }
    }
    assert multiset(twice) == multiset(rows);
  }

  /**
   * Deleting a pair that has exactly one row removes one row from every
   * selection that contains the pair, and none from any other.
   */
  lemma {:induction false} RemoveSingleRowCount(rows: seq<Favorite>, f: Favorite, keep: Favorite -> bool)
    requires multiset(rows)[f] == 1
    ensures |Filter(RemovePair(rows, f), keep)| == if keep(f) then |Filter(rows, keep)| - 1 else |Filter(rows, keep)|
  {
    var rest := rows[1..];
    assert rows == [rows[0]] + rest;
    if rows[0] == f {
      assert f !in rest;
      RemoveAbsentPair(rest, f);
      assert RemovePair(rows, f) == rest;
    } else {
      assert RemovePair(rows, f) == [rows[0]] + RemovePair(rest, f);
      RemoveSingleRowCount(rest, f, keep);
      assert Filter([rows[0]] + RemovePair(rest, f), keep)
             == (if keep(rows[0]) then [rows[0]] else []) + Filter(RemovePair(rest, f), keep);
    }
  }

  /**
   * A toggle moves the number of rows selected by `keep` by exactly one when
   * `keep` selects the toggled pair (up when the pair was absent, down when it
   * was present), and leaves that number alone otherwise.
   */
  lemma ToggleCount(rows: seq<Favorite>, f: Favorite, keep: Favorite -> bool)
    requires AtMostOnce(rows)
    ensures |Filter(Toggle(rows, f), keep)|
            == if !keep(f) then |Filter(rows, keep)|
               else if f in rows then |Filter(rows, keep)| - 1
               else |Filter(rows, keep)| + 1
  {
    if f in rows {
      assert multiset(rows)[f] == 1;
      RemoveSingleRowCount(rows, f, keep);
    } else {
      FilterAppend(rows, [f], keep);
      assert Filter([f], keep) == if keep(f) then [f] else [];
    }
  }

  /** The rows after `n` consecutive toggles of the same pair. */
  function ToggleTimes(rows: seq<Favorite>, f: Favorite, n: nat): seq<Favorite> {
    if n == 0 then rows else Toggle(ToggleTimes(rows, f, n - 1), f)
  }

  /** Each further toggle flips whether the pair is present. */
  lemma ToggleTimesStep(rows: seq<Favorite>, f: Favorite, n: nat)
    requires n > 0
    ensures (f in ToggleTimes(rows, f, n)) <==> (f !in ToggleTimes(rows, f, n - 1))
  {
  }

  /** `n` is odd, counted down one toggle at a time. */
  predicate Odd(n: nat) {
    n > 0 && !Odd(n - 1)
  }

  lemma {:induction false} OddIsRemainderOne(n: nat)
    ensures Odd(n) <==> n % 2 == 1
  {
    if n > 0 {
      OddIsRemainderOne(n - 1);
    }
  }

  /**
   * After `n` sequential toggles the pair is present exactly when it started
   * absent and `n` is odd, or started present and `n` is even.
   */
  lemma {:induction false} ToggleParity(rows: seq<Favorite>, f: Favorite, n: nat)
    ensures (f in ToggleTimes(rows, f, n)) <==> ((f in rows) != Odd(n))
  {
    if n > 0 {
      ToggleParity(rows, f, n - 1);
      ToggleTimesStep(rows, f, n);
    }
  }

  /**
   * Sequential toggles of one pair leave every other pair's rows as they were and
   * never give any pair a second row.
   */
  lemma {:induction false} ToggleTimesKeepsOthers(rows: seq<Favorite>, f: Favorite, n: nat)
    requires AtMostOnce(rows)
    ensures forall g :: g != f ==> multiset(ToggleTimes(rows, f, n))[g] == multiset(rows)[g]
    ensures AtMostOnce(ToggleTimes(rows, f, n))
  {
    if n > 0 {
      ToggleTimesKeepsOthers(rows, f, n - 1);
      var prev := ToggleTimes(rows, f, n - 1);
      ToggleKeepsOthers(prev, f);
      assert ToggleTimes(rows, f, n) == Toggle(prev, f);
    }
  }
}
