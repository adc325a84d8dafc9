/** Reference definitions for the grid's sprite preparation: the bottom-up
    Fisher–Yates shuffle driven by an oracle of random indices, the pairing
    step that lists every chosen catalog entry twice, and the whole
    preparation of one level's sprites. */
module Shuffle {
  import opened Seqs
  import opened Enums

  /** What `Random.Range(i, n)` may return at step `i` of a shuffle of `n`
      elements: an index in `[i, n)`. */
  ghost predicate ValidRolls(rolls: seq<int>, n: nat) {
    |rolls| == n && forall i :: 0 <= i < n ==> i <= rolls[i] < n
  }

  function Swap<T>(s: seq<T>, i: nat, j: nat): seq<T>
    requires i < |s| && j < |s|
  {
    s[i := s[j]][j := s[i]]
  }

  /** The shuffle from step `i` on: swap `i` with its roll, continue at `i + 1`. */
  function ShuffleFrom<T>(s: seq<T>, rolls: seq<int>, i: nat): seq<T>
    requires |rolls| == |s| && i <= |s|
    requires forall k :: i <= k < |s| ==> k <= rolls[k] < |s|
    decreases |s| - i
  {
    if i == |s| then s else ShuffleFrom(Swap(s, i, rolls[i]), rolls, i + 1)
  }

  function FisherYates<T>(s: seq<T>, rolls: seq<int>): seq<T>
    requires ValidRolls(rolls, |s|)
  {
    ShuffleFrom(s, rolls, 0)
  }

  lemma SwapPermutes<T>(s: seq<T>, i: nat, j: nat)
    requires i < |s| && j < |s|
    ensures |Swap(s, i, j)| == |s| && multiset(Swap(s, i, j)) == multiset(s)
  {
  }

  lemma {:induction false} ShuffleFromPermutes<T>(s: seq<T>, rolls: seq<int>, i: nat)
    requires |rolls| == |s| && i <= |s|
    requires forall k :: i <= k < |s| ==> k <= rolls[k] < |s|
    ensures |ShuffleFrom(s, rolls, i)| == |s|
    ensures multiset(ShuffleFrom(s, rolls, i)) == multiset(s)
    decreases |s| - i
  {
    if i < |s| {
      SwapPermutes(s, i, rolls[i]);
      ShuffleFromPermutes(Swap(s, i, rolls[i]), rolls, i + 1);
    }
  }

  /** The shuffle returns a permutation of its input, whatever the rolls. */
  lemma FisherYatesPermutes<T>(s: seq<T>, rolls: seq<int>)
    requires ValidRolls(rolls, |s|)
    ensures |FisherYates(s, rolls)| == |s|
    ensures multiset(FisherYates(s, rolls)) == multiset(s)
  {
    ShuffleFromPermutes(s, rolls, 0);
  }

  /** Every entry twice, side by side: `[a, b]` becomes `[a, a, b, b]`. */
  function Doubled<T>(s: seq<T>): seq<T>
  {
    if s == [] then [] else Doubled(s[..|s| - 1]) + [s[|s| - 1], s[|s| - 1]]
  }

  lemma {:induction false} DoubledShape<T>(s: seq<T>)
    ensures |Doubled(s)| == 2 * |s|
    ensures multiset(Doubled(s)) == multiset(s) + multiset(s)
    ensures forall k :: 0 <= k < |s| ==> Doubled(s)[2 * k] == s[k] && Doubled(s)[2 * k + 1] == s[k]
  {
    if s != [] {
      var init := s[..|s| - 1];
      DoubledShape(init);
      assert s == init + [s[|s| - 1]];
      assert multiset(s) == multiset(init) + multiset{s[|s| - 1]};
    }
  }

  /** The number of pairs laid out for `total` tiles from a catalog of
      `catalogSize` entries: none for an odd tile count or an empty catalog,
      else half the tiles, clamped to the catalog size. */
  function PairCount(total: int, catalogSize: nat): (n: nat)
    ensures n <= catalogSize
    ensures total % 2 == 0 && total >= 0 && catalogSize >= total / 2 ==> 2 * n == total
    ensures total % 2 == 0 && catalogSize > 0 && catalogSize < total / 2 ==> n == catalogSize
    ensures total % 2 != 0 ==> n == 0
  {
    if total % 2 != 0 || catalogSize == 0 then 0
    else
      var pairs := total / 2;
      if pairs > catalogSize then catalogSize
      else if pairs < 0 then 0
      else pairs
  }

  /** The sprites prepared for a level: shuffle the whole catalog, take the
      first `PairCount` entries, list each twice, shuffle again. */
  function PreparedSprites(catalog: seq<CardData>, data: GridData, allRolls: seq<int>, pairRolls: seq<int>): seq<CardData>
    requires ValidRolls(allRolls, |catalog|)
    requires ValidRolls(pairRolls, 2 * PairCount(data.gridRows * data.gridColumns, |catalog|))
  {
    var n := PairCount(data.gridRows * data.gridColumns, |catalog|);
    if data.gridRows * data.gridColumns % 2 != 0 || |catalog| == 0 then []
    else
      FisherYatesPermutes(catalog, allRolls);
      DoubledShape(FisherYates(catalog, allRolls)[..n]);
      FisherYates(Doubled(FisherYates(catalog, allRolls)[..n]), pairRolls)
  }

  /** The chosen entries: the first `PairCount` of the shuffled catalog. */
  function Selected(catalog: seq<CardData>, data: GridData, allRolls: seq<int>): (sel: seq<CardData>)
    requires ValidRolls(allRolls, |catalog|)
    ensures |sel| == PairCount(data.gridRows * data.gridColumns, |catalog|)
    ensures multiset(sel) <= multiset(catalog)
  {
    var n := PairCount(data.gridRows * data.gridColumns, |catalog|);
    FisherYatesPermutes(catalog, allRolls);
    var all := FisherYates(catalog, allRolls);
    assert all == all[..n] + all[n..];
    all[..n]
  }

  /** The prepared sprites hold `2 * PairCount` cards: every chosen entry
      twice, and nothing else. Odd tile counts and empty catalogs give none. */
  lemma PreparedSpritesShape(catalog: seq<CardData>, data: GridData, allRolls: seq<int>, pairRolls: seq<int>)
    requires ValidRolls(allRolls, |catalog|)
    requires ValidRolls(pairRolls, 2 * PairCount(data.gridRows * data.gridColumns, |catalog|))
    ensures var r := PreparedSprites(catalog, data, allRolls, pairRolls);
      var sel := Selected(catalog, data, allRolls);
      |r| == 2 * PairCount(data.gridRows * data.gridColumns, |catalog|) &&
      multiset(r) == multiset(sel) + multiset(sel)
    ensures data.gridRows * data.gridColumns % 2 != 0 ==> PreparedSprites(catalog, data, allRolls, pairRolls) == []
    ensures |catalog| == 0 ==> PreparedSprites(catalog, data, allRolls, pairRolls) == []
  {
    var n := PairCount(data.gridRows * data.gridColumns, |catalog|);
    var sel := Selected(catalog, data, allRolls);
    if data.gridRows * data.gridColumns % 2 != 0 || |catalog| == 0 {
    } else {
      DoubledShape(sel);
      FisherYatesPermutes(Doubled(sel), pairRolls);
    }
  }

  /** A repeat-free sequence counts each of its elements once. */
  lemma {:induction false} NoDupCountsOnce<T>(s: seq<T>, x: T)
    requires NoDup(s)
    ensures multiset(s)[x] <= 1
  {
    if s != [] {
      assert s == [s[0]] + s[1..];
      assert NoDup(s[1..]) by {
        forall i, j | 0 <= i < j < |s[1..]| ensures s[1..][i] != s[1..][j] {
          assert s[1..][i] == s[i + 1] && s[1..][j] == s[j + 1];
        }
      }
      NoDupCountsOnce(s[1..], x);
      if x == s[0] {
        assert x !in s[1..] by {
          forall j | 0 <= j < |s[1..]| ensures s[1..][j] != x {
            assert s[1..][j] == s[j + 1];
          }
        }
      }
    }
  }

  /** With a repeat-free catalog, every prepared card's entry is a catalog
      entry and occurs exactly twice. */
  lemma PreparedSpritesPairs(catalog: seq<CardData>, data: GridData, allRolls: seq<int>, pairRolls: seq<int>, x: CardData)
    requires ValidRolls(allRolls, |catalog|)
    requires ValidRolls(pairRolls, 2 * PairCount(data.gridRows * data.gridColumns, |catalog|))
    requires NoDup(catalog)
    requires x in PreparedSprites(catalog, data, allRolls, pairRolls)
    ensures x in catalog
    ensures multiset(PreparedSprites(catalog, data, allRolls, pairRolls))[x] == 2
  {
    PreparedSpritesShape(catalog, data, allRolls, pairRolls);
    var sel := Selected(catalog, data, allRolls);
    assert x in multiset(PreparedSprites(catalog, data, allRolls, pairRolls));
    assert x in multiset(sel);
    assert x in multiset(catalog);
    NoDupCountsOnce(catalog, x);
  }

  /** A catalog short of half the tiles yields fewer prepared sprites than
      tiles, so the grid build that follows refuses to lay out any card. */
  lemma ShortCatalogFallsShort(catalog: seq<CardData>, data: GridData, allRolls: seq<int>, pairRolls: seq<int>)
    requires ValidRolls(allRolls, |catalog|)
    requires ValidRolls(pairRolls, 2 * PairCount(data.gridRows * data.gridColumns, |catalog|))
    requires data.gridRows * data.gridColumns % 2 == 0
    requires |catalog| < data.gridRows * data.gridColumns / 2
    ensures |PreparedSprites(catalog, data, allRolls, pairRolls)| < data.gridRows * data.gridColumns
  {
    PreparedSpritesShape(catalog, data, allRolls, pairRolls);
  }

  /** A catalog of at least half the tiles fills an even, non-negative grid. */
  lemma FullCatalogFillsGrid(catalog: seq<CardData>, data: GridData, allRolls: seq<int>, pairRolls: seq<int>)
    requires ValidRolls(allRolls, |catalog|)
    requires ValidRolls(pairRolls, 2 * PairCount(data.gridRows * data.gridColumns, |catalog|))
    requires data.gridRows * data.gridColumns % 2 == 0 && data.gridRows * data.gridColumns >= 0
    requires |catalog| >= data.gridRows * data.gridColumns / 2
    ensures |PreparedSprites(catalog, data, allRolls, pairRolls)| == data.gridRows * data.gridColumns
  {
    PreparedSpritesShape(catalog, data, allRolls, pairRolls);
  }
}
