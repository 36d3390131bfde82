/** The combinations of a parameter grid, in product order (StrategyOptimizer._all_combinations). */
module Grid {

  /** One parameter and the values to try, in order. */
  datatype Axis<V> = Axis(key: string, values: seq<V>)

  /** Every row followed by every value, the values varying fastest. */
  function Extend<V>(rows: seq<seq<V>>, values: seq<V>): seq<seq<V>> {
    if |rows| == 0 then []
    else
      var n := |rows| - 1;
      Extend(rows[..n], values) + seq(|values|, j requires 0 <= j < |values| => rows[n] + [values[j]])
  }

  /** The Cartesian product; of no lists at all, the one empty row. */
  function Product<V>(lists: seq<seq<V>>): seq<seq<V>> {
    if |lists| == 0 then [[]] else Extend(Product(lists[..|lists| - 1]), lists[|lists| - 1])
  }

  function Lists<V>(grid: seq<Axis<V>>): (lists: seq<seq<V>>)
    ensures |lists| == |grid|
  {
    seq(|grid|, i requires 0 <= i < |grid| => grid[i].values)
  }

  function Zip<V>(grid: seq<Axis<V>>, row: seq<V>): map<string, V>
    requires |row| == |grid|
  {
    if |grid| == 0 then map[]
    else
      var n := |grid| - 1;
      Zip(grid[..n], row[..n])[grid[n].key := row[n]]
  }

  function AllCombinations<V>(grid: seq<Axis<V>>): (combos: seq<map<string, V>>)
    ensures |combos| == |Product(Lists(grid))|
  {
    var rows := Product(Lists(grid));
    seq(|rows|, k requires 0 <= k < |rows| => (RowLength(Lists(grid), k); Zip(grid, rows[k])))
  }

  ghost predicate DistinctKeys<V>(grid: seq<Axis<V>>) {
    forall i, j :: 0 <= i < j < |grid| ==> grid[i].key != grid[j].key
  }

  ghost predicate NoRepeats<V(!new)>(values: seq<V>) {
    forall i, j :: 0 <= i < j < |values| ==> values[i] != values[j]
  }

  // ---- the product ----

  ghost predicate Chosen<V>(lists: seq<seq<V>>, row: seq<V>) {
    |row| == |lists| && forall i :: 0 <= i < |lists| ==> row[i] in lists[i]
  }

  /** Where a row of the extension comes from. */
  lemma {:induction false} ExtendedFrom<V>(rows: seq<seq<V>>, values: seq<V>, k: nat)
    requires k < |Extend(rows, values)|
    ensures exists i, j :: 0 <= i < |rows| && 0 <= j < |values| && Extend(rows, values)[k] == rows[i] + [values[j]]
  {
    var n := |rows| - 1;
    var before := Extend(rows[..n], values);
    if k < |before| {
      ExtendedFrom(rows[..n], values, k);
      var i, j :| 0 <= i < n && 0 <= j < |values| && before[k] == rows[..n][i] + [values[j]];
      assert Extend(rows, values)[k] == rows[i] + [values[j]];
    } else {
      assert Extend(rows, values)[k] == rows[n] + [values[k - |before|]];
    }
  }

  lemma {:induction false} RowLength<V>(lists: seq<seq<V>>, k: nat)
    requires k < |Product(lists)|
    ensures |Product(lists)[k]| == |lists|
  {
    if |lists| > 0 {
      var n := |lists| - 1;
      var rows := Product(lists[..n]);
      ExtendedFrom(rows, lists[n], k);
      var i, j :| 0 <= i < |rows| && 0 <= j < |lists[n]| && Extend(rows, lists[n])[k] == rows[i] + [lists[n][j]];
      RowLength(lists[..n], i);
    }
  }

  lemma {:induction false} ExtendReaches<V>(rows: seq<seq<V>>, values: seq<V>, i: nat, j: nat)
    requires i < |rows| && j < |values|
    ensures rows[i] + [values[j]] in Extend(rows, values)
  {
    var n := |rows| - 1;
    var before := Extend(rows[..n], values);
    if i < n {
      ExtendReaches(rows[..n], values, i, j);
      assert before + seq(|values|, j requires 0 <= j < |values| => rows[n] + [values[j]]) == Extend(rows, values);
    } else {
      assert Extend(rows, values)[|before| + j] == rows[i] + [values[j]];
    }
  }

  lemma LastChosen<V>(lists: seq<seq<V>>, row: seq<V>)
    requires |row| == |lists| > 0
    ensures var n := |lists| - 1; Chosen(lists, row) <==> Chosen(lists[..n], row[..n]) && row[n] in lists[n]
  {
    var n := |lists| - 1;
    if Chosen(lists[..n], row[..n]) && row[n] in lists[n] {
      forall i | 0 <= i < |lists| ensures row[i] in lists[i] {
        if i < n { assert row[..n][i] in lists[..n][i]; }
      }
    }
  }

  lemma {:induction false} ProductChooses<V>(lists: seq<seq<V>>, k: nat)
    requires k < |Product(lists)|
    ensures Chosen(lists, Product(lists)[k])
  {
    if |lists| > 0 {
      var n := |lists| - 1;
      var rows := Product(lists[..n]);
      ExtendedFrom(rows, lists[n], k);
      hide Extend;
      var i, j :| 0 <= i < |rows| && 0 <= j < |lists[n]| && Extend(rows, lists[n])[k] == rows[i] + [lists[n][j]];
      ProductChooses(lists[..n], i);
      assert (rows[i] + [lists[n][j]])[..n] == rows[i];
      LastChosen(lists, rows[i] + [lists[n][j]]);
      hide Chosen;
    }
  }

  lemma {:induction false} ProductReaches<V>(lists: seq<seq<V>>, row: seq<V>)
    requires Chosen(lists, row)
    ensures row in Product(lists)
  {
    if |lists| > 0 {
      var n := |lists| - 1;
      var rows := Product(lists[..n]);
      LastChosen(lists, row);
      ProductReaches(lists[..n], row[..n]);
      hide Extend;
      hide Chosen;
      var i :| 0 <= i < |rows| && rows[i] == row[..n];
      var j :| 0 <= j < |lists[n]| && lists[n][j] == row[n];
      ExtendReaches(rows, lists[n], i, j);
      assert row == row[..n] + [row[n]];
    }
  }

  /** At the first place where the rows take different positions, x takes the earlier one. */
  ghost predicate Before<V(!new)>(lists: seq<seq<V>>, x: seq<V>, y: seq<V>) {
    exists i, a, b :: Differ(lists, x, y, i, a, b)
  }

  ghost predicate Differ<V(!new)>(lists: seq<seq<V>>, x: seq<V>, y: seq<V>, i: int, a: int, b: int) {
    && 0 <= i < |lists| && i < |x| && i < |y| && x[..i] == y[..i]
    && 0 <= a < b < |lists[i]| && x[i] == lists[i][a] && y[i] == lists[i][b]
  }

  ghost predicate InOrder<V(!new)>(lists: seq<seq<V>>, rows: seq<seq<V>>) {
    forall j, k :: 0 <= j < k < |rows| ==> Before(lists, rows[j], rows[k])
  }

  lemma LongerBefore<V(!new)>(lists: seq<seq<V>>, values: seq<V>, x: seq<V>, y: seq<V>, v: V, w: V)
    requires Before(lists, x, y)
    ensures Before(lists + [values], x + [v], y + [w])
  {
    var i, a, b :| Differ(lists, x, y, i, a, b);
    assert (x + [v])[..i] == x[..i] && (y + [w])[..i] == y[..i];
    assert Differ(lists + [values], x + [v], y + [w], i, a, b);
  }

  lemma {:induction false} ExtendInOrder<V(!new)>(lists: seq<seq<V>>, rows: seq<seq<V>>, values: seq<V>)
    requires InOrder(lists, rows) && forall k :: 0 <= k < |rows| ==> |rows[k]| == |lists|
    ensures InOrder(lists + [values], Extend(rows, values))
  {
    if |rows| > 0 {
      var n := |rows| - 1;
      var before, all := Extend(rows[..n], values), Extend(rows, values);
      ExtendInOrder(lists, rows[..n], values);
      forall j, k | 0 <= j < k < |all| ensures Before(lists + [values], all[j], all[k]) {
        if k < |before| {
          assert all[j] == before[j] && all[k] == before[k];
        } else if j < |before| {
          ExtendedFrom(rows[..n], values, j);
          var i, a :| 0 <= i < n && 0 <= a < |values| && before[j] == rows[..n][i] + [values[a]];
          LongerBefore(lists, values, rows[i], rows[n], values[a], values[k - |before|]);
        } else {
          var a, b := j - |before|, k - |before|;
          assert (rows[n] + [values[a]])[..|lists|] == rows[n] == (rows[n] + [values[b]])[..|lists|];
          assert Differ(lists + [values], all[j], all[k], |lists|, a, b);
        }
      }
    }
  }

  /** The rows come in lexicographic order of the positions they take. */
  lemma {:induction false} ProductInOrder<V(!new)>(lists: seq<seq<V>>)
    ensures InOrder(lists, Product(lists))
  {
    if |lists| > 0 {
      var n := |lists| - 1;
      ProductInOrder(lists[..n]);
      forall k | 0 <= k < |Product(lists[..n])| ensures |Product(lists[..n])[k]| == n { RowLength(lists[..n], k); }
      ExtendInOrder(lists[..n], Product(lists[..n]), lists[n]);
      assert lists[..n] + [lists[n]] == lists;
    }
  }

  // ---- the combinations ----

  lemma {:induction false} ZipGives<V>(grid: seq<Axis<V>>, row: seq<V>)
    requires |row| == |grid| && DistinctKeys(grid)
    ensures forall key :: key in Zip(grid, row) <==> exists i :: 0 <= i < |grid| && grid[i].key == key
    ensures forall i :: 0 <= i < |grid| ==> grid[i].key in Zip(grid, row) && Zip(grid, row)[grid[i].key] == row[i]
  {
    if |grid| > 0 {
      var n := |grid| - 1;
      ZipGives(grid[..n], row[..n]);
      forall key ensures key in Zip(grid, row) <==> exists i :: 0 <= i < |grid| && grid[i].key == key {
        if key in Zip(grid, row) && key != grid[n].key {
          var i :| 0 <= i < n && grid[..n][i].key == key;
          assert grid[i].key == key;
        }
        if i :| 0 <= i < |grid| && grid[i].key == key {
          if i < n { assert grid[..n][i].key == key; }
        }
      }
      forall i | 0 <= i < |grid| ensures Zip(grid, row)[grid[i].key] == row[i] {
        if i < n { assert grid[..n][i].key == grid[i].key; }
      }
    }
  }

  ghost predicate Fits<V>(grid: seq<Axis<V>>, params: map<string, V>) {
    && (forall key :: key in params <==> exists i :: 0 <= i < |grid| && grid[i].key == key)
    && forall i :: 0 <= i < |grid| ==> grid[i].key in params && params[grid[i].key] in grid[i].values
  }

  lemma CombinationFits<V>(grid: seq<Axis<V>>, k: nat)
    requires DistinctKeys(grid) && k < |AllCombinations(grid)|
    ensures Fits(grid, AllCombinations(grid)[k])
  {
    var lists := Lists(grid);
    var row := Product(lists)[k];
    ProductChooses(lists, k);
    ZipGives(grid, row);
    hide Product;
    hide Zip;
    forall i | 0 <= i < |grid| ensures row[i] in grid[i].values { assert row[i] in lists[i]; }
  }

  lemma FittingIsCombination<V>(grid: seq<Axis<V>>, params: map<string, V>)
    requires DistinctKeys(grid) && Fits(grid, params)
    ensures params in AllCombinations(grid)
  {
    var rows := Product(Lists(grid));
    var row := seq(|grid|, i requires 0 <= i < |grid| => params[grid[i].key]);
    ProductReaches(Lists(grid), row);
    hide Product;
    var k :| 0 <= k < |rows| && rows[k] == row;
    ZipGives(grid, row);
    SameMap(params, Zip(grid, row), grid);
    hide Zip;
    assert AllCombinations(grid)[k] == params;
  }

  /** The combinations are exactly the assignments of a listed value to every parameter. */
  lemma CombinationsAreComplete<V>(grid: seq<Axis<V>>, params: map<string, V>)
    requires DistinctKeys(grid)
    ensures params in AllCombinations(grid) <==> Fits(grid, params)
  {
    hide Fits;
    var combos := AllCombinations(grid);
    if params in combos {
      var k :| 0 <= k < |combos| && combos[k] == params;
      CombinationFits(grid, k);
    }
    if Fits(grid, params) { FittingIsCombination(grid, params); }
    hide AllCombinations;
  }

  lemma SameMap<V>(m: map<string, V>, z: map<string, V>, grid: seq<Axis<V>>)
    requires forall key :: key in m <==> exists i :: 0 <= i < |grid| && grid[i].key == key
    requires forall key :: key in z <==> exists i :: 0 <= i < |grid| && grid[i].key == key
    requires forall i :: 0 <= i < |grid| ==> grid[i].key in m && grid[i].key in z && m[grid[i].key] == z[grid[i].key]
    ensures m == z
  {
    assert m.Keys == z.Keys;
  }

  /** With no value listed twice, no combination comes twice: each is evaluated once. */
  lemma CombinationsAreDistinct<V(!new)>(grid: seq<Axis<V>>)
    requires DistinctKeys(grid) && forall i :: 0 <= i < |grid| ==> NoRepeats(grid[i].values)
    ensures NoRepeats(AllCombinations(grid))
  {
    var lists, combos := Lists(grid), AllCombinations(grid);
    var rows := Product(lists);
    ProductInOrder(lists);
    forall j, k | 0 <= j < k < |combos| ensures combos[j] != combos[k] {
      assert Before(lists, rows[j], rows[k]);
      var i, a, b :| Differ(lists, rows[j], rows[k], i, a, b);
      assert NoRepeats(grid[i].values);
      RowLength(lists, j);
      RowLength(lists, k);
      ZipGives(grid, rows[j]);
      ZipGives(grid, rows[k]);
    }
  }

  /**
    A combination precedes another where, at the first parameter taking another position, its value is listed
    earlier.
   */
  lemma CombinationsInOrder<V(!new)>(grid: seq<Axis<V>>, j: nat, k: nat)
    requires DistinctKeys(grid) && j < k < |AllCombinations(grid)|
    ensures var x, y := AllCombinations(grid)[j], AllCombinations(grid)[k];
      exists i, a, b :: 0 <= i < |grid| && 0 <= a < b < |grid[i].values|
        && x.Keys == y.Keys && grid[i].key in x
        && x[grid[i].key] == grid[i].values[a] && y[grid[i].key] == grid[i].values[b]
        && forall h :: 0 <= h < i ==> grid[h].key in x && x[grid[h].key] == y[grid[h].key]
  {
    var lists := Lists(grid);
    var rows := Product(lists);
    ProductInOrder(lists);
    assert Before(lists, rows[j], rows[k]);
    var i, a, b :| Differ(lists, rows[j], rows[k], i, a, b);
    RowLength(lists, j);
    RowLength(lists, k);
    ZipGives(grid, rows[j]);
    ZipGives(grid, rows[k]);
    assert Zip(grid, rows[j]).Keys == Zip(grid, rows[k]).Keys;
    forall h | 0 <= h < i ensures rows[j][h] == rows[k][h] {
      assert rows[j][..i][h] == rows[k][..i][h];
    }
    assert lists[i] == grid[i].values;
  }
}
