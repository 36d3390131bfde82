/** Sums and weighted sums of prices written out, against which the indicators are stated. */
module PlainSums {

  function Times(x: real, y: real): real { x * y }

  /** The sum from the oldest on. */
  function Total(s: seq<real>): real {
    if |s| == 0 then 0.0 else s[0] + Total(s[1..])
  }

  /** The sum of squared distances from a point. */
  function Squares(s: seq<real>, from: real): real {
    if |s| == 0 then 0.0 else Times(s[0] - from, s[0] - from) + Squares(s[1..], from)
  }

  /** What the prices gained from one to the next, all rises together. */
  function Rises(s: seq<real>): real {
    if |s| < 2 then 0.0 else (if s[1] > s[0] then s[1] - s[0] else 0.0) + Rises(s[1..])
  }

  /** What they lost, all falls together. */
  function Falls(s: seq<real>): real {
    if |s| < 2 then 0.0 else (if s[1] < s[0] then s[0] - s[1] else 0.0) + Falls(s[1..])
  }

  lemma {:induction false} TotalLast(s: seq<real>)
    requires |s| > 0
    ensures Total(s) == Total(s[..|s| - 1]) + s[|s| - 1]
  {
    var n := |s| - 1;
    if n > 0 {
      TotalLast(s[1..]);
      assert s[1..][..n - 1] == s[..n][1..];
    }
  }

  lemma {:induction false} SquaresLast(s: seq<real>, from: real)
    requires |s| > 0
    ensures Squares(s, from) == Squares(s[..|s| - 1], from) + Times(s[|s| - 1] - from, s[|s| - 1] - from)
  {
    hide Times;
    var n := |s| - 1;
    if n > 0 {
      SquaresLast(s[1..], from);
      assert s[1..][..n - 1] == s[..n][1..];
    }
  }

  // ---- exponential weights ----

  function Power(x: real, n: nat): real {
    if n == 0 then 1.0 else Times(x, Power(x, n - 1))
  }

  /** The weight of the newest price, and what a price's weight is multiplied by with every later one. */
  function Newest(w: int): real
    requires w >= 1
  {
    2.0 / (w + 1) as real
  }

  function Fading(w: int): real
    requires w >= 1
  {
    1.0 - 2.0 / (w + 1) as real
  }

  /** The weight of the i-th of n prices; the first of all is the seed. */
  function Weight(w: int, n: nat, i: nat): real
    requires w >= 1 && i < n
  {
    if i == 0 then Power(Fading(w), n - 1) else Times(Newest(w), Power(Fading(w), n - 1 - i))
  }

  /** The first k terms of the weighted sum. */
  function Weighed(s: seq<real>, w: int, k: nat): real
    requires w >= 1 && k <= |s|
  {
    if k == 0 then 0.0 else Weighed(s, w, k - 1) + Times(Weight(w, |s|, k - 1), s[k - 1])
  }

  /** The exponential average of all prices, as one weighted sum. */
  function Exponential(s: seq<real>, w: int): real
    requires w >= 1
  {
    Weighed(s, w, |s|)
  }

  lemma TimesDistributes(x: real, y: real, z: real)
    ensures Times(x, y + z) == Times(x, y) + Times(x, z)
    ensures Times(x, Times(y, z)) == Times(Times(x, y), z)
    ensures Times(x, Times(y, z)) == Times(y, Times(x, z))
    ensures Times(x, 0.0) == 0.0 && Times(x, 1.0) == x && Times(1.0, x) == x
  {
  }

  lemma WeightFades(w: int, n: nat, i: nat)
    requires w >= 1 && i < n
    ensures Weight(w, n + 1, i) == Times(Fading(w), Weight(w, n, i))
  {
    if i > 0 { TimesDistributes(Fading(w), Newest(w), Power(Fading(w), n - 1 - i)); }
    hide Times;
    hide Fading;
    hide Newest;
  }

  lemma {:induction false} WeighedFades(s: seq<real>, p: real, w: int, k: nat)
    requires w >= 1 && k <= |s|
    ensures Weighed(s + [p], w, k) == Times(Fading(w), Weighed(s, w, k))
  {
    hide Times;
    hide Weight;
    hide Fading;
    TimesDistributes(Fading(w), 0.0, 0.0);
    if k > 0 {
      WeighedFades(s, p, w, k - 1);
      WeightFades(w, |s|, k - 1);
      TimesDistributes(Fading(w), Weight(w, |s|, k - 1), s[k - 1]);
      TimesDistributes(Fading(w), Weighed(s, w, k - 1), Times(Weight(w, |s|, k - 1), s[k - 1]));
    }
  }

  /** One more price: the old average fades, the price comes in with the newest weight. */
  lemma ExponentialOneMore(s: seq<real>, p: real, w: int)
    requires w >= 1 && |s| > 0
    ensures Exponential(s + [p], w) == Times(Fading(w), Exponential(s, w)) + Times(Newest(w), p)
  {
    WeighedFades(s, p, w, |s|);
    TimesDistributes(Newest(w), 0.0, 0.0);
    hide Times;
    hide Fading;
    hide Newest;
    assert Weight(w, |s| + 1, |s|) == Times(Newest(w), Power(Fading(w), 0));
    hide Weight;
  }

  lemma ExponentialOfOne(p: real, w: int)
    requires w >= 1
    ensures Exponential([p], w) == p
  {
    TimesDistributes(p, 0.0, 0.0);
    hide Times;
    hide Fading;
    assert Weight(w, 1, 0) == 1.0;
    assert Weighed([p], w, 0) == 0.0;
  }
}
