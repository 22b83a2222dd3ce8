/** Walking a sequence in tiles: at each position a plan says what to show and
    how many positions the shown item stands for. */
module Tiling {

  datatype Tile<+T> = Tile(item: T, width: nat)

  ghost predicate Fits<T>(plan: seq<Tile<T>>) {
    forall k | 0 <= k < |plan| :: 0 < plan[k].width <= |plan| - k
  }

  ghost function Shown<T>(plan: seq<Tile<T>>, i: nat): seq<T>
    requires Fits(plan) && i <= |plan|
    decreases |plan| - i
  {
    if i == |plan| then [] else [plan[i].item] + Shown(plan, i + plan[i].width)
  }

  /** The position reached after `n` tiles from `i` on. */
  ghost function At<T>(plan: seq<Tile<T>>, i: nat, n: nat): (r: nat)
    requires Fits(plan) && i <= |plan| && n <= |Shown(plan, i)|
    ensures i + n <= r <= |plan|
    decreases n
  {
    if n == 0 then i else At(plan, i + plan[i].width, n - 1)
  }

  lemma {:induction false} AtEnd<T>(plan: seq<Tile<T>>, i: nat)
    requires Fits(plan) && i <= |plan|
    ensures At(plan, i, |Shown(plan, i)|) == |plan|
    decreases |plan| - i
  {
    if i < |plan| {
      AtEnd(plan, i + plan[i].width);
    }
  }

  lemma {:induction false} ShownFrom<T>(plan: seq<Tile<T>>, i: nat, n: nat)
    requires Fits(plan) && i <= |plan| && n <= |Shown(plan, i)|
    ensures Shown(plan, At(plan, i, n)) == Shown(plan, i)[n..]
    decreases n
  {
    if n > 0 {
      ShownFrom(plan, i + plan[i].width, n - 1);
    }
  }

  lemma {:induction false} AtAdd<T>(plan: seq<Tile<T>>, i: nat, m: nat, n: nat)
    requires Fits(plan) && i <= |plan| && m + n <= |Shown(plan, i)|
    ensures n <= |Shown(plan, At(plan, i, m))|
    ensures At(plan, At(plan, i, m), n) == At(plan, i, m + n)
    decreases m
  {
    if m > 0 {
      AtAdd(plan, i + plan[i].width, m - 1, n);
    }
  }

  lemma {:induction false} ItemAt<T>(plan: seq<Tile<T>>, i: nat, n: nat)
    requires Fits(plan) && i <= |plan| && n < |Shown(plan, i)|
    ensures At(plan, i, n) < |plan| && Shown(plan, i)[n] == plan[At(plan, i, n)].item
    ensures At(plan, i, n + 1) == At(plan, i, n) + plan[At(plan, i, n)].width
    decreases n
  {
    if n > 0 {
      ItemAt(plan, i + plan[i].width, n - 1);
    }
  }

  /** The tile that covers a position. */
  lemma {:induction false} Covering<T>(plan: seq<Tile<T>>, i: nat, p: nat) returns (n: nat)
    requires Fits(plan) && i <= p < |plan|
    ensures n < |Shown(plan, i)|
    ensures At(plan, i, n) <= p < At(plan, i, n + 1)
    decreases p - i
  {
    if p < i + plan[i].width {
      n := 0;
    } else {
      n := Covering(plan, i + plan[i].width, p);
      n := n + 1;
    }
  }

  lemma {:induction false} SliceShown<T>(plan: seq<Tile<T>>, a: nat, b: nat)
    requires Fits(plan) && a < b <= |Shown(plan, 0)|
    ensures At(plan, 0, a) < At(plan, 0, b) <= |plan|
    ensures b - a <= |Shown(plan, At(plan, 0, a))|
    ensures Shown(plan, At(plan, 0, a))[..b - a] == Shown(plan, 0)[a..b]
    ensures At(plan, At(plan, 0, a), b - a) == At(plan, 0, b)
  {
    ShownFrom(plan, 0, a);
    AtAdd(plan, 0, a, b - a);
    assert Shown(plan, 0)[a..][..b - a] == Shown(plan, 0)[a..b];
  }

  /** Plans that agree from `i` on show the same from `i` on. */
  lemma {:induction false} SameAfter<T>(p: seq<Tile<T>>, q: seq<Tile<T>>, i: nat)
    requires Fits(p) && Fits(q) && |p| == |q| && i <= |p|
    requires forall k | i <= k < |p| :: p[k] == q[k]
    ensures Shown(p, i) == Shown(q, i)
    decreases |p| - i
  {
    if i < |p| {
      SameAfter(p, q, i + p[i].width);
    }
  }

  /** Plans that agree on the tiles ending at or before `lo` show the same up to `lo`. */
  lemma {:induction false} SameBefore<T>(p: seq<Tile<T>>, q: seq<Tile<T>>, i: nat, n: nat, lo: nat)
    requires Fits(p) && Fits(q) && |p| == |q| && i <= |p|
    requires n <= |Shown(p, i)| && At(p, i, n) == lo
    requires forall k | i <= k < lo && k + p[k].width <= lo :: p[k] == q[k]
    ensures Shown(q, i) == Shown(p, i)[..n] + Shown(q, lo)
    decreases n
  {
    if n > 0 {
      SameBefore(p, q, i + p[i].width, n - 1, lo);
    }
  }

  ghost function Flatten<T, U>(f: T -> seq<U>, items: seq<T>): seq<U> {
    if items == [] then [] else f(items[0]) + Flatten(f, items[1..])
  }

  /** When every item unfolds to the positions it stands for, the next `n`
      items unfold to the stretch walked over. */
  lemma {:induction false} Unfolds<T, U>(f: T -> seq<U>, plan: seq<Tile<T>>, under: seq<U>, i: nat, n: nat)
    requires Fits(plan) && |plan| == |under| && i <= |plan| && n <= |Shown(plan, i)|
    requires forall k | 0 <= k < |plan| :: f(plan[k].item) == under[k..k + plan[k].width]
    ensures Flatten(f, Shown(plan, i)[..n]) == under[i..At(plan, i, n)]
    decreases n
  {
    if n > 0 {
      var mid := i + plan[i].width;
      Unfolds(f, plan, under, mid, n - 1);
      assert Shown(plan, i)[..n] == [plan[i].item] + Shown(plan, mid)[..n - 1];
      assert under[i..At(plan, mid, n - 1)] == under[i..mid] + under[mid..At(plan, mid, n - 1)];
    }
  }

  /** What one tile keeps, the whole walk keeps. */
  lemma {:induction false} WalkKeeps<T(!new)>(P: seq<T> -> bool, plan: seq<Tile<T>>, under: seq<T>,
      done: seq<T>, i: nat)
    requires Fits(plan) && |plan| == |under| && i <= |plan|
    requires forall d: seq<T>, k | 0 <= k < |plan| && P(d + under[k..]) ::
               P(d + [plan[k].item] + under[k + plan[k].width..])
    requires P(done + under[i..])
    ensures P(done + Shown(plan, i))
    decreases |plan| - i
  {
    hide Flatten;
    if i == |plan| {
      assert under[i..] == Shown(plan, i);
    } else {
      WalkKeeps(P, plan, under, done + [plan[i].item], i + plan[i].width);
      assert done + Shown(plan, i) == done + [plan[i].item] + Shown(plan, i + plan[i].width);
    }
  }
}
