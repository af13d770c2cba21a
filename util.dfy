/**
 * General helpers of the game: taxicab distance, picking random values from a
 * caller-supplied draw, small array helpers, and moving a point towards a
 * target one axis at a time.
 *
 * JavaScript numbers are modelled as exact reals (or as integers where the
 * game only ever passes whole numbers), and every `Math.random()` call is a
 * `draw` parameter in [0, 1).
 */
module Util {
  import opened Wrappers

  function Abs(v: real): (r: real)
    ensures r >= 0.0 && (r == v || r == -v)
  {
    if v < 0.0 then -v else v
  }

  function Min(a: int, b: int): (r: int)
    ensures r <= a && r <= b && (r == a || r == b)
  {
    if a <= b then a else b
  }

  function Max(a: int, b: int): (r: int)
    ensures r >= a && r >= b && (r == a || r == b)
  {
    if a <= b then b else a
  }

  // ---------------------------------------------------------------------------
  // Distance
  // ---------------------------------------------------------------------------

  /** Taxicab distance: a diagonal step counts as 2. */
  function ManhattanDistance(x1: real, y1: real, x2: real, y2: real): (d: real)
    ensures d >= 0.0
    ensures d == 0.0 <==> x1 == x2 && y1 == y2
    ensures d >= Abs(x1 - x2) && d >= Abs(y1 - y2)
  {
    Abs(x1 - x2) + Abs(y1 - y2)
  }

  lemma ManhattanSymmetric(x1: real, y1: real, x2: real, y2: real)
    ensures ManhattanDistance(x1, y1, x2, y2) == ManhattanDistance(x2, y2, x1, y1)
  {
  }

  /** Going through a third point is never shorter. */
  lemma ManhattanTriangle(x1: real, y1: real, x2: real, y2: real, x3: real, y3: real)
    ensures ManhattanDistance(x1, y1, x3, y3) <= ManhattanDistance(x1, y1, x2, y2) + ManhattanDistance(x2, y2, x3, y3)
  {
  }

  // ---------------------------------------------------------------------------
  // Random integers and random elements
  // ---------------------------------------------------------------------------

  /** `floor(draw * span)`: the offset a draw selects among `span` consecutive values. */
  function ScaledDraw(draw: real, span: nat): (k: int)
    requires 0.0 <= draw < 1.0
    ensures 0 <= k <= span
    ensures span > 0 ==> k < span
    ensures k as real <= draw * span as real < k as real + 1.0
  {
    var product := draw * span as real;
    ScaleBelow(draw, span as real);
    assert span > 0 ==> span as real > 0.0;
    assert 0.0 <= product <= span as real && (span > 0 ==> product < span as real);
    FloorBounds(product, span);
    product.Floor
  }

  lemma FloorBounds(x: real, n: int)
    requires 0.0 <= x <= n as real
    ensures 0 <= x.Floor <= n
    ensures x < n as real ==> x.Floor < n
    ensures x.Floor as real <= x < x.Floor as real + 1.0
  {
  }

  lemma ScaleBelow(draw: real, n: real)
    requires 0.0 <= draw < 1.0 && n >= 0.0
    ensures 0.0 <= draw * n <= n
    ensures n > 0.0 ==> draw * n < n
  {
    assert draw * n + (1.0 - draw) * n == n;
  }

  /**
   * A random integer from `lowerBound` up to but excluding `upperBound`; the
   * bounds are swapped first when they come in the wrong order.
   */
  method RandomInteger(lowerBound: int, upperBound: int, draw: real) returns (r: int)
    requires 0.0 <= draw < 1.0
    ensures lowerBound != upperBound ==> Min(lowerBound, upperBound) <= r < Max(lowerBound, upperBound)
    ensures lowerBound == upperBound ==> r == lowerBound
    ensures r - Min(lowerBound, upperBound) == ScaledDraw(draw, Max(lowerBound, upperBound) - Min(lowerBound, upperBound))
  {
    var lo, hi := lowerBound, upperBound;
    if lo > hi {
      var temp := lo;
      lo := hi;
      hi := temp;
    }
    r := ScaledDraw(draw, hi - lo) + lo;
  }

  /** The result depends on the two bounds only as an unordered pair. */
  method RandomIntegerSwapped(lowerBound: int, upperBound: int, draw: real) returns (forward: int, backward: int)
    requires 0.0 <= draw < 1.0
    ensures forward == backward
  {
    forward := RandomInteger(lowerBound, upperBound, draw);
    backward := RandomInteger(upperBound, lowerBound, draw);
  }

  /** The element at index `floor(draw * length)`, or nothing for a missing or empty array. */
  function RandomArrayElement<T>(candidates: Option<seq<T>>, draw: real): (r: Option<T>)
    requires 0.0 <= draw < 1.0
    ensures r.None? <==> candidates.None? || |candidates.value| == 0
    ensures r.Some? ==> r.value in candidates.value
    ensures r.Some? ==> r.value == candidates.value[ScaledDraw(draw, |candidates.value|)]
  {
    if candidates.None? || |candidates.value| == 0 then None
    else Some(candidates.value[ScaledDraw(draw, |candidates.value|)])
  }

  // ---------------------------------------------------------------------------
  // Weighted random choice
  // ---------------------------------------------------------------------------

  /** Any object carrying an optional `relativeWeight`. */
  datatype Weighted<T> = Weighted(item: T, relativeWeight: Option<real>)

  predicate AllWeighted<T>(items: seq<Weighted<T>>)
  {
    forall j :: 0 <= j < |items| ==> items[j].relativeWeight.Some?
  }

  predicate NonNegativeWeights<T>(items: seq<Weighted<T>>)
  {
    forall j :: 0 <= j < |items| ==> WeightOf(items[j]) >= 0.0
  }

  function WeightOf<T>(w: Weighted<T>): real
  {
    match w.relativeWeight
    case Some(v) => v
    case None => 0.0
  }

  /** Sum of the weights of the first n items. */
  function WeightSum<T>(items: seq<Weighted<T>>, n: nat): real
    requires n <= |items|
  {
    if n == 0 then 0.0 else WeightSum(items, n - 1) + WeightOf(items[n - 1])
  }

  function TotalWeight<T>(items: seq<Weighted<T>>): real
  {
    WeightSum(items, |items|)
  }

  /** The cumulative share of the total weight held by items 0 to i. */
  function Share<T>(items: seq<Weighted<T>>, i: nat): real
    requires i < |items| && TotalWeight(items) != 0.0
  {
    WeightSum(items, i + 1) / TotalWeight(items)
  }

  /**
   * Scanning from item i on, the first item whose cumulative share exceeds
   * the draw, or the last item if none does.
   */
  function PickFrom<T>(items: seq<Weighted<T>>, draw: real, i: nat): (k: nat)
    requires i < |items| && TotalWeight(items) != 0.0
    ensures i <= k < |items|
    ensures forall j :: i <= j < k ==> Share(items, j) <= draw
    ensures draw < Share(items, k) || k == |items| - 1
    decreases |items| - i
  {
    if draw < Share(items, i) || i == |items| - 1 then i else PickFrom(items, draw, i + 1)
  }

  /**
   * The index the weighted choice lands on: none when some item has no
   * weight or when the weights add up to zero (which includes the empty
   * list), otherwise the first item whose cumulative share exceeds the draw,
   * falling back to the last item.
   */
  function PickIndex<T>(items: seq<Weighted<T>>, draw: real): (r: Option<nat>)
    ensures r.None? <==> !AllWeighted(items) || TotalWeight(items) == 0.0
    ensures r.Some? ==> r.value < |items|
    ensures r.Some? ==> forall j :: 0 <= j < r.value ==> Share(items, j) <= draw
    ensures r.Some? ==> draw < Share(items, r.value) || r.value == |items| - 1
  {
    if !AllWeighted(items) || TotalWeight(items) == 0.0 then None
    else Some(PickFrom(items, draw, 0))
  }

  /**
   * Picks one of the objects at random in proportion to its relative weight,
   * using `draw` as the random number. Yields nothing when an object has no
   * weight or when all weights add up to zero.
   */
  method RandomFromWeights<T>(objectsWithRelativeWeight: seq<Weighted<T>>, draw: real)
    returns (chosen: Option<Weighted<T>>)
    ensures chosen.None? <==> PickIndex(objectsWithRelativeWeight, draw).None?
    ensures chosen.Some? ==> chosen.value == objectsWithRelativeWeight[PickIndex(objectsWithRelativeWeight, draw).value]
  {
    var items := objectsWithRelativeWeight;
    var totalWeight := 0.0;
    for i := 0 to |items|
      invariant forall j :: 0 <= j < i ==> items[j].relativeWeight.Some?
      invariant totalWeight == WeightSum(items, i)
    {
      if items[i].relativeWeight.None? {
        return None;
      }
      totalWeight := totalWeight + items[i].relativeWeight.value;
    }

    if totalWeight == 0.0 {
      return None;
    }

    var percentages := new real[|items|];
    var lastPercent := 0.0;
    for i := 0 to |items|
      invariant i < |items|
      invariant lastPercent == WeightSum(items, i) / totalWeight
      invariant forall j :: 0 <= j < i ==> Share(items, j) <= draw
    {
      DivAdd(WeightSum(items, i), WeightOf(items[i]), totalWeight);
      percentages[i] := lastPercent + items[i].relativeWeight.value / totalWeight;
      lastPercent := percentages[i];

      // Stopping at the last item also covers a cumulative share that falls
      // just short of 1.
      if draw < lastPercent || i == |items| - 1 {
        PickIndexIsFirstCrossing(items, draw, i);
        return Some(items[i]);
      }
    }
    // Every run returns from inside the loop at the latest on the last item.
    assert false;
    chosen := None;
  }

  lemma DivAdd(a: real, b: real, t: real)
    requires t != 0.0
    ensures a / t + b / t == (a + b) / t
  {
  }

  /** The first index where the draw falls under the cumulative share (or the last index) is the one picked. */
  lemma PickIndexIsFirstCrossing<T>(items: seq<Weighted<T>>, draw: real, i: nat)
    requires AllWeighted(items) && TotalWeight(items) != 0.0 && i < |items|
    requires forall j :: 0 <= j < i ==> Share(items, j) <= draw
    requires draw < Share(items, i) || i == |items| - 1
    ensures PickIndex(items, draw) == Some(i)
  {
  }

  lemma {:induction false} WeightSumMonotone<T>(items: seq<Weighted<T>>, m: nat, n: nat)
    requires NonNegativeWeights(items) && m <= n <= |items|
    ensures 0.0 <= WeightSum(items, m) <= WeightSum(items, n)
  {
    if m < n {
      WeightSumMonotone(items, m, n - 1);
    } else if m > 0 {
      WeightSumMonotone(items, 0, m);
    }
  }

  lemma DivLess(a: real, b: real, t: real)
    requires t > 0.0
    ensures a / t < b / t <==> a < b
    ensures a / t <= b / t <==> a <= b
  {
  }

  /** With non-negative weights, a non-zero total is positive and the last cumulative share is exactly 1. */
  lemma LastShareIsOne<T>(items: seq<Weighted<T>>)
    requires NonNegativeWeights(items) && TotalWeight(items) != 0.0
    ensures |items| > 0 && TotalWeight(items) > 0.0
    ensures Share(items, |items| - 1) == 1.0
  {
    WeightSumMonotone(items, 0, |items|);
  }

  /**
   * With non-negative weights and a draw in [0, 1), item k is chosen exactly
   * when the draw lies in [share of items before k, share up to k). That
   * interval is weight(k) / total wide, so a uniform draw picks each item with
   * probability proportional to its weight.
   */
  lemma PickIndexInterval<T>(items: seq<Weighted<T>>, draw: real, k: nat)
    requires AllWeighted(items) && NonNegativeWeights(items) && TotalWeight(items) != 0.0
    requires 0.0 <= draw < 1.0 && k < |items|
    ensures PickIndex(items, draw) == Some(k) <==> (k == 0 || Share(items, k - 1) <= draw) && draw < Share(items, k)
    ensures Share(items, k) - (if k == 0 then 0.0 else Share(items, k - 1)) == WeightOf(items[k]) / TotalWeight(items)
  {
    LastShareIsOne(items);
    var t := TotalWeight(items);
    assert WeightSum(items, k + 1) == WeightSum(items, k) + WeightOf(items[k]);
    if k > 0 {
      DivAdd(WeightSum(items, k), WeightOf(items[k]), t);
    }
    if PickIndex(items, draw) == Some(k) {
      assert draw < Share(items, k);
    }
    if (k == 0 || Share(items, k - 1) <= draw) && draw < Share(items, k) {
      forall j | 0 <= j < k ensures Share(items, j) <= draw {
        WeightSumMonotone(items, j + 1, k);
        DivLess(WeightSum(items, j + 1), WeightSum(items, k), t);
      }
      PickIndexIsFirstCrossing(items, draw, k);
    }
  }

  /** With non-negative weights and a draw in [0, 1), the chosen item never has weight zero. */
  lemma ChosenItemHasPositiveWeight<T>(items: seq<Weighted<T>>, draw: real)
    requires NonNegativeWeights(items) && 0.0 <= draw < 1.0
    requires PickIndex(items, draw).Some?
    ensures WeightOf(items[PickIndex(items, draw).value]) > 0.0
  {
    var k := PickIndex(items, draw).value;
    PickIndexInterval(items, draw, k);
    var t := TotalWeight(items);
    assert t > 0.0;
    DivLess(0.0, WeightOf(items[k]), t);
  }

  /** The weights (5, 10, 15) give cumulative shares 1/6, 1/2 and 1. */
  lemma WeightsExample()
    ensures var items := [Weighted(0, Some(5.0)), Weighted(1, Some(10.0)), Weighted(2, Some(15.0))];
      && TotalWeight(items) == 30.0
      && Share(items, 0) == 1.0 / 6.0 && Share(items, 1) == 0.5 && Share(items, 2) == 1.0
      && PickIndex(items, 0.1) == Some(0)
      && PickIndex(items, 0.3) == Some(1)
      && PickIndex(items, 0.9) == Some(2)
  {
    var items := [Weighted(0, Some(5.0)), Weighted(1, Some(10.0)), Weighted(2, Some(15.0))];
    assert TotalWeight(items) == 30.0;
    PickIndexIsFirstCrossing(items, 0.1, 0);
    PickIndexIsFirstCrossing(items, 0.3, 1);
    PickIndexIsFirstCrossing(items, 0.9, 2);
  }

  // ---------------------------------------------------------------------------
  // Arrays
  // ---------------------------------------------------------------------------

  /** A growable JavaScript array. */
  class JsArray<T> {
    var elements: seq<T>

    constructor(initial: seq<T>)
      ensures elements == initial
    {
      elements := initial;
    }

    method Push(x: T)
      modifies this
      ensures elements == old(elements) + [x]
    {
      elements := elements + [x];
    }

    /** `array.slice(0)`: a new array with the same elements. */
    method SliceAll() returns (copy: JsArray<T>)
      ensures fresh(copy) && copy.elements == elements
    {
      copy := new JsArray(elements);
    }

    /** `array.reverse()`: reverses the array in place. */
    method Reverse()
      modifies this
      ensures elements == Reversed(old(elements))
    {
      elements := Reversed(elements);
    }
  }

  /** The elements of s in the opposite order. */
  function Reversed<T>(s: seq<T>): (r: seq<T>)
    ensures |r| == |s|
    ensures forall i :: 0 <= i < |s| ==> r[i] == s[|s| - 1 - i]
  {
    if s == [] then [] else [s[|s| - 1]] + Reversed(s[..|s| - 1])
  }

  lemma ReversedTwice<T>(s: seq<T>)
    ensures Reversed(Reversed(s)) == s
  {
    assert forall i :: 0 <= i < |s| ==> Reversed(Reversed(s))[i] == s[i];
  }

  /** A new array holding the same elements, so that changing one leaves the other alone. */
  method ShallowCopyArray<T>(original: JsArray<T>) returns (newArray: JsArray<T>)
    ensures fresh(newArray) && newArray.elements == original.elements
  {
    newArray := new JsArray([]);
    for i := 0 to |original.elements|
      invariant fresh(newArray) && newArray.elements == original.elements[..i]
    {
      newArray.Push(original.elements[i]);
    }
  }

  /**
   * Appends all elements of `pushThisEntireArray` to `target`; does nothing
   * when either is missing. Pushing an empty array onto itself also does
   * nothing.
   */
  method PushAllToArray<T>(target: JsArray?<T>, pushThisEntireArray: JsArray?<T>)
    requires target == null || pushThisEntireArray == null || target != pushThisEntireArray
      || |pushThisEntireArray.elements| == 0
    modifies target
    ensures target != null && pushThisEntireArray != null ==>
      target.elements == old(target.elements) + pushThisEntireArray.elements
    ensures target != null && pushThisEntireArray == null ==> target.elements == old(target.elements)
    ensures pushThisEntireArray != null ==> pushThisEntireArray.elements == old(pushThisEntireArray.elements)
  {
    if target == null || pushThisEntireArray == null {
      return;
    }
    for i := 0 to |pushThisEntireArray.elements|
      invariant target.elements == old(target.elements) + pushThisEntireArray.elements[..i]
      invariant pushThisEntireArray.elements == old(pushThisEntireArray.elements)
    {
      target.Push(pushThisEntireArray.elements[i]);
    }
  }

  /** A reversed copy of the array; the array itself is left as it was. */
  method CopyAndReverseArray<T>(original: JsArray<T>) returns (reversed: JsArray<T>)
    ensures fresh(reversed) && reversed.elements == Reversed(original.elements)
  {
    reversed := original.SliceAll();
    reversed.Reverse();
  }

  // ---------------------------------------------------------------------------
  // Moving towards a target, one axis at a time
  // ---------------------------------------------------------------------------

  datatype ChaseResult = ChaseResult(x: real, y: real, atDestination: bool)

  /**
   * One axis of a chase step: move `speed` towards `desired`, or land on it
   * when it is strictly closer than `speed`. For a positive speed the step
   * never overshoots and never leaves the segment between the two values.
   */
  function AxisStep(current: real, desired: real, speed: real): (next: real)
    ensures speed > 0.0 ==> Abs(next - desired) == if Abs(current - desired) < speed then 0.0 else Abs(current - desired) - speed
    ensures speed > 0.0 ==> (current <= next <= desired || desired <= next <= current)
  {
    if current < desired then
      if Abs(current - desired) < speed then desired else current + speed
    else
      if Abs(current - desired) < speed then desired else current - speed
  }

  /**
   * Moves (currentX, currentY) towards (desiredX, desiredY) by at most
   * `speed` on each axis independently, and reports whether it arrived.
   */
  method ChaseCoordinates(currentX: real, currentY: real, desiredX: real, desiredY: real, speed: real)
    returns (result: ChaseResult)
    ensures result.x == AxisStep(currentX, desiredX, speed)
    ensures result.y == AxisStep(currentY, desiredY, speed)
    ensures result.atDestination <==> result.x == desiredX && result.y == desiredY
  {
    var x, y := currentX, currentY;
    if x < desiredX {
      if Abs(x - desiredX) < speed {
        x := desiredX;
      } else {
        x := x + speed;
      }
    } else {
      if Abs(x - desiredX) < speed {
        x := desiredX;
      } else {
        x := x - speed;
      }
    }

    if y < desiredY {
      if Abs(y - desiredY) < speed {
        y := desiredY;
      } else {
        y := y + speed;
      }
    } else {
      if Abs(y - desiredY) < speed {
        y := desiredY;
      } else {
        y := y - speed;
      }
    }

    var atDestination := x == desiredX && y == desiredY;
    result := ChaseResult(x, y, atDestination);
  }

  /** Where an axis ends up after n chase steps. */
  function AxisSteps(current: real, desired: real, speed: real, n: nat): real
    decreases n
  {
    if n == 0 then current else AxisSteps(AxisStep(current, desired, speed), desired, speed, n - 1)
  }

  /** n steps of a positive speed cover a distance of up to n * speed. */
  lemma {:induction false} AxisStepsReach(current: real, desired: real, speed: real, n: nat)
    requires speed > 0.0 && Abs(current - desired) <= n as real * speed
    ensures AxisSteps(current, desired, speed, n) == desired
    decreases n
  {
    if n > 0 {
      var next := AxisStep(current, desired, speed);
      assert Abs(next - desired) <= (n - 1) as real * speed;
      AxisStepsReach(next, desired, speed, n - 1);
    } else {
      assert current == desired;
    }
  }

  /** Repeated chasing arrives once n * speed covers the distance on both axes. */
  lemma RepeatedChaseArrives(x: real, y: real, desiredX: real, desiredY: real, speed: real, n: nat)
    requires speed > 0.0
    requires Abs(x - desiredX) <= n as real * speed && Abs(y - desiredY) <= n as real * speed
    ensures AxisSteps(x, desiredX, speed, n) == desiredX && AxisSteps(y, desiredY, speed, n) == desiredY
  {
    AxisStepsReach(x, desiredX, speed, n);
    AxisStepsReach(y, desiredY, speed, n);
  }

  /** Chasing from 0 towards 10 at speed 3 passes 3, 6, 9 and lands on 10 at the fourth step. */
  lemma ChaseExample()
    ensures AxisSteps(0.0, 10.0, 3.0, 1) == 3.0
    ensures AxisSteps(0.0, 10.0, 3.0, 3) == 9.0
    ensures AxisSteps(0.0, 10.0, 3.0, 4) == 10.0
  {
    assert AxisStep(0.0, 10.0, 3.0) == 3.0;
    assert AxisStep(3.0, 10.0, 3.0) == 6.0;
    assert AxisStep(6.0, 10.0, 3.0) == 9.0;
    assert AxisStep(9.0, 10.0, 3.0) == 10.0;
  }
}
