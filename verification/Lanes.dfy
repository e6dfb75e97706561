/** Spreading chunks over lanes in proportion to their weights. */
module Lanes {
  datatype Lane = Lane(name: string, maxSegment: nat, weight: real)

  /** A lane without a weight counts as a very light one. */
  function Weight(l: Lane): (w: real)
    ensures w > 0.0
  {
    if l.weight > 0.0 then l.weight else 0.000000001
  }

  /** Bytes per unit of weight. */
  function Load(bytes: nat, w: real): real
    requires w > 0.0
  {
    bytes as real / w
  }

  lemma LoadGrows(a: nat, b: nat, w: real)
    requires w > 0.0 && a <= b
    ensures Load(a, w) <= Load(b, w)
  {
    assert (b as real - a as real) / w >= 0.0;
    assert b as real / w - a as real / w == (b as real - a as real) / w;
  }

  /** No lane would be loaded less by the next n bytes, and none before it as little. */
  ghost predicate Cheapest(lanes: seq<Lane>, given: seq<nat>, n: nat, lane: nat) {
    && lane < |lanes| == |given|
    && (forall k :: 0 <= k < |lanes| ==>
          Load(given[lane] + n, Weight(lanes[lane])) <= Load(given[k] + n, Weight(lanes[k])))
    && (forall k :: 0 <= k < lane ==>
          Load(given[lane] + n, Weight(lanes[lane])) < Load(given[k] + n, Weight(lanes[k])))
  }

  /** There is only one such lane. */
  lemma CheapestUnique(lanes: seq<Lane>, given: seq<nat>, n: nat, a: nat, b: nat)
    requires Cheapest(lanes, given, n, a) && Cheapest(lanes, given, n, b)
    ensures a == b
  {
    NotBefore(lanes, given, n, a, b);
    NotBefore(lanes, given, n, b, a);
  }

  lemma NotBefore(lanes: seq<Lane>, given: seq<nat>, n: nat, a: nat, b: nat)
    requires Cheapest(lanes, given, n, a) && Cheapest(lanes, given, n, b)
    ensures a <= b
  {
    hide Load, Weight;
    assert Load(given[a] + n, Weight(lanes[a])) <= Load(given[b] + n, Weight(lanes[b]));
    assert Load(given[b] + n, Weight(lanes[b])) <= Load(given[a] + n, Weight(lanes[a]));
  }

  /** In terms of the weights themselves: with the next n bytes the lane's bytes over its weight are
      no more than another's, where a lane without a positive weight counts as one of 1e-9. */
  lemma CheapestMeans(lanes: seq<Lane>, given: seq<nat>, n: nat, lane: nat, k: nat)
    requires Cheapest(lanes, given, n, lane) && k < |lanes|
    ensures lanes[lane].weight > 0.0 && lanes[k].weight > 0.0 ==>
              (given[lane] + n) as real * lanes[k].weight <= (given[k] + n) as real * lanes[lane].weight
    ensures lanes[lane].weight <= 0.0 && lanes[k].weight > 0.0 ==>
              (given[lane] + n) as real * lanes[k].weight <= (given[k] + n) as real * 0.000000001
    ensures lanes[lane].weight <= 0.0 && lanes[k].weight <= 0.0 ==> given[lane] <= given[k]
  {
    LoadCross(given[lane] + n, Weight(lanes[lane]), given[k] + n, Weight(lanes[k]));
  }

  /** The lane this chunk costs least, the first of them. */
  method PickLane(lanes: seq<Lane>, given: seq<nat>, n: nat) returns (lane: nat)
    requires lanes != [] && |given| == |lanes|
    ensures Cheapest(lanes, given, n, lane)
    ensures forall k :: 0 <= k < |lanes| && lanes[lane].weight > 0.0 && lanes[k].weight > 0.0 ==>
              (given[lane] + n) as real * lanes[k].weight <= (given[k] + n) as real * lanes[lane].weight
  {
    hide Load, Weight;
    lane := 0;
    var best := 0.0;
    var have := false;
    for k := 0 to |lanes|
      invariant have <==> k > 0
      invariant lane < |lanes| && lane <= k
      invariant have ==> lane < k && best == Load(given[lane] + n, Weight(lanes[lane]))
      invariant forall i :: 0 <= i < k ==> best <= Load(given[i] + n, Weight(lanes[i]))
      invariant forall i :: 0 <= i < lane ==> best < Load(given[i] + n, Weight(lanes[i]))
    {
      var cost := Load(given[k] + n, Weight(lanes[k]));
      if !have || cost < best {
        best, lane, have := cost, k, true;
      }
    }
    CheapestOfAll(lanes, given, n, lane);
  }

  lemma CheapestOfAll(lanes: seq<Lane>, given: seq<nat>, n: nat, lane: nat)
    requires Cheapest(lanes, given, n, lane)
    ensures forall k :: 0 <= k < |lanes| && lanes[lane].weight > 0.0 && lanes[k].weight > 0.0 ==>
              (given[lane] + n) as real * lanes[k].weight <= (given[k] + n) as real * lanes[lane].weight
  {
    hide Load, Weight;
    forall k | 0 <= k < |lanes| && lanes[lane].weight > 0.0 && lanes[k].weight > 0.0
      ensures (given[lane] + n) as real * lanes[k].weight <= (given[k] + n) as real * lanes[lane].weight
    {
      CheapestMeans(lanes, given, n, lane, k);
    }
  }

  /** No lane is ahead of another by more than one chunk, per unit of weight. */
  ghost predicate Balanced(lanes: seq<Lane>, given: seq<nat>, chunk: nat) {
    && |given| == |lanes|
    && forall k, j :: 0 <= k < |lanes| && 0 <= j < |lanes| ==>
         Load(given[k], Weight(lanes[k])) <= Load(given[j] + chunk, Weight(lanes[j]))
  }

  lemma StartsBalanced(lanes: seq<Lane>, given: seq<nat>, chunk: nat)
    requires |given| == |lanes| && forall k :: 0 <= k < |lanes| ==> given[k] == 0
    ensures Balanced(lanes, given, chunk)
  {
    forall k, j | 0 <= k < |lanes| && 0 <= j < |lanes|
      ensures Load(given[k], Weight(lanes[k])) <= Load(given[j] + chunk, Weight(lanes[j]))
    {
      LoadGrows(0, chunk, Weight(lanes[j]));
    }
  }

  lemma PickKeepsBalance(lanes: seq<Lane>, given: seq<nat>, chunk: nat, n: nat, lane: nat)
    requires Balanced(lanes, given, chunk) && n <= chunk && Cheapest(lanes, given, n, lane)
    ensures Balanced(lanes, given[lane := given[lane] + n], chunk)
  {
    hide Load, Weight;
    var after := given[lane := given[lane] + n];
    forall k, j | 0 <= k < |lanes| && 0 <= j < |lanes|
      ensures Load(after[k], Weight(lanes[k])) <= Load(after[j] + chunk, Weight(lanes[j]))
    {
      LoadGrows(given[j] + chunk, after[j] + chunk, Weight(lanes[j]));
      if k == lane {
        LoadGrows(given[j] + n, after[j] + chunk, Weight(lanes[j]));
      }
    }
  }

  /** In terms of the weights themselves, where a lane without a positive weight counts as one of 1e-9. */
  lemma BalanceMeans(lanes: seq<Lane>, given: seq<nat>, chunk: nat, k: nat, j: nat)
    requires Balanced(lanes, given, chunk) && k < |lanes| && j < |lanes|
    ensures lanes[k].weight > 0.0 && lanes[j].weight > 0.0 ==>
              given[k] as real * lanes[j].weight <= (given[j] + chunk) as real * lanes[k].weight
    ensures lanes[k].weight <= 0.0 && lanes[j].weight > 0.0 ==>
              given[k] as real * lanes[j].weight <= (given[j] + chunk) as real * 0.000000001
    ensures lanes[k].weight <= 0.0 && lanes[j].weight <= 0.0 ==> given[k] <= given[j] + chunk
  {
    LoadCross(given[k], Weight(lanes[k]), given[j] + chunk, Weight(lanes[j]));
  }

  lemma AheadByOne(lanes: seq<Lane>, given: seq<nat>, chunk: nat, k: nat)
    requires Balanced(lanes, given, chunk) && k < |lanes| == |given|
    ensures forall j :: 0 <= j < |lanes| && lanes[j].weight > 0.0 ==>
              given[k] as real * lanes[j].weight <=
              (given[j] + chunk) as real * (if lanes[k].weight > 0.0 then lanes[k].weight else 0.000000001)
  {
    hide Balanced;
    forall j | 0 <= j < |lanes| && lanes[j].weight > 0.0
      ensures given[k] as real * lanes[j].weight <=
              (given[j] + chunk) as real * (if lanes[k].weight > 0.0 then lanes[k].weight else 0.000000001)
    {
      BalanceMeans(lanes, given, chunk, k, j);
    }
  }

  /** The weights as they are. */
  function WeightSum(lanes: seq<Lane>): real {
    if lanes == [] then 0.0 else WeightSum(lanes[..|lanes| - 1]) + lanes[|lanes| - 1].weight
  }

  lemma {:induction false} PlainWeights(lanes: seq<Lane>)
    requires forall k :: 0 <= k < |lanes| ==> lanes[k].weight > 0.0
    ensures TotalWeight(lanes) == WeightSum(lanes)
    decreases |lanes|
  {
    if lanes != [] {
      PlainWeights(lanes[..|lanes| - 1]);
    }
  }

  function TotalWeight(lanes: seq<Lane>): real {
    if lanes == [] then 0.0 else TotalWeight(lanes[..|lanes| - 1]) + Weight(lanes[|lanes| - 1])
  }

  function Total(given: seq<nat>): nat {
    if given == [] then 0 else Total(given[..|given| - 1]) + given[|given| - 1]
  }

  lemma LoadCross(a: nat, w: real, b: nat, v: real)
    requires w > 0.0 && v > 0.0 && Load(a, w) <= Load(b, v)
    ensures a as real * v <= b as real * w
  {
    var x, y := Load(a, w), Load(b, v);
    assert x * w == a as real && y * v == b as real;
    assert x * (w * v) <= y * (w * v);
  }

  /** What the first n lanes could have carried for lane k to be where it is: one chunk more than
      they did, except lane k itself. */
  function Allowance(given: seq<nat>, chunk: nat, k: nat, n: nat): nat
    requires n <= |given|
  {
    if n == 0 then 0 else Allowance(given, chunk, k, n - 1) + given[n - 1] + (if n - 1 == k then 0 else chunk)
  }

  lemma PairBound(lanes: seq<Lane>, given: seq<nat>, chunk: nat, k: nat, j: nat)
    requires Balanced(lanes, given, chunk) && k < |lanes| && j < |lanes|
    ensures given[k] as real * Weight(lanes[j]) <= (given[j] + (if j == k then 0 else chunk)) as real * Weight(lanes[k])
  {
    if j != k {
      LoadCross(given[k], Weight(lanes[k]), given[j] + chunk, Weight(lanes[j]));
    }
  }

  lemma {:induction false} BoundUpTo(lanes: seq<Lane>, given: seq<nat>, chunk: nat, k: nat, n: nat)
    requires Balanced(lanes, given, chunk) && k < |lanes| && n <= |lanes| == |given|
    ensures given[k] as real * TotalWeight(lanes[..n]) <= Weight(lanes[k]) * Allowance(given, chunk, k, n) as real
  {
    hide Balanced, Weight;
    if n > 0 {
      var j := n - 1;
      BoundUpTo(lanes, given, chunk, k, j);
      PairBound(lanes, given, chunk, k, j);
      assert lanes[..n][..j] == lanes[..j];
      AddUp(given[k] as real, TotalWeight(lanes[..j]), Weight(lanes[j]), Weight(lanes[k]),
            Allowance(given, chunk, k, j), given[j] + (if j == k then 0 else chunk));
    }
  }

  lemma AddUp(a: real, v: real, v': real, w: real, x: nat, y: nat)
    requires a * v <= w * x as real && a * v' <= y as real * w
    ensures a * (v + v') <= w * (x + y) as real
  {
    assert a * (v + v') == a * v + a * v';
    assert w * (x + y) as real == w * x as real + w * y as real;
  }

  lemma {:induction false} AllowanceIs(given: seq<nat>, chunk: nat, k: nat, n: nat)
    requires n <= |given|
    ensures Allowance(given, chunk, k, n) == Total(given[..n]) + (if k < n then n - 1 else n) * chunk
  {
    if n > 0 {
      AllowanceIs(given, chunk, k, n - 1);
      TotalNext(given, n);
      if n - 1 != k {
        OneMore(if k < n - 1 then n - 2 else n - 1, chunk);
      }
    }
  }

  lemma TotalNext(given: seq<nat>, n: nat)
    requires 0 < n <= |given|
    ensures Total(given[..n]) == Total(given[..n - 1]) + given[n - 1]
  {
    assert given[..n][..n - 1] == given[..n - 1];
  }

  lemma OneMore(n: nat, chunk: nat)
    ensures (n + 1) * chunk == n * chunk + chunk
  {
  }

  /** Counting a lane without a positive weight as a very light one. */
  lemma Share(lanes: seq<Lane>, given: seq<nat>, chunk: nat, k: nat, most: nat)
    requires Balanced(lanes, given, chunk) && k < |lanes| == |given|
    requires most == Total(given) + (|lanes| - 1) * chunk
    ensures given[k] as real * TotalWeight(lanes) <= Weight(lanes[k]) * most as real
  {
    hide Weight, TotalWeight, Total, Load, Allowance;
    assert lanes[..|lanes|] == lanes && given[..|lanes|] == given;
    AllowanceIs(given, chunk, k, |lanes|);
    BoundUpTo(lanes, given, chunk, k, |lanes|);
  }

  /** So no lane carries more than its share of the whole transfer, by weight, and one chunk for each
      other lane. */
  lemma ShareBound(lanes: seq<Lane>, given: seq<nat>, chunk: nat, k: nat, most: nat)
    requires Balanced(lanes, given, chunk) && k < |lanes| == |given|
    requires most == Total(given) + (|lanes| - 1) * chunk
    requires forall j :: 0 <= j < |lanes| ==> lanes[j].weight > 0.0
    ensures given[k] as real * WeightSum(lanes) <= lanes[k].weight * most as real
  {
    hide Balanced, WeightSum, TotalWeight, Total;
    Share(lanes, given, chunk, k, most);
    PlainWeights(lanes);
    Rewritten(given[k] as real, TotalWeight(lanes), WeightSum(lanes), Weight(lanes[k]), lanes[k].weight, most);
  }

  lemma Rewritten(a: real, v: real, v': real, w: real, w': real, most: nat)
    requires a * v <= w * most as real && v == v' && w == w'
    ensures a * v' <= w' * most as real
  {
  }
}
