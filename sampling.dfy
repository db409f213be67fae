// Logits as read back from the inference engine, and the rule by which the
// temperature sampler turns them into a token index. Floating point is
// replaced by exact reals; exp(x / temperature) is passed in as a function.
module Sampling {

  /** The output the engine holds under a name, when it holds one. */
  datatype Option<T> = None | Some(value: T)

  /** A tensor read back to the CPU: its shape and its elements in row-major order. */
  datatype Tensor = Tensor(shape: seq<nat>, data: seq<real>)

  /** The vocabulary width: the last dimension of the logits. */
  function VocabSize(t: Tensor): nat
    requires |t.shape| >= 1
  {
    t.shape[|t.shape| - 1]
  }

  /** The sequence length: dimension 1 of a rank-3 output, 1 otherwise. */
  function SeqLen(t: Tensor): nat
    requires |t.shape| >= 1
  {
    if |t.shape| == 3 then t.shape[1] else 1
  }

  /** Start of the slice that is sampled: the last row of the whole output
      width, whichever positions of the input were occupied. */
  function Offset(t: Tensor): int
    requires |t.shape| >= 1
  {
    (SeqLen(t) - 1) * VocabSize(t)
  }

  /** Every element the sampler reads lies inside the tensor. */
  predicate SliceReadable(t: Tensor)
  {
    |t.shape| >= 1 && 0 <= Offset(t) && Offset(t) + VocabSize(t) <= |t.data|
  }

  /** For a rank-3 output [batch, seq, vocab] holding its full data, the
      sampled slice is exactly the logits of position seq-1. */
  lemma {:induction false} OffsetIsLastRow(t: Tensor)
    requires |t.shape| == 3 && t.shape[0] >= 1 && t.shape[1] >= 1
    requires |t.data| == t.shape[0] * t.shape[1] * t.shape[2]
    ensures SliceReadable(t)
    ensures Offset(t) == (t.shape[1] - 1) * t.shape[2]
  {
    var b, s, v := t.shape[0], t.shape[1], t.shape[2];
    assert Offset(t) == (s - 1) * v;
    assert (s - 1) * v + v == s * v;
    MulMonotone(b, s * v);
    assert b * s * v == b * (s * v);
  }

  lemma MulMonotone(b: nat, n: nat)
    requires b >= 1
    ensures n <= b * n
  {
  }

  /** float.MinValue, the starting point of the running maximum. */
  const FloatMinValue: real := -340282346638528859811704183484516925440.0

  /** Mathf.Max. */
  function Max(a: real, b: real): real
  {
    if a > b then a else b
  }

  /** The running maximum `m := Mathf.Max(m, x)` over `s`. */
  function MaxFrom(m: real, s: seq<real>): (r: real)
    ensures m <= r
    ensures forall i :: 0 <= i < |s| ==> s[i] <= r
    ensures r == m || exists i :: 0 <= i < |s| && s[i] == r
    decreases |s|
  {
    if s == [] then m else MaxFrom(Max(m, s[0]), s[1..])
  }

  /** One step of the running maximum. */
  lemma MaxFromStep(m: real, s: seq<real>, i: nat)
    requires i < |s|
    ensures MaxFrom(m, s[i..]) == MaxFrom(Max(m, s[i]), s[i + 1..])
  {
    assert s[i..][1..] == s[i + 1..];
  }

  /** The weight of each entry: exp((x - m) / temperature), with the scaled
      exponential supplied as `scaledExp`. */
  function Weights(logits: seq<real>, m: real, scaledExp: real -> real): (ws: seq<real>)
    ensures |ws| == |logits|
  {
    seq(|logits|, i requires 0 <= i < |logits| => scaledExp(logits[i] - m))
  }

  /** Sum of the first `n` weights. */
  function PrefixSum(ws: seq<real>, n: nat): real
    requires n <= |ws|
  {
    if n == 0 then 0.0 else PrefixSum(ws, n - 1) + ws[n - 1]
  }

  /** The cumulative weight up to and including index `j` reaches `r`. */
  predicate Reaches(ws: seq<real>, r: real, j: int)
    requires 0 <= j < |ws|
  {
    r <= PrefixSum(ws, j + 1)
  }

  /** The selection loop from index `i` on, with `sum` the weight seen so far. */
  function SelectFrom(ws: seq<real>, r: real, i: nat, sum: real): int
    requires i <= |ws|
    decreases |ws| - i
  {
    if i == |ws| then |ws| - 1
    else if r <= sum + ws[i] then i
    else SelectFrom(ws, r, i + 1, sum + ws[i])
  }

  /** The index the sampler returns for weights `ws` and draw `r`: the first
      index whose cumulative weight reaches `r`, else the last index. */
  function Select(ws: seq<real>, r: real): int
  {
    SelectFrom(ws, r, 0, 0.0)
  }

  /** One step of the selection loop: stop at `i` once the running sum
      reaches `r`, otherwise continue from `i + 1`. */
  lemma SelectStep(ws: seq<real>, r: real, i: nat, sum: real)
    requires i < |ws|
    ensures r <= sum + ws[i] ==> SelectFrom(ws, r, i, sum) == i
    ensures !(r <= sum + ws[i]) ==> SelectFrom(ws, r, i, sum) == SelectFrom(ws, r, i + 1, sum + ws[i])
  {
  }

  lemma {:induction false} SelectFromSpec(ws: seq<real>, r: real, i: nat, sum: real)
    requires i <= |ws| && sum == PrefixSum(ws, i)
    requires forall j :: 0 <= j < i ==> !Reaches(ws, r, j)
    ensures var k := SelectFrom(ws, r, i, sum);
      && -1 <= k < |ws|
      && (|ws| >= 1 ==> 0 <= k)
      && (forall j :: 0 <= j < k ==> !Reaches(ws, r, j))
      && ((0 <= k && Reaches(ws, r, k))
          || (k == |ws| - 1 && forall j :: 0 <= j < |ws| ==> !Reaches(ws, r, j)))
    decreases |ws| - i
  {
    if i < |ws| && !(r <= sum + ws[i]) {
      SelectFromSpec(ws, r, i + 1, sum + ws[i]);
    }
  }

  /** Select picks the first index whose cumulative weight reaches `r`; when
      none does, it falls back to the last index (-1 for no weights). */
  lemma SelectIsFirstReaching(ws: seq<real>, r: real)
    ensures -1 <= Select(ws, r) < |ws|
    ensures |ws| >= 1 ==> 0 <= Select(ws, r)
    ensures forall j :: 0 <= j < Select(ws, r) ==> !Reaches(ws, r, j)
    ensures (exists j :: 0 <= j < |ws| && Reaches(ws, r, j))
            ==> 0 <= Select(ws, r) && Reaches(ws, r, Select(ws, r))
    ensures (forall j :: 0 <= j < |ws| ==> !Reaches(ws, r, j))
            ==> Select(ws, r) == |ws| - 1
  {
    SelectFromSpec(ws, r, 0, 0.0);
  }

  /** Select returns an index of `ws`, or -1 when there are no weights. */
  lemma SelectInRange(ws: seq<real>, r: real)
    ensures |ws| >= 1 ==> 0 <= Select(ws, r) < |ws|
    ensures |ws| == 0 ==> Select(ws, r) == -1
  {
    SelectFromSpec(ws, r, 0, 0.0);
  }

  /** With non-negative weights, the cumulative weight never drops. */
  lemma {:induction false} PrefixSumMonotone(ws: seq<real>, a: nat, b: nat)
    requires a <= b <= |ws|
    requires forall i :: 0 <= i < |ws| ==> 0.0 <= ws[i]
    ensures PrefixSum(ws, a) <= PrefixSum(ws, b)
    decreases b - a
  {
    if a < b {
      PrefixSumMonotone(ws, a, b - 1);
    }
  }

  /** With non-negative weights, a weight of 1 at index `k` and a draw in
      [0, 1], the selection stops at or before `k`: the fallback is never used. */
  lemma SelectStopsAtUnitWeight(ws: seq<real>, r: real, k: nat)
    requires forall i :: 0 <= i < |ws| ==> 0.0 <= ws[i]
    requires k < |ws| && ws[k] == 1.0
    requires 0.0 <= r <= 1.0
    ensures 0 <= Select(ws, r) <= k
    ensures Reaches(ws, r, Select(ws, r))
  {
    PrefixSumMonotone(ws, 0, k);
    assert Reaches(ws, r, k);
    SelectIsFirstReaching(ws, r);
  }

  /** Weights from a non-negative exponential are non-negative. */
  lemma WeightsNonNegative(logits: seq<real>, m: real, scaledExp: real -> real)
    requires forall x :: 0.0 <= scaledExp(x)
    ensures forall i :: 0 <= i < |logits| ==> 0.0 <= Weights(logits, m, scaledExp)[i]
  {
    var ws := Weights(logits, m, scaledExp);
    forall i | 0 <= i < |logits| ensures 0.0 <= ws[i] {
      assert ws[i] == scaledExp(logits[i] - m);
    }
  }

  /** An entry equal to the subtracted maximum stops the selection. */
  lemma SelectStopsAtMax(logits: seq<real>, m: real, scaledExp: real -> real, r: real, k: nat)
    requires forall x :: 0.0 <= scaledExp(x)
    requires scaledExp(0.0) == 1.0
    requires 0.0 <= r <= 1.0
    requires k < |logits| && logits[k] == m
    ensures 0 <= Select(Weights(logits, m, scaledExp), r) <= k
  {
    var ws := Weights(logits, m, scaledExp);
    WeightsNonNegative(logits, m, scaledExp);
    assert ws[k] == scaledExp(0.0);
    SelectStopsAtUnitWeight(ws, r, k);
  }

  /** The sampled index never lies past any index that holds the maximal
      logit (in particular the first), because that entry weighs exp(0) = 1
      and the draw is at most 1. */
  lemma SampleNeverPastFirstMax(logits: seq<real>, scaledExp: real -> real, r: real, k: nat)
    requires forall x :: 0.0 <= scaledExp(x)
    requires scaledExp(0.0) == 1.0
    requires 0.0 <= r <= 1.0
    requires k < |logits| && logits[k] == MaxFrom(FloatMinValue, logits)
    ensures 0 <= Select(Weights(logits, MaxFrom(FloatMinValue, logits), scaledExp), r) <= k
  {
    SelectStopsAtMax(logits, MaxFrom(FloatMinValue, logits), scaledExp, r, k);
  }
}
