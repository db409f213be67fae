// The stand-alone GPT-2 prompt runner: greedy decoding of a [1, seq, vocab]
// logits tensor, one arg-max per position, and the inputs built for a prompt.
// The inference worker and the r50k_base tokenizer are foreign code: the
// logits come in as a value and decoding is passed in as a function.
module ModelExec {
  import opened Sampling
  import Phi3

  /** An integer tensor handed to the inference worker. */
  datatype IntTensor = IntTensor(shape: seq<nat>, data: seq<int>)

  /** A logits tensor of rank 3 holding all its elements, with a non-empty
      vocabulary whenever there is a position to decode. */
  predicate WellShaped(t: Tensor)
  {
    && |t.shape| == 3 && t.shape[0] >= 1
    && |t.data| == t.shape[0] * t.shape[1] * t.shape[2]
    && (t.shape[1] > 0 ==> t.shape[2] > 0)
  }

  lemma RowBounds(t: Tensor, pos: nat)
    requires WellShaped(t) && pos < t.shape[1]
    ensures pos * t.shape[2] + t.shape[2] <= |t.data|
  {
    var b, s, v := t.shape[0], t.shape[1], t.shape[2];
    MulLeft(pos + 1, s, v);
    MulMonotone(b, s * v);
    assert b * s * v == b * (s * v);
  }

  lemma MulLeft(a: nat, c: nat, v: nat)
    requires a <= c
    ensures a * v <= c * v
  {
  }

  /** The logits of batch 0 at position `pos`: the elements [0, pos, 0..vocab). */
  function Row(t: Tensor, pos: nat): (row: seq<real>)
    requires WellShaped(t) && pos < t.shape[1]
    ensures |row| == t.shape[2]
  {
    RowBounds(t, pos);
    t.data[pos * t.shape[2]..pos * t.shape[2] + t.shape[2]]
  }

  /** `k` indexes a maximal entry of `row`, and every entry before it is
      strictly smaller: the lowest index holding the maximum. */
  predicate IsFirstMax(row: seq<real>, k: int)
  {
    && 0 <= k < |row|
    && (forall j :: 0 <= j < |row| ==> row[j] <= row[k])
    && (forall j :: 0 <= j < k ==> row[j] < row[k])
  }

  /** Logits read back from single-precision floats are no lower than
      float.MinValue. */
  predicate InFloatRange(row: seq<real>)
  {
    forall j :: 0 <= j < |row| ==> FloatMinValue <= row[j]
  }

  /** The greedy token holds the maximum the temperature sampler subtracts. */
  lemma FirstMaxIsSamplerMax(row: seq<real>, k: int)
    requires IsFirstMax(row, k) && InFloatRange(row)
    ensures row[k] == MaxFrom(FloatMinValue, row)
  {
    var m := MaxFrom(FloatMinValue, row);
    assert row[k] <= m;
    if m != FloatMinValue {
      var i :| 0 <= i < |row| && row[i] == m;
      assert row[i] <= row[k];
    }
  }

  /** Temperature sampling over a position's logits never picks an index
      past the greedy choice of TensorToToken. */
  lemma SampledNeverPastGreedy(row: seq<real>, k: int, scaledExp: real -> real, r: real)
    requires IsFirstMax(row, k) && InFloatRange(row)
    requires forall x :: 0.0 <= scaledExp(x)
    requires scaledExp(0.0) == 1.0
    requires 0.0 <= r <= 1.0
    ensures 0 <= Select(Weights(row, MaxFrom(FloatMinValue, row), scaledExp), r) <= k
  {
    FirstMaxIsSamplerMax(row, k);
    SampleNeverPastFirstMax(row, scaledExp, r, k);
  }

  /** TensorToToken: for each position, in order, the index of the first
      maximal logit (a later logit replaces the best only when strictly
      greater); the ids are then decoded to text. */
  method TensorToToken(t: Tensor, decode: seq<int> -> string)
    returns (predictedTokens: seq<int>, text: string)
    requires WellShaped(t)
    ensures |predictedTokens| == t.shape[1]
    ensures forall pos :: 0 <= pos < |predictedTokens| ==> IsFirstMax(Row(t, pos), predictedTokens[pos])
    ensures forall pos :: 0 <= pos < |predictedTokens| ==> 0 <= predictedTokens[pos] < t.shape[2]
    ensures text == decode(predictedTokens)
  {
    predictedTokens := [];
    var vocab := t.shape[2];
    var pos := 0;
    while pos < t.shape[1]
      invariant 0 <= pos <= t.shape[1] && |predictedTokens| == pos
      invariant forall p :: 0 <= p < pos ==> IsFirstMax(Row(t, p), predictedTokens[p])
    {
      ghost var row := Row(t, pos);
      RowBounds(t, pos);
      var bestTokenId := 0;
      var bestLogit := t.data[pos * vocab + 0];
      var v := 1;
      while v < vocab
        invariant 1 <= v <= vocab
        invariant 0 <= bestTokenId < v && bestLogit == row[bestTokenId]
        invariant forall j :: 0 <= j < v ==> row[j] <= bestLogit
        invariant forall j :: 0 <= j < bestTokenId ==> row[j] < bestLogit
      {
        var logit := t.data[pos * vocab + v];
        if logit > bestLogit {
          bestLogit := logit;
          bestTokenId := v;
        }
        v := v + 1;
      }
      predictedTokens := predictedTokens + [bestTokenId];
      pos := pos + 1;
    }
    text := decode(predictedTokens);
  }

  /** The inputs PromptModel schedules for an encoded prompt: the ids as a
      [1, n] tensor and an attention mask of n ones. */
  function PromptTensors(tokenIds: seq<int>): (r: (IntTensor, IntTensor))
    ensures r.0.shape == [1, |tokenIds|] && r.0.data == tokenIds
    ensures r.1.shape == [1, |tokenIds|] && |r.1.data| == |tokenIds|
    ensures forall i :: 0 <= i < |tokenIds| ==> r.1.data[i] == 1
  {
    (IntTensor([1, |tokenIds|], tokenIds), IntTensor([1, |tokenIds|], Phi3.Repeat(1, |tokenIds|)))
  }
}
