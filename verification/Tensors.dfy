/** Tensors as the server sees them, and choosing the next token from a logits tensor. */
module Tensors {
  import opened Records

  const USIZE_LIMIT: nat := 0x1_0000_0000_0000_0000

  /**
   * Shape and row-major values.  A value stands for the rank of its float in the
   * total order of `f32::total_cmp`, so ties are exactly equal ranks.
   */
  datatype Tensor = Tensor(shape: seq<int>, data: seq<int>)

  /** `max_by` keeps the later of two equal maxima. */
  function MaxBy(row: seq<int>): (best: nat)
    requires row != []
    ensures best < |row|
    ensures forall i :: 0 <= i < |row| ==> row[i] <= row[best]
    ensures forall i :: best < i < |row| ==> row[i] < row[best]
  {
    var n := |row| - 1;
    if n == 0 then 0
    else
      var front := row[..n];
      var k := MaxBy(front);
      assert forall i :: 0 <= i < n ==> row[i] == front[i];
      assert forall i :: 0 <= i < n ==> row[i] <= row[k];
      assert forall i :: k < i < n ==> row[i] < row[k];
      if row[k] > row[n] then k else n
  }

  /** The usable part of a logits tensor: its last sequence position. */
  predicate WellShaped(logits: Tensor) {
    && |logits.shape| == 3
    && logits.shape[1] > 0 && logits.shape[2] > 0
    && logits.shape[1] * logits.shape[2] < USIZE_LIMIT
    && logits.shape[1] * logits.shape[2] <= |logits.data|
  }

  function ArgmaxLastToken(logits: Tensor): (token: Option<nat>)
    ensures token.Some? <==> WellShaped(logits)
  {
    if |logits.shape| != 3 then None
    else if logits.shape[1] < 0 || logits.shape[2] < 0 then None
    else
      var seqLen, vocabSize := logits.shape[1], logits.shape[2];
      if seqLen == 0 || vocabSize == 0 then
        assert !WellShaped(logits);
        None
      else
        var start := (seqLen - 1) * vocabSize;
        var end := start + vocabSize;
        LastRow(seqLen, vocabSize);
        if start >= USIZE_LIMIT then None
        else if end >= USIZE_LIMIT then None
        else if end > |logits.data| then None
        else Some(MaxBy(logits.data[start..end]))
  }

  lemma LastRow(seqLen: int, vocabSize: int)
    requires seqLen > 0 && vocabSize > 0
    ensures (seqLen - 1) * vocabSize + vocabSize == seqLen * vocabSize
    ensures (seqLen - 1) * vocabSize >= 0
  {
  }

  /** The token chosen is the last index of the largest value at the last position. */
  lemma ArgmaxMeaning(logits: Tensor)
    requires WellShaped(logits)
    ensures var token := ArgmaxLastToken(logits).value;
            var vocabSize, base := logits.shape[2], (logits.shape[1] - 1) * logits.shape[2];
            && 0 <= base && token < vocabSize && base + vocabSize <= |logits.data|
            && (forall k :: base <= k < base + vocabSize ==> logits.data[k] <= logits.data[base + token])
            && (forall k :: base + token < k < base + vocabSize ==> logits.data[k] < logits.data[base + token])
  {
    LastRow(logits.shape[1], logits.shape[2]);
    var vocabSize, base := logits.shape[2], (logits.shape[1] - 1) * logits.shape[2];
    var row := logits.data[base..base + vocabSize];
    assert forall k :: base <= k < base + vocabSize ==> logits.data[k] == row[k - base];
  }

  /** `token` is the last index of the largest value at the last position. */
  predicate LastMaximum(logits: Tensor, token: int)
    requires WellShaped(logits)
  {
    var vocabSize, base := logits.shape[2], (logits.shape[1] - 1) * logits.shape[2];
    && 0 <= token < vocabSize && 0 <= base && base + vocabSize <= |logits.data|
    && (forall k :: base <= k < base + vocabSize ==> logits.data[k] <= logits.data[base + token])
    && (forall k :: base + token < k < base + vocabSize ==> logits.data[k] < logits.data[base + token])
  }

  lemma LastMaximumUnique(logits: Tensor, a: int, b: int)
    requires WellShaped(logits) && LastMaximum(logits, a) && LastMaximum(logits, b)
    ensures a == b
  {
    var base := (logits.shape[1] - 1) * logits.shape[2];
    assert logits.data[base + a] <= logits.data[base + b];
    assert logits.data[base + b] <= logits.data[base + a];
  }
}
