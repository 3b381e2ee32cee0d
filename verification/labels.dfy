/** The replacement-detection labels of `AdversarialTrainer.train`: after the
    generator step, the generator's masked-LM logits are reduced by arg-max
    over the vocabulary axis, compared position by position with the true
    masked token ids, and the 0/1 result replaces the masked-id slot of the
    batch before the discriminator step.

    Logits are modelled as integers: they are only compared, never combined.
    Ties are broken towards the first index, which is the behaviour assumed of
    `torch.argmax`. */
module Labels {
  import opened Wrappers

  /** The exceptions the tensor library raises on malformed inputs. */
  datatype LabelError =
    | EmptyVocabulary  // arg-max over an empty vocabulary axis
    | ShapeMismatch    // predictions and masked ids differ in shape

  /** The seven tensors of a batch, in order. Only `maskedIds` (slot 3) is
      looked into here; the other slots are opaque tensors of type `T`. */
  datatype BatchTensors<T> = BatchTensors(
    inputIds: T,
    segmentIds: T,
    inputMask: T,
    maskedIds: seq<seq<int>>,
    maskedPos: T,
    maskedWeights: T,
    isNext: T)

  /** `k` indexes a largest entry of `row`, and no earlier entry is as large. */
  predicate IsFirstMax(row: seq<int>, k: int) {
    && 0 <= k < |row|
    && (forall j :: 0 <= j < |row| ==> row[j] <= row[k])
    && (forall j :: 0 <= j < k ==> row[j] < row[k])
  }

  /** Arg-max with first-index tie-breaking, by a left-to-right scan that
      moves only on a strictly larger entry. */
  function ArgMax(row: seq<int>): (k: nat)
    requires |row| > 0
    ensures IsFirstMax(row, k)
  {
    if |row| == 1 then 0
    else
      var k := ArgMax(row[..|row| - 1]);
      if row[k] < row[|row| - 1] then |row| - 1 else k
  }

  /** The first-maximum index is unique, so `ArgMax` is the only index that
      meets `IsFirstMax`. */
  lemma ArgMaxIsTheFirstMax(row: seq<int>, k: int)
    requires |row| > 0
    ensures IsFirstMax(row, k) <==> k == ArgMax(row)
  {
  }

  /** The label of one masked position: 1 when the generator's top-scoring
      token is the true token, else 0. */
  function Label(logits: seq<int>, id: int): (b: int)
    requires |logits| > 0
    ensures b == 0 || b == 1
    ensures b == 1 <==> IsFirstMax(logits, id)
  {
    ArgMaxIsTheFirstMax(logits, id);
    if ArgMax(logits) == id then 1 else 0
  }

  /** Some masked position has an empty vocabulary axis. */
  predicate HasEmptyVocabulary(logits: seq<seq<seq<int>>>) {
    exists b, q :: 0 <= b < |logits| && 0 <= q < |logits[b]| && |logits[b][q]| == 0
  }

  /** The predictions, one per masked position, have the shape of the masked
      ids. */
  predicate SameShape(logits: seq<seq<seq<int>>>, ids: seq<seq<int>>) {
    |logits| == |ids| && forall b :: 0 <= b < |ids| ==> |logits[b]| == |ids[b]|
  }

  /** `labels` has the shape of `ids` and holds, at each masked position, 1
      exactly when the first maximal logit there is the true token id, and 0
      otherwise. */
  predicate LabelsOf(labels: seq<seq<int>>, logits: seq<seq<seq<int>>>, ids: seq<seq<int>>)
    requires SameShape(logits, ids) && !HasEmptyVocabulary(logits)
  {
    && |labels| == |ids|
    && (forall b :: 0 <= b < |ids| ==> |labels[b]| == |ids[b]|)
    && forall b, q :: 0 <= b < |ids| && 0 <= q < |ids[b]| ==>
         && (labels[b][q] == 0 || labels[b][q] == 1)
         && (labels[b][q] == 1 <==> IsFirstMax(logits[b][q], ids[b][q]))
  }

  /** The labels of `torch.argmax(logits, axis=2) == masked_ids` cast to
      0/1. The arg-max is taken first, so an empty vocabulary axis is
      reported before a shape mismatch. */
  function ReplacementLabels(logits: seq<seq<seq<int>>>, ids: seq<seq<int>>): (r: Result<seq<seq<int>>, LabelError>)
    ensures r == Failure(EmptyVocabulary) <==> HasEmptyVocabulary(logits)
    ensures r == Failure(ShapeMismatch) <==> !HasEmptyVocabulary(logits) && !SameShape(logits, ids)
    ensures r.Success? ==> SameShape(logits, ids) && !HasEmptyVocabulary(logits) && LabelsOf(r.value, logits, ids)
  {
    if HasEmptyVocabulary(logits) then
      Failure(EmptyVocabulary)
    else if !SameShape(logits, ids) then
      Failure(ShapeMismatch)
    else
      Success(seq(|ids|, b requires 0 <= b < |ids| =>
        seq(|ids[b]|, q requires 0 <= q < |ids[b]| => Label(logits[b][q], ids[b][q]))))
  }

  /** The batch handed to the discriminator: slot 3 replaced by the labels,
      the other six slots untouched. */
  function Relabel<T>(batch: BatchTensors<T>, logits: seq<seq<seq<int>>>): (r: Result<BatchTensors<T>, LabelError>)
    ensures r.Failure? <==> HasEmptyVocabulary(logits) || !SameShape(logits, batch.maskedIds)
    ensures r.Success? ==>
              && r.value.inputIds == batch.inputIds
              && r.value.segmentIds == batch.segmentIds
              && r.value.inputMask == batch.inputMask
              && r.value.maskedPos == batch.maskedPos
              && r.value.maskedWeights == batch.maskedWeights
              && r.value.isNext == batch.isNext
              && LabelsOf(r.value.maskedIds, logits, batch.maskedIds)
  {
    match ReplacementLabels(logits, batch.maskedIds)
    case Failure(e) => Failure(e)
    case Success(labels) => Success(batch.(maskedIds := labels))
  }

  /** A prediction that scores the true token strictly above every other
      token is labelled 1; a true token tied with an earlier maximum is
      labelled 0. */
  lemma LabelOnTies(logits: seq<int>, id: nat)
    requires id < |logits|
    ensures (forall j :: 0 <= j < |logits| && j != id ==> logits[j] < logits[id]) ==> Label(logits, id) == 1
    ensures (exists j :: 0 <= j < id && logits[j] == logits[id]) ==> Label(logits, id) == 0
  {
  }

  /** A hand-worked example over one row of three masked positions: a clear
      hit, a tie resolved towards the earlier token, and a second hit. */
  lemma ThreePositionExample()
    ensures ReplacementLabels([[[1, 5, 2], [3, 3, 0], [0, 0, 7]]], [[1, 1, 2]]) == Success([[1, 0, 1]])
  {
    var logits := [[[1, 5, 2], [3, 3, 0], [0, 0, 7]]];
    var ids := [[1, 1, 2]];
    assert !HasEmptyVocabulary(logits);
    assert IsFirstMax(logits[0][0], 1);
    assert !IsFirstMax(logits[0][1], 1) by { assert logits[0][1][0] == logits[0][1][1]; }
    assert IsFirstMax(logits[0][2], 2);
    var r := ReplacementLabels(logits, ids);
    assert r.Success? && LabelsOf(r.value, logits, ids);
    var row := r.value[0];
    assert |r.value| == 1 && |row| == 3;
    assert row[0] == 1 && row[1] == 0 && row[2] == 1;
    assert row == [1, 0, 1];
    assert r.value == [row];
  }
}
