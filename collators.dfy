/**
 * The vision data collator: it adds to a processed batch a `labels` tensor that is a copy of
 * `input_ids` in which the padding token and the image token are replaced by the loss's ignore
 * index, so that neither contributes to the loss.
 *
 * A tensor is a two-dimensional integer array (batch row by sequence position). The tokenizer's
 * `pad_token_id` and the id that `convert_tokens_to_ids` gives for the processor's image token
 * are held by the collator as parameters.
 */
module Collators {
  import opened Wrappers

  /** The label value the loss ignores. */
  const IgnoreIndex := -100

  /** One masking pass, `labels[labels == id] = -100`, on a single position. */
  function MaskValue(x: int, id: int): int {
    if x == id then IgnoreIndex else x
  }

  /** The label at one position: the pad pass (when there is a pad id), then the image pass. */
  function LabelFor(x: int, padTokenId: Option<int>, imageTokenId: int): (r: int)
    ensures padTokenId == Some(x) || x == imageTokenId ==> r == IgnoreIndex
    ensures !(padTokenId == Some(x) || x == imageTokenId) ==> r == x
  {
    var afterPad := if padTokenId.Some? then MaskValue(x, padTokenId.value) else x;
    MaskValue(afterPad, imageTokenId)
  }

  /** `tensor.clone()`: a new tensor of the same shape and contents. */
  method Clone(a: array2<int>) returns (c: array2<int>)
    ensures fresh(c)
    ensures c.Length0 == a.Length0 && c.Length1 == a.Length1
    ensures forall i, j :: 0 <= i < a.Length0 && 0 <= j < a.Length1 ==> c[i, j] == a[i, j]
  {
    c := new int[a.Length0, a.Length1];
    var i := 0;
    while i < a.Length0
      invariant 0 <= i <= a.Length0
      invariant forall i', j :: 0 <= i' < i && 0 <= j < a.Length1 ==> c[i', j] == a[i', j]
    {
      var j := 0;
      while j < a.Length1
        invariant 0 <= j <= a.Length1
        invariant forall i', j' :: 0 <= i' < i && 0 <= j' < a.Length1 ==> c[i', j'] == a[i', j']
        invariant forall j' :: 0 <= j' < j ==> c[i, j'] == a[i, j']
      {
        c[i, j] := a[i, j];
        j := j + 1;
      }
      i := i + 1;
    }
  }

  /** `a[a == id] = -100`: every position holding `id` now holds the ignore index. */
  method MaskEqual(a: array2<int>, id: int)
    modifies a
    ensures forall i, j :: 0 <= i < a.Length0 && 0 <= j < a.Length1 ==> a[i, j] == MaskValue(old(a[i, j]), id)
  {
    var i := 0;
    while i < a.Length0
      invariant 0 <= i <= a.Length0
      invariant forall i', j :: 0 <= i' < i && 0 <= j < a.Length1 ==> a[i', j] == MaskValue(old(a[i', j]), id)
      invariant forall i', j :: i <= i' < a.Length0 && 0 <= j < a.Length1 ==> a[i', j] == old(a[i', j])
    {
      var j := 0;
      while j < a.Length1
        invariant 0 <= j <= a.Length1
        invariant forall i', j' :: 0 <= i' < i && 0 <= j' < a.Length1 ==> a[i', j'] == MaskValue(old(a[i', j']), id)
        invariant forall j' :: 0 <= j' < j ==> a[i, j'] == MaskValue(old(a[i, j']), id)
        invariant forall i', j' :: i <= i' < a.Length0 && 0 <= j' < a.Length1 && (i' > i || j' >= j) ==> a[i', j'] == old(a[i', j'])
      {
        if a[i, j] == id {
          a[i, j] := IgnoreIndex;
        }
        j := j + 1;
      }
      i := i + 1;
    }
  }

  /** A processed batch: a dict from field name to tensor, updated in place by the collator. */
  class Batch {
    var entries: map<string, array2<int>>

    constructor(entries: map<string, array2<int>>)
      ensures this.entries == entries
    {
      this.entries := entries;
    }
  }

  datatype CollateError = MissingKey(key: string)  // `batch["input_ids"]` raises KeyError

  class VisionDataCollator {
    const padTokenId: Option<int>  // processor.tokenizer.pad_token_id
    const imageTokenId: int        // convert_tokens_to_ids(processor.image_token)
    const textFieldName: string
    const imageFieldName: string

    constructor(padTokenId: Option<int>, imageTokenId: int, textFieldName: string, imageFieldName: string)
      ensures this.padTokenId == padTokenId && this.imageTokenId == imageTokenId
      ensures this.textFieldName == textFieldName && this.imageFieldName == imageFieldName
    {
      this.padTokenId := padTokenId;
      this.imageTokenId := imageTokenId;
      this.textFieldName := textFieldName;
      this.imageFieldName := imageFieldName;
    }

    /**
     * `__call__`: stores under `labels` a new tensor, shaped like `input_ids`, holding the
     * label of each input position, and returns the same batch; nothing else in the batch, and
     * not `input_ids` itself, changes.
     */
    method Call(batch: Batch) returns (r: Result<Batch, CollateError>)
      modifies batch
      ensures "input_ids" !in old(batch.entries) ==>
        r == Failure(MissingKey("input_ids")) && batch.entries == old(batch.entries)
      ensures "input_ids" in old(batch.entries) ==> r == Success(batch)
      ensures "input_ids" in old(batch.entries) ==>
        var input := old(batch.entries)["input_ids"];
        && batch.entries.Keys == old(batch.entries).Keys + {"labels"}
        && (forall k :: k in old(batch.entries) && k != "labels" ==> batch.entries[k] == old(batch.entries)[k])
        && fresh(batch.entries["labels"])
        && batch.entries["labels"].Length0 == input.Length0
        && batch.entries["labels"].Length1 == input.Length1
        && (forall i, j :: 0 <= i < input.Length0 && 0 <= j < input.Length1 ==>
              batch.entries["labels"][i, j] == LabelFor(input[i, j], padTokenId, imageTokenId))
        && (forall i, j :: 0 <= i < input.Length0 && 0 <= j < input.Length1 ==> input[i, j] == old(input[i, j]))
    {
      if "input_ids" !in batch.entries {
        return Failure(MissingKey("input_ids"));
      }
      var input := batch.entries["input_ids"];
      var labels := Clone(input);
      if padTokenId.Some? {
        MaskEqual(labels, padTokenId.value);
      }
      MaskEqual(labels, imageTokenId);
      batch.entries := batch.entries["labels" := labels];
      return Success(batch);
    }
  }
}
