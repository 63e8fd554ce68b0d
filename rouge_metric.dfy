/**
 * The ROUGE accumulator object: an append-only record store, a watermark
 * counting the records scored so far and a batch size fixed at construction.
 * Both methods update the fields in place, as the original does, and each is
 * proved to update them exactly as the value-level model in module Batching
 * says.
 */
module Metrics {
  import opened Records
  import opened Batching

  const DefaultBatchSize: int := 1000

  class RougeMetric<R> {
    /** The record store (`data`). */
    var data: seq<Record<R>>
    /** The watermark (`computed_data_size`). */
    var computedDataSize: nat
    /** `BATCH_SIZE`, fixed at construction. */
    const batchSize: PosInt
    /** The configured ROUGE engine's `get_scores`. */
    const score: Scorer<R>
    /** The records handed to `StoreData`, in arrival order, as they were built. */
    ghost var ingested: seq<Record<R>>

    /** The fields that the two methods update, as a value. */
    function Current(): State<R>
      reads this
    {
      State(data, computedDataSize)
    }

    /**
     * The object is in a state that a fresh accumulator reaches through
     * `StoreData` alone, fed the records in `ingested`.
     */
    ghost predicate BuiltByStoreData()
      reads this
    {
      Current() == Run(batchSize, score, ingested)
    }

    /** An empty store, a watermark of 0 and the given batch size and engine. */
    constructor (score: Scorer<R>, batchSize: int := DefaultBatchSize)
      requires batchSize > 0
      ensures this.batchSize == batchSize && this.score == score
      ensures data == [] && computedDataSize == 0 && ingested == []
      ensures BuiltByStoreData()
    {
      this.batchSize := batchSize;
      this.score := score;
      data := [];
      computedDataSize := 0;
      ingested := [];
    }

    /**
     * `compute_metric_value`: scores every record of the slice
     * `[start, |data|)`, where `start` is the watermark when it is
     * batch-aligned and 0 otherwise, and advances the watermark once per
     * record scored.
     */
    method ComputeMetricValue()
      modifies this
      ensures Current() == Compute(batchSize, score, old(Current()))
      ensures |data| == |old(data)|
      ensures var start := SliceStart(old(computedDataSize), batchSize);
        && computedDataSize == old(computedDataSize) + SliceLength(start, |data|)
        && (forall i :: 0 <= i < |data| ==>
              data[i] == if start <= i then ScoreRecord(score, old(data)[i]) else old(data)[i])
      ensures ingested == old(ingested)
    {
      var start := 0;
      var end := |data|;
      if computedDataSize % batchSize == 0 {
        start := computedDataSize;
      }
      var i := start;
      while i < end
        invariant start <= i && (start <= end ==> i <= end) && (end < start ==> i == start)
        invariant |data| == end
        invariant computedDataSize == old(computedDataSize) + (i - start)
        invariant forall j :: 0 <= j < end ==>
          data[j] == if start <= j < i then ScoreRecord(score, old(data)[j]) else old(data)[j]
        invariant ingested == old(ingested)
      {
        ScoreRecordInPlace(i);
        computedDataSize := computedDataSize + 1;
        i := i + 1;
      }
      assert start == SliceStart(old(computedDataSize), batchSize);
      assert computedDataSize == old(computedDataSize) + SliceLength(start, end);
      assert data == ScoreFrom(score, old(data), start);
    }

    /**
     * The body of the scoring loop for one record: for each processor key in
     * turn, the slot is overwritten in place by its previous value together
     * with that value's scores against the record's reference text.
     */
    method ScoreRecordInPlace(i: nat)
      requires i < |data|
      modifies this
      ensures data == old(data)[i := ScoreRecord(score, old(data)[i])]
      ensures computedDataSize == old(computedDataSize) && ingested == old(ingested)
    {
      var dataReference := data[i].reference;
      ghost var before := data[i];
      var k := 0;
      while k < |Processors|
        invariant 0 <= k <= |Processors|
        invariant |data| == |old(data)|
        invariant forall j :: 0 <= j < |data| && j != i ==> data[j] == old(data)[j]
        invariant data[i].fileReference == before.fileReference && data[i].reference == dataReference
        invariant forall j :: 0 <= j < k ==>
          data[i].Get(Processors[j]) == ScoreSlot(score, before.Get(Processors[j]), dataReference)
        invariant forall j :: k <= j < |Processors| ==> data[i].Get(Processors[j]) == before.Get(Processors[j])
        invariant computedDataSize == old(computedDataSize) && ingested == old(ingested)
      {
        var key := Processors[k];
        var previous := data[i].Get(key);
        data := data[i := data[i].With(key, Scored(previous, score(previous, dataReference)))];
        k := k + 1;
      }
      forall p | true
        ensures data[i].Get(p) == ScoreRecord(score, before).Get(p)
      {
        assert p == Processors[0] || p == Processors[1] || p == Processors[2];
      }
      RecordExtensionality(data[i], ScoreRecord(score, before));
    }

    /**
     * `store_data`: when the store already holds a positive multiple of the
     * batch size, runs a scoring pass first; then appends the new raw record.
     */
    method StoreData(fileReference: Text, reference: Text, simpleProcessor: Text, ganProcessor: Text,
                     decrappificationProcessor: Text)
      modifies this
      ensures var rec := RawRecord(fileReference, reference, simpleProcessor, ganProcessor, decrappificationProcessor);
        && Current() == Store(batchSize, score, old(Current()), rec)
        && ingested == old(ingested) + [rec]
        && |data| == |old(data)| + 1
        && data[|old(data)|] == rec
      ensures Triggers(batchSize, |old(data)|) ==> data[..|old(data)|] == Compute(batchSize, score, old(Current())).data
      ensures !Triggers(batchSize, |old(data)|) ==>
        data[..|old(data)|] == old(data) && computedDataSize == old(computedDataSize)
      ensures old(BuiltByStoreData()) ==>
        && BuiltByStoreData()
        && computedDataSize % batchSize == 0
        && computedDataSize <= |data|
        && computedDataSize == Watermark(batchSize, |data|)
    {
      ghost var before := Current();
      var rec := RawRecord(fileReference, reference, simpleProcessor, ganProcessor, decrappificationProcessor);
      var dataLength := |data|;
      if dataLength % batchSize == 0 && dataLength > 0 {
        ComputeMetricValue();
      }
      data := data + [rec];
      ingested := ingested + [rec];
      StoreEffect(batchSize, score, before, rec);
      RunAppend(batchSize, score, old(ingested), rec);
      RunShape(batchSize, score, ingested);
    }
  }

  /**
   * A client of the class: with a batch of 2, four ingestions score the first
   * two records when the third arrives and leave the last two raw.
   */
  method TraceOfFourIngestions<R>(score: Scorer<R>) returns (m: RougeMetric<R>)
    ensures m.batchSize == 2 && m.computedDataSize == 2 && |m.data| == 4
    ensures IsScoredOnce(m.data[0]) && IsScoredOnce(m.data[1])
    ensures IsRaw(m.data[2]) && IsRaw(m.data[3])
  {
    m := new RougeMetric(score, 2);
    m.StoreData("a.png", "alpha", "a1", "a2", "a3");
    assert m.computedDataSize == 0 && IsRaw(m.ingested[0]);
    m.StoreData("b.png", "beta", "b1", "b2", "b3");
    assert m.computedDataSize == 0 && IsRaw(m.ingested[1]);
    m.StoreData("c.png", "gamma", "c1", "c2", "c3");
    assert m.computedDataSize == 2 && IsRaw(m.ingested[2]);
    m.StoreData("d.png", "delta", "d1", "d2", "d3");
    assert |m.ingested| == 4 && IsRaw(m.ingested[3]);
    assert Watermark(2, 4) == 2;
    RunNoPartialRecord(2, score, m.ingested);
  }

  /**
   * A client that reaches the non-aligned fallback through public calls only:
   * with a batch of 2, three ingestions, a direct pass over the unfilled last
   * batch, then two more ingestions. The fifth ingestion re-scores from index
   * 0, so record 0 is scored twice and the watermark passes the store length.
   */
  method ManualPassThenFallbackOnObject<R>(score: Scorer<R>) returns (m: RougeMetric<R>)
    ensures m.computedDataSize == 7 && |m.data| == 5
    ensures forall p :: TimesScored(m.data[0].Get(p)) == 2 && TimesScored(m.data[3].Get(p)) == 1
    ensures IsRaw(m.data[4])
  {
    m := new RougeMetric(score, 2);
    m.StoreData("a.png", "alpha", "a1", "a2", "a3");
    m.StoreData("b.png", "beta", "b1", "b2", "b3");
    m.StoreData("c.png", "gamma", "c1", "c2", "c3");
    ghost var i3 := m.ingested;
    assert |i3| == 3 && i3 == [i3[0], i3[1], i3[2]];
    ghost var st3 := m.Current();
    assert st3 == Run(2, score, [i3[0], i3[1], i3[2]]);
    m.ComputeMetricValue();
    ghost var manual := m.Current();
    var rd := RawRecord<R>("d.png", "delta", "d1", "d2", "d3");
    m.StoreData("d.png", "delta", "d1", "d2", "d3");
    ghost var s4 := m.Current();
    assert s4 == Store(2, score, manual, rd);
    var re := RawRecord<R>("e.png", "epsilon", "e1", "e2", "e3");
    m.StoreData("e.png", "epsilon", "e1", "e2", "e3");
    assert m.Current() == Store(2, score, s4, re);
    ManualPassThenFallback(score, i3[0], i3[1], i3[2], rd, re);
    assert m.data[0] == ScoreRecord(score, ScoreRecord(score, i3[0]));
    assert m.data[3] == ScoreRecord(score, rd);
    assert IsRaw(i3[0]);
    ScoredTwiceRaw(score, i3[0]);
    ScoredTwiceRaw(score, rd);
  }
}
