/**
 * The batching state machine of the ROUGE accumulator as values: the record
 * store with its processed-count watermark, one scoring pass
 * (`compute_metric_value`), one ingestion (`store_data`) and the state that a
 * fresh accumulator reaches through a sequence of ingestions.
 *
 * The class in module Metrics is proved to update its fields exactly as
 * `Compute` and `Store` say; the lemmas here state what those updates mean.
 */
module Batching {
  import opened Records

  type PosInt = n: int | n > 0 witness 1

  /** The accumulator's mutable part: the store and the watermark. */
  datatype State<R> = State(data: seq<Record<R>>, computed: nat)

  /**
   * First index the scoring pass visits: the watermark when it is a multiple
   * of the batch size, otherwise the start of the store. Either way the pass
   * starts on a batch boundary at or below the watermark.
   */
  function SliceStart(computed: nat, batch: PosInt): (start: nat)
    ensures start % batch == 0
    ensures start <= computed
    ensures start == computed || start == 0
    ensures computed % batch == 0 ==> start == computed
  {
    if computed % batch == 0 then computed else 0
  }

  /** How many records the slice `[start, end)` holds (empty when start passes end). */
  function SliceLength(start: nat, end: nat): (n: nat)
    ensures start <= end ==> start + n == end
    ensures end <= start ==> n == 0
  {
    if start < end then end - start else 0
  }

  /**
   * The store after the scoring loop has visited indices `lo`, `lo + 1`, ...
   * up to the end, one record at a time.
   */
  function ScoreFrom<R>(score: Scorer<R>, d: seq<Record<R>>, lo: nat): (r: seq<Record<R>>)
    ensures |r| == |d|
    ensures forall i :: 0 <= i < |d| ==> r[i] == if lo <= i then ScoreRecord(score, d[i]) else d[i]
    decreases |d| - lo
  {
    if lo >= |d| then d
    else ScoreFrom(score, d[lo := ScoreRecord(score, d[lo])], lo + 1)
  }

  /**
   * `compute_metric_value`: a scoring pass scores exactly the records of its
   * slice, leaves every other record as it was, keeps the store's length and
   * advances the watermark by the slice's length, one per record scored (so
   * never backwards).
   */
  function Compute<R>(batch: PosInt, score: Scorer<R>, st: State<R>): (r: State<R>)
    ensures var start := SliceStart(st.computed, batch);
      && |r.data| == |st.data|
      && r.computed == st.computed + SliceLength(start, |st.data|)
      && r.computed >= st.computed
      && (forall i :: 0 <= i < start && i < |st.data| ==> r.data[i] == st.data[i])
      && (forall i :: start <= i < |st.data| ==> r.data[i] == ScoreRecord(score, st.data[i]))
  {
    var start := SliceStart(st.computed, batch);
    State(ScoreFrom(score, st.data, start), st.computed + SliceLength(start, |st.data|))
  }

  /**
   * The condition `store_data` checks on the store length before appending:
   * the store holds a whole, positive number of batches.
   */
  predicate Triggers(batch: PosInt, length: nat)
    ensures Triggers(batch, length) ==> length >= batch
  {
    WatermarkStep(batch, length);
    length % batch == 0 && length > 0
  }

  /**
   * `store_data`: run a scoring pass if the pre-append length is due, then
   * append. The store grows by exactly the given record, at the end, and the
   * watermark never goes down (the rest is `StoreEffect`).
   */
  function Store<R>(batch: PosInt, score: Scorer<R>, st: State<R>, rec: Record<R>): (r: State<R>)
    ensures |r.data| == |st.data| + 1 && r.data[|st.data|] == rec
    ensures r.computed >= st.computed
  {
    var mid := if Triggers(batch, |st.data|) then Compute(batch, score, st) else st;
    State(mid.data + [rec], mid.computed)
  }

  /**
   * The state of a fresh accumulator after one `store_data` per element of
   * `inputs`, in order: one record per ingestion, the last one as ingested.
   */
  function Run<R>(batch: PosInt, score: Scorer<R>, inputs: seq<Record<R>>): (r: State<R>)
    ensures |r.data| == |inputs|
    ensures inputs != [] ==> r.data[|inputs| - 1] == inputs[|inputs| - 1]
    decreases |inputs|
  {
    if inputs == [] then State([], 0)
    else Store(batch, score, Run(batch, score, inputs[..|inputs| - 1]), inputs[|inputs| - 1])
  }

  // ---------------------------------------------------------------------------
  // compute_metric_value

  /**
   * With a batch-aligned watermark the pass resumes at the watermark: records
   * below it are untouched, records from it on are scored, and the watermark
   * ends at the store length (or stays, if it was already past it).
   */
  lemma ComputeAligned<R>(batch: PosInt, score: Scorer<R>, st: State<R>)
    requires st.computed % batch == 0
    ensures var r := Compute(batch, score, st);
      && (forall i :: 0 <= i < |st.data| ==>
            r.data[i] == if i < st.computed then st.data[i] else ScoreRecord(score, st.data[i]))
      && r.computed == if st.computed <= |st.data| then |st.data| else st.computed
  {
  }

  /**
   * With a watermark that is not batch-aligned the pass re-scores the whole
   * store from index 0, and still adds the store length to the watermark.
   */
  lemma ComputeFallback<R>(batch: PosInt, score: Scorer<R>, st: State<R>)
    requires st.computed % batch != 0
    ensures var r := Compute(batch, score, st);
      && (forall i :: 0 <= i < |st.data| ==> r.data[i] == ScoreRecord(score, st.data[i]))
      && r.computed == st.computed + |st.data|
  {
  }

  /**
   * The fallback can carry the watermark past the end of the store: with a
   * batch of 2, one record and a watermark of 1, the pass leaves a watermark
   * of 2 over a store of one record.
   */
  lemma FallbackOvershoots<R>(score: Scorer<R>, rec: Record<R>)
    ensures var r := Compute(2, score, State([rec], 1));
      r.computed == 2 && |r.data| == 1 && r.computed > |r.data|
  {
    ComputeFallback(2, score, State([rec], 1));
  }

  /**
   * A pass started on a watermark equal to the store length, batch-aligned,
   * processes an empty slice and changes nothing.
   */
  lemma ComputeCaughtUpIsNoOp<R>(batch: PosInt, score: Scorer<R>, st: State<R>)
    requires st.computed % batch == 0 && st.computed == |st.data|
    ensures Compute(batch, score, st) == st
  {
    var r := Compute(batch, score, st);
    assert r.data == st.data;
  }

  /**
   * Calling `compute_metric_value` again straight after a triggered pass (a
   * store whose length is a multiple of the batch size and an aligned
   * watermark within it) changes nothing.
   */
  lemma SecondPassIsNoOp<R>(batch: PosInt, score: Scorer<R>, st: State<R>)
    requires st.computed % batch == 0 && st.computed <= |st.data| && |st.data| % batch == 0
    ensures Compute(batch, score, Compute(batch, score, st)) == Compute(batch, score, st)
  {
    var r := Compute(batch, score, st);
    ComputeAligned(batch, score, st);
    ComputeCaughtUpIsNoOp(batch, score, r);
  }

  // ---------------------------------------------------------------------------
  // store_data

  /**
   * Ingestion grows the store by exactly one record, the given one, at the
   * end; every earlier record keeps its position. The pass runs exactly when
   * the pre-append length is positive and a multiple of the batch size:
   * without it the earlier records and the watermark are unchanged, with it
   * they are those of the pass. The new record itself is never scored by its
   * own ingestion.
   */
  lemma StoreEffect<R>(batch: PosInt, score: Scorer<R>, st: State<R>, rec: Record<R>)
    ensures var r := Store(batch, score, st, rec);
      && |r.data| == |st.data| + 1
      && r.data[|st.data|] == rec
      && (Triggers(batch, |st.data|) ==>
            r.data[..|st.data|] == Compute(batch, score, st).data && r.computed == Compute(batch, score, st).computed)
      && (!Triggers(batch, |st.data|) ==> r.data[..|st.data|] == st.data && r.computed == st.computed)
  {
    var r := Store(batch, score, st, rec);
    var mid := if Triggers(batch, |st.data|) then Compute(batch, score, st) else st;
    assert r.data[..|st.data|] == mid.data;
  }

  // ---------------------------------------------------------------------------
  // States reachable from a fresh accumulator through store_data alone

  lemma {:induction false} RunAppend<R>(batch: PosInt, score: Scorer<R>, inputs: seq<Record<R>>, rec: Record<R>)
    ensures Run(batch, score, inputs + [rec]) == Store(batch, score, Run(batch, score, inputs), rec)
  {
    assert (inputs + [rec])[..|inputs|] == inputs;
  }

  // Integer facts behind the watermark formula `batch * ((n - 1) / batch)`.

  lemma MulAtLeast(batch: PosInt, d: int)
    requires d >= 1
    ensures batch * d >= batch
  {
  }

  /** Quotient and remainder are determined by any decomposition `n == batch * q + t` with `0 <= t < batch`. */
  lemma DivUnique(batch: PosInt, n: int, q: int, t: int)
    requires n == batch * q + t && 0 <= t < batch
    ensures n / batch == q && n % batch == t
  {
    var q', t' := n / batch, n % batch;
    assert n == batch * q' + t';
    assert batch * (q - q') == t' - t;
    if q - q' >= 1 {
      MulAtLeast(batch, q - q');
    } else if q' - q >= 1 {
      MulAtLeast(batch, q' - q);
    }
  }

  lemma WatermarkStep(batch: PosInt, m: nat)
    ensures m % batch == 0 ==> batch * (m / batch) == m
    ensures m > 0 && m % batch != 0 ==> (m - 1) / batch == m / batch
    ensures 0 <= batch * (m / batch) <= m
    ensures (batch * (m / batch)) % batch == 0
  {
    if m > 0 && m % batch != 0 {
      DivUnique(batch, m - 1, m / batch, m % batch - 1);
    }
    DivUnique(batch, batch * (m / batch), m / batch, 0);
  }

  /** The watermark a fresh accumulator holds after `n` ingestions. */
  function Watermark(batch: PosInt, n: nat): (w: nat)
    ensures w % batch == 0
    ensures n == 0 ==> w == 0
    ensures n > 0 ==> w < n
  {
    if n == 0 then 0
    else
      WatermarkStep(batch, n - 1);
      batch * ((n - 1) / batch)
  }

  /**
   * After `n` ingestions on a fresh accumulator the store holds the `n`
   * records in arrival order, the watermark is `batch * ((n - 1) / batch)`
   * (0 for no ingestion), a multiple of the batch size and at most the store
   * length, every record below it has been scored exactly once and every
   * record from it on is still as it was ingested.
   */
  lemma {:induction false} RunShape<R>(batch: PosInt, score: Scorer<R>, inputs: seq<Record<R>>)
    ensures var st := Run(batch, score, inputs);
      && |st.data| == |inputs|
      && st.computed == Watermark(batch, |inputs|)
      && st.computed % batch == 0
      && st.computed <= |st.data|
      && (forall i :: 0 <= i < st.computed ==> st.data[i] == ScoreRecord(score, inputs[i]))
      && (forall i :: st.computed <= i < |inputs| ==> st.data[i] == inputs[i])
    decreases |inputs|
  {
    if inputs != [] {
      var n := |inputs|;
      var m := n - 1;
      var prefix := inputs[..m];
      var rec := inputs[m];
      RunShape(batch, score, prefix);
      var prev := Run(batch, score, prefix);
      var st := Run(batch, score, inputs);
      assert st == Store(batch, score, prev, rec);
      StoreEffect(batch, score, prev, rec);
      WatermarkStep(batch, m);
      if Triggers(batch, m) {
        ComputeAligned(batch, score, prev);
        assert st.computed == m;
        forall i | 0 <= i < st.computed
          ensures st.data[i] == ScoreRecord(score, inputs[i])
        {
          assert st.data[i] == st.data[..m][i];
          assert prefix[i] == inputs[i];
          if i >= prev.computed {
            assert prev.data[i] == prefix[i];
          } else {
            assert prev.data[i] == ScoreRecord(score, prefix[i]);
          }
        }
      } else {
        assert st.computed == prev.computed;
        forall i | 0 <= i < m
          ensures st.data[i] == prev.data[i] && prefix[i] == inputs[i]
        {
          assert st.data[i] == st.data[..m][i];
        }
      }
    }
  }

  /**
   * The "no partially scored record" invariant: when every ingested record was
   * raw, every record of a reachable store is either raw or has all three
   * slots scored exactly once, and which one it is depends only on whether it
   * lies below the watermark.
   */
  lemma RunNoPartialRecord<R>(batch: PosInt, score: Scorer<R>, inputs: seq<Record<R>>)
    requires forall i :: 0 <= i < |inputs| ==> IsRaw(inputs[i])
    ensures var st := Run(batch, score, inputs);
      forall i :: 0 <= i < |st.data| ==>
        (i < st.computed ==> IsScoredOnce(st.data[i])) && (st.computed <= i ==> IsRaw(st.data[i]))
  {
    RunShape(batch, score, inputs);
    var st := Run(batch, score, inputs);
    forall i | 0 <= i < st.computed
      ensures IsScoredOnce(st.data[i])
    {
      ScoreRawRecord(score, inputs[i]);
    }
  }

  /**
   * On a reachable store, an ingestion advances the watermark exactly when it
   * triggers a pass, and the record it appends is still unscored when it
   * returns.
   */
  lemma StoreAdvancesIffTriggered<R>(batch: PosInt, score: Scorer<R>, inputs: seq<Record<R>>, rec: Record<R>)
    ensures var before := Run(batch, score, inputs);
      var after := Run(batch, score, inputs + [rec]);
      && |after.data| == |inputs| + 1
      && (after.computed > before.computed <==> Triggers(batch, |inputs|))
      && (Triggers(batch, |inputs|) ==> after.computed == |inputs|)
      && after.computed <= |inputs|
      && after.data[|inputs|] == rec
  {
    RunShape(batch, score, inputs);
    RunShape(batch, score, inputs + [rec]);
    RunAppend(batch, score, inputs, rec);
    WatermarkStep(batch, |inputs|);
    StoreEffect(batch, score, Run(batch, score, inputs), rec);
  }

  /**
   * Ingesting exactly `batch` records and then one more runs one pass over
   * `[0, batch)`: the first `batch` records are scored, the watermark is
   * `batch`, and the last record is still as it was ingested.
   */
  lemma FirstBatch<R>(batch: PosInt, score: Scorer<R>, inputs: seq<Record<R>>, rec: Record<R>)
    requires |inputs| == batch
    ensures var st := Run(batch, score, inputs + [rec]);
      && |st.data| == batch + 1
      && st.computed == batch
      && (forall i :: 0 <= i < batch ==> st.data[i] == ScoreRecord(score, inputs[i]))
      && st.data[batch] == rec
  {
    var all := inputs + [rec];
    RunShape(batch, score, all);
    assert Watermark(batch, |all|) == batch * (batch / batch);
    forall i | 0 <= i < batch
      ensures all[i] == inputs[i]
    {
    }
  }

  /**
   * The trace with a batch of 2 and four ingestions: the first two leave the
   * watermark at 0, the third triggers a pass over `[0, 2)`, and after the
   * fourth records 0 and 1 are scored while records 2 and 3 are raw.
   */
  lemma TraceBatchOfTwo<R>(score: Scorer<R>, r1: Record<R>, r2: Record<R>, r3: Record<R>, r4: Record<R>)
    ensures Run(2, score, [r1]) == State([r1], 0)
    ensures Run(2, score, [r1, r2]) == State([r1, r2], 0)
    ensures Run(2, score, [r1, r2, r3]) == State([ScoreRecord(score, r1), ScoreRecord(score, r2), r3], 2)
    ensures Run(2, score, [r1, r2, r3, r4]) == State([ScoreRecord(score, r1), ScoreRecord(score, r2), r3, r4], 2)
  {
    var s1, s2, s3, s4 := Run(2, score, [r1]), Run(2, score, [r1, r2]), Run(2, score, [r1, r2, r3]), Run(2, score, [r1, r2, r3, r4]);
    RunShape(2, score, [r1]);
    RunShape(2, score, [r1, r2]);
    RunShape(2, score, [r1, r2, r3]);
    RunShape(2, score, [r1, r2, r3, r4]);
    assert Watermark(2, 3) == 2 && Watermark(2, 4) == 2 && Watermark(2, 2) == 0;
    assert s1.data == [r1];
    assert s2.data == [r1, r2];
    assert s3.data == [ScoreRecord(score, r1), ScoreRecord(score, r2), r3];
    assert s4.data == [ScoreRecord(score, r1), ScoreRecord(score, r2), r3, r4];
  }

  /**
   * Public calls alone reach the non-aligned fallback. With a batch of 2,
   * three ingestions leave the watermark at 2 over three records; a direct
   * pass (scoring the unfilled last batch by hand) raises it to 3, which is
   * not aligned. The fifth ingestion then triggers (pre-append length 4) and
   * the pass restarts at index 0: records 0 to 2 are scored a second time,
   * record 3 once, and the watermark ends at 7 over a store of 5.
   */
  lemma ManualPassThenFallback<R>(score: Scorer<R>, r1: Record<R>, r2: Record<R>, r3: Record<R>,
                                  r4: Record<R>, r5: Record<R>)
    ensures var manual := Compute(2, score, Run(2, score, [r1, r2, r3]));
      var s4 := Store(2, score, manual, r4);
      var s5 := Store(2, score, s4, r5);
      && manual.computed == 3 && manual.computed % 2 != 0
      && s4.computed == 3 && Triggers(2, |s4.data|)
      && s5.computed == 7 && |s5.data| == 5 && s5.computed > |s5.data|
      && s5.data == [ScoreRecord(score, ScoreRecord(score, r1)), ScoreRecord(score, ScoreRecord(score, r2)),
                     ScoreRecord(score, ScoreRecord(score, r3)), ScoreRecord(score, r4), r5]
  {
    TraceBatchOfTwo(score, r1, r2, r3, r3);
    var st3 := Run(2, score, [r1, r2, r3]);
    var manual := Compute(2, score, st3);
    ComputeAligned(2, score, st3);
    assert manual.data == [ScoreRecord(score, r1), ScoreRecord(score, r2), ScoreRecord(score, r3)];
    var s4 := Store(2, score, manual, r4);
    StoreEffect(2, score, manual, r4);
    assert s4.data == manual.data + [r4];
    ComputeFallback(2, score, s4);
    var s5 := Store(2, score, s4, r5);
    StoreEffect(2, score, s4, r5);
    assert s5.data[..4] == Compute(2, score, s4).data;
  }
}
