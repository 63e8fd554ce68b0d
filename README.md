# RougeMetric batching accumulator, modelled in Dafny

`RougeMetric` (metrics/rouge_metric.py) collects OCR evaluation records and
scores them with ROUGE in batches. A record holds a file path, the reference
text, and the texts produced by three image processors: simple, GAN and
decrappification. The object keeps three things:

- the record store `data`, which only grows by appending;
- the watermark `computed_data_size`, the number of records scored so far;
- the batch size `BATCH_SIZE`, fixed at construction.

`store_data` checks the store length before it appends. When that length is
positive and a multiple of the batch size, it first runs
`compute_metric_value`. That method scores the slice `[start, len(data))`.
`start` is the watermark when the watermark is batch-aligned and 0
otherwise. For each record of the slice, each processor slot is rewritten in
place to `{text: <previous value>, rouge_metric: get_scores(<previous value>,
reference)}`, and the watermark goes up by one.

The project has three modules:

- `Records` (records.dfy): slots, records and the rewrite of one record.
  A slot is `Raw(text)` or `Scored(prev, metric)`. Scoring wraps whatever the
  slot holds, so a slot scored twice nests.
- `Batching` (batching.dfy): the state machine as values. `Compute` is one
  scoring pass, `Store` is one ingestion, and `Run` is the state a fresh
  accumulator reaches through a sequence of ingestions. The lemmas about
  them live here.
- `Metrics` (rouge_metric.dfy): the class `RougeMetric`. Its fields are a
  `seq` store, a `nat` watermark and a constant batch size. Its methods
  update the fields in place with loops. Each method is proved to leave the
  fields exactly as `Compute` or `Store` says. A ghost log of ingested
  records ties the object to `Run`.

The ROUGE engine (`rouge.Rouge(...).get_scores`) is an opaque parameter. It
is a total function `Scorer<R>` from a slot's current value and the
reference text to a result of an unspecified type `R`. It is given to the
constructor and kept in a constant field.

It is natural to expect the watermark never to exceed the store length. The
code does not guarantee that, and the model follows the code.
When the watermark is not batch-aligned, the pass restarts at index 0 but
still adds one per record to the watermark, so the watermark can pass the
store length (`Batching.FallbackOvershoots`). The bound holds only for
states built by `store_data` alone (`Batching.RunShape`). Public calls reach
the fallback as soon as a driver calls `compute_metric_value` directly on a
store whose last batch is not full. The next triggered pass then scores the
earliest records a second time and leaves the watermark past the store
length (`Batching.ManualPassThenFallback`). That second scoring hands the
engine the `{text, rouge_metric}` value the first pass wrote into the slot.
The model's scorer is total, so it accepts that value; whether the real
ROUGE engine does is outside the model (see "## Left out").

## Model

| member | source | states |
|---|---|---|
| `Records.With` | metrics/rouge_metric.py:70-73 | Overwriting the slot under one processor key leaves the other two slots, the file reference and the reference text unchanged |
| `Records.ScoreSlot` | metrics/rouge_metric.py:70-73 | The new slot value is scored, keeps the previous value as its `text`, carries the scores of that previous value against the reference, and is nested one level deeper than before |
| `Records.RawRecord` | metrics/rouge_metric.py:102-108 | The record `store_data` builds keeps the given file reference and reference text and holds each processor's text as an unscored slot |
| `Records.ScoreRecord` | metrics/rouge_metric.py:68-73 | Scoring a record replaces every processor slot by its previous value paired with the scores of that value against the record's own reference text; file reference and reference text are kept |
| `Records.ScoreRawRecord` | metrics/rouge_metric.py:69-73 | Scoring a raw record scores all three slots exactly once, each on its raw text, so no record is left partly scored |
| `Records.ScoredTwiceRaw` | metrics/rouge_metric.py:68-73 | A raw record scored once has all three slots scored once, and scored again has all three scored twice: the slots always move together |
| `Batching.SliceStart` | metrics/rouge_metric.py:60-63 | The pass starts at the watermark when the watermark is batch-aligned and at 0 otherwise; either way the start is a batch boundary no later than the watermark |
| `Batching.SliceLength` | metrics/rouge_metric.py:64-66 | The number of records the slice `[start, end)` visits, and so the number of increments line 74 makes: `end - start` when the start is at or below the end, and 0 (Python's empty inverted slice) when the start is past the end |
| `Batching.ScoreFrom` | metrics/rouge_metric.py:64-73 | Visiting the records from index `lo` to the end one at a time scores exactly those at or after `lo`, keeps the others and keeps the length |
| `Batching.Compute` | metrics/rouge_metric.py:60-74 | A pass keeps the store length, scores exactly the records of `[start, len)`, leaves the records before `start` alone, and raises the watermark by the slice length, so never lowers it |
| `Batching.Triggers` | metrics/rouge_metric.py:98 | The trigger condition holds only when the pre-append store holds at least one full batch; `Batching.StoreEffect` states what it does to the store |
| `Batching.Store` | metrics/rouge_metric.py:96-109 | One ingestion grows the store by exactly the given record, at the end, and never lowers the watermark; `Batching.StoreEffect` gives the rest |
| `Batching.Run` | metrics/rouge_metric.py:96-109 | A sequence of ingestions on a fresh object yields one record per ingestion, the last one as ingested; `Batching.RunShape` gives the full shape |
| `Batching.ComputeAligned` | metrics/rouge_metric.py:60-66 | With a batch-aligned watermark the pass resumes at the watermark: records below it stay, records from it on are scored, and the watermark ends at the store length (or stays, if already past it) |
| `Batching.ComputeFallback` | metrics/rouge_metric.py:60-74 | With a watermark that is not batch-aligned the pass re-scores every record from index 0 and adds the full store length to the watermark |
| `Batching.FallbackOvershoots` | metrics/rouge_metric.py:60-74 | With batch 2, one record and watermark 1, the pass leaves watermark 2 over a store of length 1 |
| `Batching.ManualPassThenFallback` | metrics/rouge_metric.py:60-109 | With batch 2: three ingestions, a direct pass (watermark 3, not aligned), then two ingestions. The fifth ingestion triggers a pass from index 0, so records 0-2 are scored twice and record 3 once, and the watermark ends at 7 over a store of 5 |
| `Batching.ComputeCaughtUpIsNoOp` | metrics/rouge_metric.py:60-66 | A pass whose watermark is aligned and equal to the store length processes an empty slice and changes nothing |
| `Batching.SecondPassIsNoOp` | metrics/rouge_metric.py:60-74 | A second pass straight after one started from an aligned watermark, on a store whose length is a multiple of the batch size, changes nothing |
| `Batching.StoreEffect` | metrics/rouge_metric.py:96-109 | Ingestion adds exactly one record, the given one, at the end. The pass runs exactly when the pre-append length is positive and a multiple of the batch size. Without the pass the earlier records and the watermark are unchanged; with it they are the pass's result. The new record is never scored by its own ingestion |
| `Batching.Watermark` | metrics/rouge_metric.py:96-100 | The watermark after `n` ingestions, `batch * ((n - 1) / batch)` (0 for none), is a multiple of the batch size and strictly below `n` when `n > 0` |
| `Batching.RunShape` | metrics/rouge_metric.py:96-109 | From a fresh accumulator, after `n` ingestions the store holds the `n` records in arrival order. The watermark equals `batch * ((n - 1) / batch)`, is a multiple of the batch size and is at most the store length. Records below it are scored once; records from it on are as ingested |
| `Batching.RunNoPartialRecord` | metrics/rouge_metric.py:66-74 | In any state built by ingestions of raw records, each record is either raw or has all three slots scored exactly once, according to whether it lies below the watermark |
| `Batching.StoreAdvancesIffTriggered` | metrics/rouge_metric.py:96-100 | On a state built by ingestions, an ingestion raises the watermark if and only if its pre-append length triggers a pass. It then raises it to that length, and the appended record is still unscored afterwards |
| `Batching.FirstBatch` | metrics/rouge_metric.py:96-109 | After `batch` ingestions and one more, exactly one pass has run over `[0, batch)`: those records are scored, the watermark is `batch`, and the last record is unscored |
| `Batching.TraceBatchOfTwo` | metrics/rouge_metric.py:96-109 | With batch 2 and four ingestions the watermark reads 0, 0, 2, 2 after each ingestion. After the fourth, records 0 and 1 are scored and records 2 and 3 are as ingested |
| `Metrics.RougeMetric.constructor` | metrics/rouge_metric.py:34-47 | A new accumulator has an empty store, watermark 0, the given positive batch size (default 1000) and the given engine, and counts as built by ingestions alone |
| `Metrics.RougeMetric.ComputeMetricValue` | metrics/rouge_metric.py:50-75 | The method updates the store and the watermark exactly as `Batching.Compute` says: records of the slice are scored in place, the others are kept, and the watermark rises once per record |
| `Metrics.RougeMetric.ScoreRecordInPlace` | metrics/rouge_metric.py:66-73 | The per-record body of the pass, which visits the three processor keys in turn and overwrites each slot in place, leaves that record equal to `ScoreRecord` of its old value and every other record and the watermark unchanged |
| `Metrics.RougeMetric.StoreData` | metrics/rouge_metric.py:78-109 | The method updates the fields exactly as `Batching.Store` says, appending the raw record at the end. It keeps the object a state built by ingestions alone, whose watermark is aligned, at most the store length and equal to `batch * ((n - 1) / batch)` |
| `Metrics.ManualPassThenFallbackOnObject` | metrics/rouge_metric.py:60-109 | A client of the class doing the same sequence through public calls only ends with watermark 7 over 5 records: all three slots of record 0 scored twice, all three slots of record 3 once, record 4 raw |
| `Metrics.TraceOfFourIngestions` | metrics/rouge_metric.py:96-109 | A client of the class: with batch 2 and four ingestions the watermark ends at 2, records 0 and 1 are scored exactly once and records 2 and 3 are raw |

## Left out

- ROUGE itself: the engine configuration (`max_n`, `alpha`, `weight_factor`, the length limit, averaging, stemming) and `get_scores` are external and work in floating point. They become the opaque `Scorer<R>` argument of the constructor.
- The scorer raising mid-pass is not modelled. It is a failure of foreign code, and it would leave a record with only some slots rewritten and the watermark short of the slice end. The model's scorer is total, so it also accepts the `{text, rouge_metric}` value a second scoring passes it as hypothesis; the real engine may reject that value. The non-aligned fallback is still reached through public calls alone, by a direct `compute_metric_value` on a store whose last batch is not full (`Batching.ManualPassThenFallback`), or by a caller that sets the watermark directly, as the public attribute allows.
- The diagnostic `print` calls are output only.
- The class-level defaults (`data = []` and the rest) make the store list shared by every instance in the original. The model gives each object its own store, initialised empty, with watermark 0.
- `Metrics.RougeMetric.constructor`: requires a positive batch size. The original does not check it. A size of 0 makes the modulo on lines 62 and 98 raise. A negative size works in the original: Python's `x % -b == 0` holds exactly when `b` divides `x`, so it behaves like its absolute value. The model does not cover negative sizes.
- The watermark is a `nat`. The original counter is a Python integer that only this class changes, starting at 0 and only incremented, so it cannot become negative unless a caller writes a negative value into the attribute.
- Records are Dafny values held in the store, not shared dictionaries. The scoring loop in the original reaches each record dictionary through the sliced copy of the list, which holds the same dictionaries as the store, and writes into it there. No record dictionary occurs twice in the store, so updating the store's value at that index loses no update.
