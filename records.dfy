/**
 * One evaluation record of the ROUGE accumulator and the rewrite that the
 * scoring pass applies to it.
 *
 * A record holds the path of the original file, the reference text and one
 * slot per image processor. A slot first holds the processor's OCR text; the
 * scoring pass replaces it by `{text: <previous value>, rouge_metric: <scores>}`,
 * which wraps whatever the slot held before, so a slot scored twice nests.
 */
module Records {

  type Text = string

  /** The value held under one processor key of a record. */
  datatype Slot<R> = Raw(text: Text) | Scored(prev: Slot<R>, metric: R)

  /** The three processor keys, in the order the scoring pass visits them. */
  datatype Processor = SimpleProcessor | GanProcessor | DecrappificationProcessor

  const Processors: seq<Processor> := [SimpleProcessor, GanProcessor, DecrappificationProcessor]

  /**
   * The external ROUGE engine's `get_scores(hypothesis, reference)`: a total
   * function from the slot's current value and the reference text to an
   * opaque result.
   */
  type Scorer<!R> = (Slot<R>, Text) -> R

  datatype Record<R> = Record(
    fileReference: Text,
    reference: Text,
    simpleProcessor: Slot<R>,
    ganProcessor: Slot<R>,
    decrappificationProcessor: Slot<R>)
  {
    /** The slot stored under key `p`. */
    function Get(p: Processor): Slot<R>
    {
      match p
      case SimpleProcessor => simpleProcessor
      case GanProcessor => ganProcessor
      case DecrappificationProcessor => decrappificationProcessor
    }

    /** The record with the slot under key `p` overwritten by `s`. */
    function With(p: Processor, s: Slot<R>): (r: Record<R>)
      ensures r.Get(p) == s
      ensures forall q :: q != p ==> r.Get(q) == Get(q)
      ensures r.fileReference == fileReference && r.reference == reference
    {
      match p
      case SimpleProcessor => this.(simpleProcessor := s)
      case GanProcessor => this.(ganProcessor := s)
      case DecrappificationProcessor => this.(decrappificationProcessor := s)
    }
  }

  /** Two records are equal as soon as their identity fields and all three slots agree. */
  lemma RecordExtensionality<R>(a: Record<R>, b: Record<R>)
    requires a.fileReference == b.fileReference && a.reference == b.reference
    requires forall p :: a.Get(p) == b.Get(p)
    ensures a == b
  {
    assert a.Get(SimpleProcessor) == b.Get(SimpleProcessor);
    assert a.Get(GanProcessor) == b.Get(GanProcessor);
    assert a.Get(DecrappificationProcessor) == b.Get(DecrappificationProcessor);
  }

  /** The record that ingestion builds: every processor slot holds its raw text. */
  function RawRecord<R>(fileReference: Text, reference: Text, simple: Text, gan: Text, decrappification: Text): (r: Record<R>)
    ensures IsRaw(r)
    ensures r.fileReference == fileReference && r.reference == reference
    ensures r.Get(SimpleProcessor) == Raw(simple)
    ensures r.Get(GanProcessor) == Raw(gan)
    ensures r.Get(DecrappificationProcessor) == Raw(decrappification)
  {
    Record(fileReference, reference, Raw(simple), Raw(gan), Raw(decrappification))
  }

  /** How many times a slot has been scored, i.e. how deeply its raw text is nested. */
  function TimesScored<R>(s: Slot<R>): nat
  {
    match s
    case Raw(_) => 0
    case Scored(prev, _) => TimesScored(prev) + 1
  }

  /**
   * The slot after one scoring: the previous value kept as `text`, beside the
   * scores of that previous value against the reference. It is scored one
   * more time than before and is never raw.
   */
  function ScoreSlot<R>(score: Scorer<R>, s: Slot<R>, reference: Text): (r: Slot<R>)
    ensures r.Scored? && r.prev == s && r.metric == score(s, reference)
    ensures TimesScored(r) == TimesScored(s) + 1
  {
    Scored(s, score(s, reference))
  }

  /**
   * One iteration of the scoring pass over a record: each processor slot is
   * wrapped with the scores of its current value against the record's
   * reference text; the file reference and the reference text stay.
   */
  function ScoreRecord<R>(score: Scorer<R>, rec: Record<R>): (r: Record<R>)
    ensures r.fileReference == rec.fileReference && r.reference == rec.reference
    ensures forall p :: r.Get(p) == ScoreSlot(score, rec.Get(p), rec.reference)
  {
    rec.(simpleProcessor := ScoreSlot(score, rec.simpleProcessor, rec.reference),
         ganProcessor := ScoreSlot(score, rec.ganProcessor, rec.reference),
         decrappificationProcessor := ScoreSlot(score, rec.decrappificationProcessor, rec.reference))
  }

  /** No processor slot has been scored. */
  predicate IsRaw<R>(rec: Record<R>)
  {
    forall p :: rec.Get(p).Raw?
  }

  /** Every processor slot has been scored exactly once, on its raw text. */
  predicate IsScoredOnce<R>(rec: Record<R>)
  {
    forall p :: rec.Get(p).Scored? && rec.Get(p).prev.Raw?
  }

  /**
   * Scoring a raw record scores all of its slots exactly once, with the
   * scores of each raw text against the reference: a record is never left
   * with only some slots scored.
   */
  lemma ScoreRawRecord<R>(score: Scorer<R>, rec: Record<R>)
    requires IsRaw(rec)
    ensures IsScoredOnce(ScoreRecord(score, rec)) && !IsRaw(ScoreRecord(score, rec))
    ensures forall p :: ScoreRecord(score, rec).Get(p).metric == score(Raw(rec.Get(p).text), rec.reference)
  {
    var r := ScoreRecord(score, rec);
    assert r.Get(SimpleProcessor).Scored?;
  }

  /**
   * A raw record scored once has every slot scored once; scored again, every
   * slot is scored twice. The three slots always move together.
   */
  lemma ScoredTwiceRaw<R>(score: Scorer<R>, rec: Record<R>)
    requires IsRaw(rec)
    ensures forall p :: TimesScored(ScoreRecord(score, rec).Get(p)) == 1
    ensures forall p :: TimesScored(ScoreRecord(score, ScoreRecord(score, rec)).Get(p)) == 2
  {
  }
}
