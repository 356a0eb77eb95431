/**
 * JSONTransformer (armin/transform.py): turn every statement of an NLI4CT
 * dataset into one (statement, evidence sentence) record per sentence of the
 * clinical-trial report section it refers to, labelled with the statement's
 * label when the sentence is gold evidence and "neutral" otherwise.
 *
 * The output file is an OutStream of chunks: literal text, or one record as
 * json.dumps would render it.  Loading the dataset and the report files is
 * I/O: the dataset is an already parsed object, kept as its key/statement
 * pairs in file order, and the reports are a map from report id to its
 * already parsed sections.
 */
module Transform {
  import opened Common

  const COMPARISON := "Comparison"
  const NEUTRAL := "neutral"
  const OPEN := "[\n"
  const CLOSE := "]\n"
  const SEPARATOR := ",\n"

  /**
   * One statement of the dataset: its "Type", "Section_id", "Primary_id",
   * "Primary_evidence_index", "Statement", "Label", and, when the keys are
   * present, "Secondary_id" and "Secondary_evidence_index".
   */
  datatype Statement = Statement(
    kind: string,
    sectionId: string,
    primaryId: string,
    primaryEvidence: seq<int>,
    statement: string,
    statementLabel: string,
    secondaryId: Option<string>,
    secondaryEvidence: Option<seq<int>>)

  /** One key of the dataset object with its statement. */
  datatype DatasetEntry = DatasetEntry(uuid: string, info: Statement)

  /** Clinical-trial reports: report id to section id to the section's sentences. */
  type Ctrs = map<string, map<string, seq<string>>>

  /** One output record: the fields of the dictionary _write_pairs dumps. */
  datatype Pair = Pair(uuid: string, sectionId: string, kind: string, target: string, statement: string, evidence: string)

  /** A piece of the output file: literal text, or the JSON rendering of one record. */
  datatype Chunk = Text(text: string) | Json(pair: Pair)

  /** The open output file: everything written to it so far. */
  class OutStream {
    var chunks: seq<Chunk>

    constructor ()
      ensures chunks == []
    {
      chunks := [];
    }

    method Write(c: Chunk)
      modifies this
      ensures chunks == old(chunks) + [c]
    {
      chunks := chunks + [c];
    }
  }

  function LowerChar(c: char): char
  {
    if 'A' <= c <= 'Z' then (c as int + 32) as char else c
  }

  /** Lower-casing of the label (ASCII letters only). */
  function Lower(s: string): string
  {
    if s == [] then [] else Lower(s[..|s| - 1]) + [LowerChar(s[|s| - 1])]
  }

  /** The relationship of sentence `sentenceNumber`: the lower-cased label if it is evidence, else "neutral". */
  function Target(sentenceNumber: int, evidenceIndexes: seq<int>, statementLabel: string): string
  {
    if sentenceNumber in evidenceIndexes then Lower(statementLabel) else NEUTRAL
  }

  /** The records _write_pairs emits for `sentences`, in section order. */
  function Pairs(uuid: string, kind: string, sectionId: string, evidenceIndexes: seq<int>,
                 statement: string, sentences: seq<string>, statementLabel: string): (ps: seq<Pair>)
  {
    if sentences == [] then []
    else
      var n := |sentences| - 1;
      Pairs(uuid, kind, sectionId, evidenceIndexes, statement, sentences[..n], statementLabel)
        + [Pair(uuid, sectionId, kind, Target(n, evidenceIndexes, statementLabel), statement, sentences[n])]
  }

  /** The text written for `ps`: each record followed by ",\n", the last one included. */
  function Chunks(ps: seq<Pair>): seq<Chunk>
  {
    if ps == [] then [] else Chunks(ps[..|ps| - 1]) + [Json(ps[|ps| - 1]), Text(SEPARATOR)]
  }

  /**
   * One record per sentence, in section order: record i carries sentence i
   * as its evidence, the statementLabel lower-cased as its target when i is an
   * evidence index and "neutral" otherwise, and the call's uuid, section id,
   * type and statement unchanged.
   */
  lemma PairsAt(uuid: string, kind: string, sectionId: string, evidenceIndexes: seq<int>,
                 statement: string, sentences: seq<string>, statementLabel: string)
    ensures var ps := Pairs(uuid, kind, sectionId, evidenceIndexes, statement, sentences, statementLabel);
      && |ps| == |sentences|
      && (forall i :: 0 <= i < |ps| ==> ps[i].evidence == sentences[i])
      && (forall i :: 0 <= i < |ps| ==> ps[i].target == if i in evidenceIndexes then Lower(statementLabel) else "neutral")
      && (forall i :: 0 <= i < |ps| ==>
            ps[i].uuid == uuid && ps[i].sectionId == sectionId && ps[i].kind == kind && ps[i].statement == statement)
  {
    PairsPointwise(uuid, kind, sectionId, evidenceIndexes, statement, sentences, statementLabel);
  }

  /** Record i is the record of sentence i. */
  lemma {:induction false} PairsPointwise(uuid: string, kind: string, sectionId: string, evidenceIndexes: seq<int>,
                                          statement: string, sentences: seq<string>, statementLabel: string)
    ensures var ps := Pairs(uuid, kind, sectionId, evidenceIndexes, statement, sentences, statementLabel);
      && |ps| == |sentences|
      && forall i :: 0 <= i < |ps| ==>
        ps[i] == Pair(uuid, sectionId, kind, Target(i, evidenceIndexes, statementLabel), statement, sentences[i])
  {
    if sentences != [] {
      var n := |sentences| - 1;
      PairsPointwise(uuid, kind, sectionId, evidenceIndexes, statement, sentences[..n], statementLabel);
      var ps := Pairs(uuid, kind, sectionId, evidenceIndexes, statement, sentences, statementLabel);
      var before := Pairs(uuid, kind, sectionId, evidenceIndexes, statement, sentences[..n], statementLabel);
      forall i | 0 <= i < n
        ensures ps[i] == before[i] && sentences[i] == sentences[..n][i]
      {
      }
    }
  }

  /**
   * Only the evidence indexes that name a sentence matter: two index lists
   * with the same members among 0 .. |sentences| - 1 give the same records,
   * so an index at or beyond the end of the section produces no record and
   * changes no target.
   */
  lemma {:induction false} OutOfRangeIndexesIgnored(uuid: string, kind: string, sectionId: string,
                                                    evidenceIndexes: seq<int>, evidenceIndexes': seq<int>,
                                                    statement: string, sentences: seq<string>, statementLabel: string)
    requires forall i :: 0 <= i < |sentences| ==> (i in evidenceIndexes <==> i in evidenceIndexes')
    ensures Pairs(uuid, kind, sectionId, evidenceIndexes, statement, sentences, statementLabel)
         == Pairs(uuid, kind, sectionId, evidenceIndexes', statement, sentences, statementLabel)
  {
    if sentences != [] {
      var n := |sentences| - 1;
      OutOfRangeIndexesIgnored(uuid, kind, sectionId, evidenceIndexes, evidenceIndexes', statement, sentences[..n], statementLabel);
    }
  }

  /** Layout of the written text: record i at chunk 2i, and its ",\n" at chunk 2i + 1. */
  lemma {:induction false} ChunksAt(ps: seq<Pair>)
    ensures |Chunks(ps)| == 2 * |ps|
    ensures forall i :: 0 <= i < |ps| ==> Chunks(ps)[2 * i] == Json(ps[i]) && Chunks(ps)[2 * i + 1] == Text(",\n")
  {
    if ps != [] {
      ChunksAt(ps[..|ps| - 1]);
    }
  }

  lemma {:induction false} ChunksAppend(a: seq<Pair>, b: seq<Pair>)
    ensures Chunks(a + b) == Chunks(a) + Chunks(b)
    decreases |b|
  {
    if b == [] {
      assert a + b == a;
    } else {
      var n := |b| - 1;
      ChunksAppend(a, b[..n]);
      assert (a + b)[..|a| + n] == a + b[..n];
    }
  }

  /**
   * _write_pairs, as written: a loop over the sentences with a running
   * sentence number, writing one record and its separator per sentence.
   */
  method WritePairs(uuid: string, kind: string, sectionId: string, evidenceIndexes: seq<int>,
                    statement: string, sentences: seq<string>, statementLabel: string, out: OutStream)
    modifies out
    ensures out.chunks == old(out.chunks) + Chunks(Pairs(uuid, kind, sectionId, evidenceIndexes, statement, sentences, statementLabel))
  {
    ghost var written: seq<Pair> := [];
    for sentenceNumber := 0 to |sentences|
      invariant written == Pairs(uuid, kind, sectionId, evidenceIndexes, statement, sentences[..sentenceNumber], statementLabel)
      invariant out.chunks == old(out.chunks) + Chunks(written)
    {
      ghost var record := WriteSentence(uuid, kind, sectionId, evidenceIndexes, statement, sentences, statementLabel, sentenceNumber, out);
      WritePairsStep(uuid, kind, sectionId, evidenceIndexes, statement, sentences, statementLabel, sentenceNumber, written, record);
      written := written + [record];
    }
    assert sentences[..|sentences|] == sentences;
  }

  /**
   * The body of _write_pairs' loop for sentence `sentenceNumber`: choose its
   * relationship and write its record followed by ",\n".
   */
  method WriteSentence(uuid: string, kind: string, sectionId: string, evidenceIndexes: seq<int>,
                       statement: string, sentences: seq<string>, statementLabel: string, sentenceNumber: nat,
                       out: OutStream) returns (ghost record: Pair)
    requires sentenceNumber < |sentences|
    modifies out
    ensures record == Pair(uuid, sectionId, kind, Target(sentenceNumber, evidenceIndexes, statementLabel), statement, sentences[sentenceNumber])
    ensures out.chunks == old(out.chunks) + [Json(record), Text(SEPARATOR)]
  {
    var sent := sentences[sentenceNumber];
    var relationship;
    if sentenceNumber in evidenceIndexes {
      relationship := Lower(statementLabel);
    } else {
      relationship := NEUTRAL;
    }
    var r := Pair(uuid, sectionId, kind, relationship, statement, sent);
    out.Write(Json(r));
    out.Write(Text(SEPARATOR));
    record := r;
  }

  /** The loop invariants of WritePairs after one more sentence. */
  lemma WritePairsStep(uuid: string, kind: string, sectionId: string, evidenceIndexes: seq<int>,
                       statement: string, sentences: seq<string>, statementLabel: string, k: nat,
                       written: seq<Pair>, record: Pair)
    requires k < |sentences|
    requires written == Pairs(uuid, kind, sectionId, evidenceIndexes, statement, sentences[..k], statementLabel)
    requires record == Pair(uuid, sectionId, kind, Target(k, evidenceIndexes, statementLabel), statement, sentences[k])
    ensures written + [record] == Pairs(uuid, kind, sectionId, evidenceIndexes, statement, sentences[..k + 1], statementLabel)
    ensures Chunks(written + [record]) == Chunks(written) + [Json(record), Text(SEPARATOR)]
  {
    PairsNext(uuid, kind, sectionId, evidenceIndexes, statement, sentences, statementLabel, k);
    ChunksSnoc(written, record);
  }

  /** One more sentence adds its record after those of the sentences before it. */
  lemma PairsNext(uuid: string, kind: string, sectionId: string, evidenceIndexes: seq<int>,
                  statement: string, sentences: seq<string>, statementLabel: string, k: nat)
    requires k < |sentences|
    ensures Pairs(uuid, kind, sectionId, evidenceIndexes, statement, sentences[..k + 1], statementLabel)
         == Pairs(uuid, kind, sectionId, evidenceIndexes, statement, sentences[..k], statementLabel)
            + [Pair(uuid, sectionId, kind, Target(k, evidenceIndexes, statementLabel), statement, sentences[k])]
  {
    assert sentences[..k + 1][..k] == sentences[..k];
  }

  /** One more record adds its JSON and ",\n" to the text. */
  lemma ChunksSnoc(ps: seq<Pair>, p: Pair)
    ensures Chunks(ps + [p]) == Chunks(ps) + [Json(p), Text(SEPARATOR)]
  {
    assert (ps + [p])[..|ps|] == ps;
  }

  /** CTRReader.read_section: a missing report file is a CTRError, a missing section a KeyError. */
  function ReadSection(ctrs: Ctrs, ctrId: string, sectionId: string): Result<seq<string>, Error>
  {
    if ctrId !in ctrs then Err(CTRError(ctrId))
    else if sectionId !in ctrs[ctrId] then Err(KeyError(sectionId))
    else Ok(ctrs[ctrId][sectionId])
  }

  /** The records written so far and, if one was raised, the exception that stopped the run. */
  datatype Run = Run(pairs: seq<Pair>, error: Option<Error>)

  /** The records _write_pairs writes for one section of entry `e`, labelled by `evidenceIndexes`. */
  function SectionPairs(e: DatasetEntry, evidenceIndexes: seq<int>, sentences: seq<string>): seq<Pair>
  {
    Pairs(e.uuid, e.info.kind, e.info.sectionId, evidenceIndexes, e.info.statement, sentences, e.info.statementLabel)
  }

  /** The records written for one dataset entry: its primary section, then, for a "Comparison", its secondary section. */
  function EntryRun(e: DatasetEntry, ctrs: Ctrs): Run
  {
    match ReadSection(ctrs, e.info.primaryId, e.info.sectionId)
    case Err(err) => Run([], Some(err))
    case Ok(primary) =>
      var written := SectionPairs(e, e.info.primaryEvidence, primary);
      if e.info.kind != COMPARISON then Run(written, None) else SecondaryRun(e, ctrs, written)
  }

  /** The secondary half of a "Comparison" entry, after `written` came from its primary section. */
  function SecondaryRun(e: DatasetEntry, ctrs: Ctrs, written: seq<Pair>): Run
  {
    if e.info.secondaryId.None? then Run(written, Some(KeyError("Secondary_id")))
    else
      match ReadSection(ctrs, e.info.secondaryId.value, e.info.sectionId)
      case Err(err) => Run(written, Some(err))
      case Ok(secondary) =>
        if e.info.secondaryEvidence.None? then Run(written, Some(KeyError("Secondary_evidence_index")))
        else Run(written + SectionPairs(e, e.info.secondaryEvidence.value, secondary), None)
  }

  /** The loop of transform over the dataset keys, in order; the first exception stops it. */
  function Emit(dataset: seq<DatasetEntry>, ctrs: Ctrs): Run
  {
    if dataset == [] then Run([], None)
    else
      var before := Emit(dataset[..|dataset| - 1], ctrs);
      if before.error.Some? then before
      else
        var step := EntryRun(dataset[|dataset| - 1], ctrs);
        Run(before.pairs + step.pairs, step.error)
  }

  /** The text of a file holding `ps`: "[\n", the records, and "]\n" when the run was `complete`. */
  function Document(ps: seq<Pair>, complete: bool): seq<Chunk>
  {
    [Text(OPEN)] + Chunks(ps) + (if complete then [Text(CLOSE)] else [])
  }

  /** The content of the output file: closed only if no exception stopped the run. */
  function Output(dataset: seq<DatasetEntry>, ctrs: Ctrs): seq<Chunk>
  {
    var run := Emit(dataset, ctrs);
    Document(run.pairs, run.error.None?)
  }

  /**
   * The body of transform's loop for one dataset entry: read the primary
   * section and write its records; for a "Comparison", read the secondary
   * section and write its records too.
   */
  method WriteEntry(e: DatasetEntry, ctrs: Ctrs, out: OutStream) returns (error: Option<Error>)
    modifies out
    ensures out.chunks == old(out.chunks) + Chunks(EntryRun(e, ctrs).pairs)
    ensures error == EntryRun(e, ctrs).error
  {
    var uuid, info := e.uuid, e.info;
    var primarySection := ReadSection(ctrs, info.primaryId, info.sectionId);
    if primarySection.Err? {
      return Some(primarySection.error);
    }
    WritePairs(uuid, info.kind, info.sectionId, info.primaryEvidence, info.statement, primarySection.value, info.statementLabel, out);
    if info.kind == COMPARISON {
      if info.secondaryId.None? {
        return Some(KeyError("Secondary_id"));
      }
      var secondarySection := ReadSection(ctrs, info.secondaryId.value, info.sectionId);
      if secondarySection.Err? {
        return Some(secondarySection.error);
      }
      if info.secondaryEvidence.None? {
        return Some(KeyError("Secondary_evidence_index"));
      }
      ghost var mid := out.chunks;
      WritePairs(uuid, info.kind, info.sectionId, info.secondaryEvidence.value, info.statement, secondarySection.value, info.statementLabel, out);
      ChunksAppend(
        Pairs(uuid, info.kind, info.sectionId, info.primaryEvidence, info.statement, primarySection.value, info.statementLabel),
        Pairs(uuid, info.kind, info.sectionId, info.secondaryEvidence.value, info.statement, secondarySection.value, info.statementLabel));
    }
    return None;
  }

  /**
   * The loop of transform: the records of every dataset entry in key order,
   * until the first exception.
   */
  method WriteDataset(dataset: seq<DatasetEntry>, ctrs: Ctrs, out: OutStream) returns (error: Option<Error>)
    modifies out
    ensures out.chunks == old(out.chunks) + Chunks(Emit(dataset, ctrs).pairs)
    ensures error == Emit(dataset, ctrs).error
  {
    ghost var written: seq<Pair> := [];
    var k := 0;
    error := None;
    // an exception leaves the loop (and the file) where it was raised
    while k < |dataset| && error.None?
      invariant k <= |dataset|
      invariant Emit(dataset[..k], ctrs) == Run(written, error)
      invariant out.chunks == old(out.chunks) + Chunks(written)
    {
      EmitNext(dataset, ctrs, k, written, old(out.chunks));
      error := WriteEntry(dataset[k], ctrs, out);
      written := written + EntryRun(dataset[k], ctrs).pairs;
      k := k + 1;
    }
    EmitDone(dataset, ctrs, k, written, error);
  }

  lemma EmitNext(dataset: seq<DatasetEntry>, ctrs: Ctrs, k: nat, written: seq<Pair>, prefix: seq<Chunk>)
    requires k < |dataset| && Emit(dataset[..k], ctrs) == Run(written, None)
    ensures var step := EntryRun(dataset[k], ctrs);
      && Emit(dataset[..k + 1], ctrs) == Run(written + step.pairs, step.error)
      && prefix + Chunks(written + step.pairs) == prefix + Chunks(written) + Chunks(step.pairs)
  {
    var step := EntryRun(dataset[k], ctrs);
    EmitStep(dataset, ctrs, k);
    ChunksAppend(written, step.pairs);
  }

  lemma EmitDone(dataset: seq<DatasetEntry>, ctrs: Ctrs, k: nat, written: seq<Pair>, error: Option<Error>)
    requires k <= |dataset| && (k == |dataset| || error.Some?)
    requires Emit(dataset[..k], ctrs) == Run(written, error)
    ensures Emit(dataset, ctrs) == Run(written, error)
  {
    if error.Some? {
      EmitErrorSticks(dataset, ctrs, k);
    } else {
      assert dataset[..k] == dataset;
    }
  }

  /**
   * transform, as written: open the file, write "[\n", the records of every
   * dataset entry in key order, then "]\n".  An exception leaves the file as
   * far as it was written.
   */
  method Transform(dataset: seq<DatasetEntry>, ctrs: Ctrs) returns (out: OutStream, error: Option<Error>)
    ensures fresh(out)
    ensures out.chunks == Output(dataset, ctrs)
    ensures error == Emit(dataset, ctrs).error
  {
    out := new OutStream();
    out.Write(Text(OPEN));
    error := WriteDataset(dataset, ctrs, out);
    if error.None? {
      out.Write(Text(CLOSE));
    }
  }

  lemma EmitStep(dataset: seq<DatasetEntry>, ctrs: Ctrs, k: nat)
    requires k < |dataset| && Emit(dataset[..k], ctrs).error.None?
    ensures Emit(dataset[..k + 1], ctrs)
         == Run(Emit(dataset[..k], ctrs).pairs + EntryRun(dataset[k], ctrs).pairs, EntryRun(dataset[k], ctrs).error)
  {
    assert dataset[..k + 1][..k] == dataset[..k];
  }

  /** Once the loop has stopped on a prefix, the whole run is that prefix's run. */
  lemma {:induction false} EmitErrorSticks(dataset: seq<DatasetEntry>, ctrs: Ctrs, k: nat)
    requires k <= |dataset| && Emit(dataset[..k], ctrs).error.Some?
    ensures Emit(dataset, ctrs) == Emit(dataset[..k], ctrs)
    decreases |dataset| - k
  {
    if k < |dataset| {
      assert dataset[..k + 1][..k] == dataset[..k];
      EmitErrorSticks(dataset, ctrs, k + 1);
    } else {
      assert dataset[..k] == dataset;
    }
  }

  /**
   * The framing of the output file: "[\n" first; record i at chunk 1 + 2i,
   * each followed by ",\n" (the last record too, which leaves a trailing
   * comma before the closing bracket); "]\n" last when the run completed.
   */
  lemma DocumentLayout(ps: seq<Pair>, complete: bool)
    ensures var d := Document(ps, complete);
      && d[0] == Text("[\n")
      && |d| == 1 + 2 * |ps| + (if complete then 1 else 0)
      && (forall i :: 0 <= i < |ps| ==> d[1 + 2 * i] == Json(ps[i]) && d[2 + 2 * i] == Text(",\n"))
      && (complete ==> d[|d| - 1] == Text("]\n"))
      && (complete && ps != [] ==> d[|d| - 2] == Text(",\n"))
  {
    ChunksAt(ps);
  }

  /**
   * Running over a concatenation of datasets is running over the first part
   * and then, unless it raised, over the second: records come out in key
   * order, and the first exception ends the run.
   */
  lemma {:induction false} EmitAppend(a: seq<DatasetEntry>, b: seq<DatasetEntry>, ctrs: Ctrs)
    ensures Emit(a + b, ctrs) == Appended(Emit(a, ctrs), Emit(b, ctrs))
    decreases |b|
  {
    if b == [] {
      assert a + b == a;
    } else {
      var n := |b| - 1;
      EmitAppend(a, b[..n], ctrs);
      EmitAppendStep(a, b, ctrs);
    }
  }

  /** The run over `a` followed by the run over `b`, unless the first one raised. */
  function Appended(first: Run, second: Run): Run
  {
    if first.error.Some? then first else Run(first.pairs + second.pairs, second.error)
  }

  lemma EmitAppendStep(a: seq<DatasetEntry>, b: seq<DatasetEntry>, ctrs: Ctrs)
    requires b != []
    requires Emit(a + b[..|b| - 1], ctrs) == Appended(Emit(a, ctrs), Emit(b[..|b| - 1], ctrs))
    ensures Emit(a + b, ctrs) == Appended(Emit(a, ctrs), Emit(b, ctrs))
  {
    var n := |b| - 1;
    EmitConcatSnoc(a, b, ctrs);
    EmitSnoc(b, ctrs);
    AppendedAssociative(Emit(a, ctrs), Emit(b[..n], ctrs), EntryRun(b[n], ctrs));
  }

  lemma EmitConcatSnoc(a: seq<DatasetEntry>, b: seq<DatasetEntry>, ctrs: Ctrs)
    requires b != []
    ensures Emit(a + b, ctrs) == Appended(Emit(a + b[..|b| - 1], ctrs), EntryRun(b[|b| - 1], ctrs))
  {
    var ab := a + b;
    assert ab[..|ab| - 1] == a + b[..|b| - 1];
    EmitSnoc(ab, ctrs);
  }

  /** The last entry's records follow those of the ones before it, unless those raised. */
  lemma EmitSnoc(dataset: seq<DatasetEntry>, ctrs: Ctrs)
    requires dataset != []
    ensures Emit(dataset, ctrs) == Appended(Emit(dataset[..|dataset| - 1], ctrs), EntryRun(dataset[|dataset| - 1], ctrs))
  {
  }

  lemma AppendedAssociative(x: Run, y: Run, z: Run)
    ensures Appended(Appended(x, y), z) == Appended(x, Appended(y, z))
  {
    if x.error.None? && y.error.None? {
      assert x.pairs + y.pairs + z.pairs == x.pairs + (y.pairs + z.pairs);
    }
  }

  /** The report `ctrId` exists and has section `sectionId`. */
  predicate Readable(ctrs: Ctrs, ctrId: string, sectionId: string)
  {
    ctrId in ctrs && sectionId in ctrs[ctrId]
  }

  /** Every lookup transform makes for `e` succeeds; the secondary ones are made only for a "Comparison". */
  predicate EntryResolvable(e: DatasetEntry, ctrs: Ctrs)
  {
    && Readable(ctrs, e.info.primaryId, e.info.sectionId)
    && (e.info.kind == COMPARISON ==>
          && e.info.secondaryId.Some?
          && Readable(ctrs, e.info.secondaryId.value, e.info.sectionId)
          && e.info.secondaryEvidence.Some?)
  }

  /**
   * An entry raises nothing exactly when its lookups succeed: a "Single"
   * entry needs neither "Secondary_id" nor "Secondary_evidence_index".
   */
  lemma EntryRunSucceeds(e: DatasetEntry, ctrs: Ctrs)
    ensures EntryRun(e, ctrs).error.None? <==> EntryResolvable(e, ctrs)
  {
  }

  /**
   * The records of an entry that raised nothing: first those of its primary
   * section, labelled by "Primary_evidence_index"; then, only for a
   * "Comparison", those of its secondary section, labelled by
   * "Secondary_evidence_index".
   */
  lemma EntryRecords(e: DatasetEntry, ctrs: Ctrs)
    requires EntryResolvable(e, ctrs)
    ensures var primary, ps := ctrs[e.info.primaryId][e.info.sectionId], EntryRun(e, ctrs).pairs;
      && |primary| <= |ps|
      && ps[..|primary|] == SectionPairs(e, e.info.primaryEvidence, primary)
      && (e.info.kind != COMPARISON ==> ps == SectionPairs(e, e.info.primaryEvidence, primary))
      && (e.info.kind == COMPARISON ==>
            ps[|primary|..] == SectionPairs(e, e.info.secondaryEvidence.value, ctrs[e.info.secondaryId.value][e.info.sectionId]))
  {
    var primary := ctrs[e.info.primaryId][e.info.sectionId];
    var pp := SectionPairs(e, e.info.primaryEvidence, primary);
    PairsPointwise(e.uuid, e.info.kind, e.info.sectionId, e.info.primaryEvidence, e.info.statement, primary, e.info.statementLabel);
    if e.info.kind == COMPARISON {
      var sp := SectionPairs(e, e.info.secondaryEvidence.value, ctrs[e.info.secondaryId.value][e.info.sectionId]);
      assert EntryRun(e, ctrs).pairs == pp + sp;
      assert (pp + sp)[..|primary|] == pp;
      assert (pp + sp)[|primary|..] == sp;
    } else {
      assert EntryRun(e, ctrs).pairs == pp;
    }
  }

  /**
   * How an entry fails: a missing primary report or section writes nothing;
   * a "Comparison" whose secondary lookups fail keeps the primary section's
   * records already written, and raises the exception of the first lookup
   * that failed, in the order transform makes them.
   */
  lemma EntryRunFailures(e: DatasetEntry, ctrs: Ctrs)
    ensures e.info.primaryId !in ctrs ==> EntryRun(e, ctrs) == Run([], Some(CTRError(e.info.primaryId)))
    ensures e.info.primaryId in ctrs && e.info.sectionId !in ctrs[e.info.primaryId] ==>
      EntryRun(e, ctrs) == Run([], Some(KeyError(e.info.sectionId)))
    ensures Readable(ctrs, e.info.primaryId, e.info.sectionId) && !EntryResolvable(e, ctrs) ==>
      && e.info.kind == COMPARISON
      && EntryRun(e, ctrs).pairs == SectionPairs(e, e.info.primaryEvidence, ctrs[e.info.primaryId][e.info.sectionId])
      && EntryRun(e, ctrs).error == Some(
           if e.info.secondaryId.None? then KeyError("Secondary_id")
           else if e.info.secondaryId.value !in ctrs then CTRError(e.info.secondaryId.value)
           else if e.info.sectionId !in ctrs[e.info.secondaryId.value] then KeyError(e.info.sectionId)
           else KeyError("Secondary_evidence_index"))
  {
  }
}
