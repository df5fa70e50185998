/**
 * `generate_goldens_from_documents`: normalise the document paths, build the
 * context-construction settings, ask the DeepEval synthesizer for goldens
 * and summarise how many of them carry an expected output.
 *
 * The synthesizer itself (and the validation `ContextConstructionConfig`
 * applies to its settings) is the parameter `synthesize`.
 */
module Synthesizer {
  import opened Values

  /** `GoldensSummary`. */
  datatype GoldensSummary = GoldensSummary(
    numDocuments: nat,
    documentPaths: seq<Value>,
    totalGoldens: nat,
    withExpectedOutput: nat,
    withoutExpectedOutput: nat)

  /** What `generate_goldens_from_documents` returns. */
  datatype Generated = Generated(goldens: seq<Value>, summary: GoldensSummary, contextConfig: map<string, Value>)

  /** The keyword arguments of `generate_goldens_from_documents` that shape the contexts. */
  datatype SynthesisOptions = SynthesisOptions(
    includeExpectedOutput: bool,
    maxGoldensPerContext: Value,
    criticModel: Value,
    encoding: Value,
    maxContextsPerDocument: Value,
    minContextsPerDocument: Value,
    maxContextLength: Value,
    minContextLength: Value,
    chunkSize: Value,
    chunkOverlap: Value,
    contextQualityThreshold: Value,
    contextSimilarityThreshold: Value,
    maxRetries: Value,
    embedder: Value,
    synthesizerModel: Value)

  /** The defaults of the keyword arguments. */
  const DefaultOptions := SynthesisOptions(
    true, VInt(2), VNone, VNone, VInt(3), VInt(1), VInt(3), VInt(1), VInt(1024), VInt(0),
    VFloat(0.5), VFloat(0.5), VInt(3), VStr("text-embedding-3-small"), VNone)

  /**
   * The synthesizer: given the document paths, whether to include expected
   * outputs, the number of goldens per context, the context-construction
   * settings and the synthesizer model, the goldens it produced or the
   * message of the exception it raised.
   */
  type Synthesize = (seq<Value>, bool, Value, map<string, Value>, Value) -> Result<seq<Value>, string>

  /**
   * `_coerce_document_paths`: a single path becomes a one-element list; any
   * other iterable is copied element by element, in order.
   */
  function CoerceDocumentPaths(lib: Lib, documentPaths: Value): (r: Result<seq<Value>, string>)
    ensures documentPaths.VStr? ==> r == Ok([documentPaths])
    ensures documentPaths.VList? ==> r == Ok(documentPaths.items)
    ensures r.Err? <==> Iterate(lib, documentPaths).None?
  {
    match documentPaths
    case VStr(_) => Ok([documentPaths])
    case _ =>
      match Iterate(lib, documentPaths)
      case None => Err("'" + TypeName(documentPaths) + "' object is not iterable")
      case Some(items) => Ok(items)
  }

  /** The nine numeric settings, always passed on. */
  const NumericKeys: set<string> := {
    "max_contexts_per_document", "min_contexts_per_document", "max_context_length", "min_context_length",
    "chunk_size", "chunk_overlap", "context_quality_threshold", "context_similarity_threshold", "max_retries" }

  /**
   * The keyword arguments of `ContextConstructionConfig`: the nine numeric
   * settings always, and `critic_model`, `encoding` and `embedder` only when
   * they are not None.
   */
  function ConfigKwargs(opts: SynthesisOptions): (kw: map<string, Value>)
    ensures NumericKeys <= kw.Keys
    ensures kw["max_contexts_per_document"] == opts.maxContextsPerDocument
    ensures kw["chunk_size"] == opts.chunkSize && kw["max_retries"] == opts.maxRetries
    ensures "critic_model" in kw <==> opts.criticModel != VNone
    ensures "encoding" in kw <==> opts.encoding != VNone
    ensures "embedder" in kw <==> opts.embedder != VNone
    ensures "critic_model" in kw ==> kw["critic_model"] == opts.criticModel
    ensures "encoding" in kw ==> kw["encoding"] == opts.encoding
    ensures "embedder" in kw ==> kw["embedder"] == opts.embedder
    ensures kw.Keys <= NumericKeys + {"critic_model", "encoding", "embedder"}
  {
    var numeric := map[
      "max_contexts_per_document" := opts.maxContextsPerDocument,
      "min_contexts_per_document" := opts.minContextsPerDocument,
      "max_context_length" := opts.maxContextLength,
      "min_context_length" := opts.minContextLength,
      "chunk_size" := opts.chunkSize,
      "chunk_overlap" := opts.chunkOverlap,
      "context_quality_threshold" := opts.contextQualityThreshold,
      "context_similarity_threshold" := opts.contextSimilarityThreshold,
      "max_retries" := opts.maxRetries];
    var withCritic := if opts.criticModel != VNone then numeric["critic_model" := opts.criticModel] else numeric;
    var withEncoding := if opts.encoding != VNone then withCritic["encoding" := opts.encoding] else withCritic;
    if opts.embedder != VNone then withEncoding["embedder" := opts.embedder] else withEncoding
  }

  /**
   * A golden counts as carrying an expected output when its
   * `expected_output` attribute, or failing that (for a dict) its
   * `expected_output` key, is truthy.
   */
  predicate HasExpectedOutput(lib: Lib, golden: Value) {
    // a dict has no `expected_output` attribute, so only its key is consulted
    var expected :=
      if golden.VDict? then Get(golden.entries, "expected_output", VNone)
      else match GetAttr(lib, golden, "expected_output")
        case Some(v) => v
        case None => VNone;
    Truthy(expected)
  }

  /** The number of goldens carrying an expected output. */
  function CountWithExpected(lib: Lib, goldens: seq<Value>): (n: nat)
    ensures n <= |goldens|
  {
    if goldens == [] then 0
    else CountWithExpected(lib, goldens[..|goldens| - 1]) + (if HasExpectedOutput(lib, goldens[|goldens| - 1]) then 1 else 0)
  }

  /** Counting works golden by golden: the count of a concatenation is the sum of the counts. */
  lemma {:induction false} CountWithExpectedAppend(lib: Lib, a: seq<Value>, b: seq<Value>)
    ensures CountWithExpected(lib, a + b) == CountWithExpected(lib, a) + CountWithExpected(lib, b)
  {
    if b == [] {
      assert a + b == a;
    } else {
      assert (a + b)[..|a + b| - 1] == a + b[..|b| - 1];
      CountWithExpectedAppend(lib, a, b[..|b| - 1]);
    }
  }

  /** Every golden is counted exactly when all of them carry an expected output. */
  lemma {:induction false} CountWithExpectedAll(lib: Lib, goldens: seq<Value>)
    ensures CountWithExpected(lib, goldens) == |goldens| <==> forall i :: 0 <= i < |goldens| ==> HasExpectedOutput(lib, goldens[i])
  {
    if goldens != [] {
      var p := goldens[..|goldens| - 1];
      CountWithExpectedAll(lib, p);
      if forall i :: 0 <= i < |goldens| ==> HasExpectedOutput(lib, goldens[i]) {
        forall i | 0 <= i < |p| ensures HasExpectedOutput(lib, p[i]) {
          assert p[i] == goldens[i];
        }
      } else if CountWithExpected(lib, goldens) == |goldens| {
        forall i | 0 <= i < |goldens| ensures HasExpectedOutput(lib, goldens[i]) {
          if i < |p| { assert goldens[i] == p[i]; }
        }
      }
    }
  }

  /**
   * The summary loop: every golden is counted once, as with or as without an
   * expected output.
   */
  method Summarize(lib: Lib, docPaths: seq<Value>, goldens: seq<Value>) returns (summary: GoldensSummary)
    ensures summary.numDocuments == |docPaths| && summary.documentPaths == docPaths
    ensures summary.totalGoldens == |goldens|
    ensures summary.withExpectedOutput == CountWithExpected(lib, goldens)
    ensures summary.withExpectedOutput + summary.withoutExpectedOutput == summary.totalGoldens
  {
    var with := 0;
    var without := 0;
    var i := 0;
    while i < |goldens|
      invariant 0 <= i <= |goldens|
      invariant with == CountWithExpected(lib, goldens[..i])
      invariant with + without == i
    {
      assert goldens[..i + 1][..i] == goldens[..i];
      if HasExpectedOutput(lib, goldens[i]) {
        with := with + 1;
      } else {
        without := without + 1;
      }
      i := i + 1;
    }
    assert goldens[..i] == goldens;
    summary := GoldensSummary(|docPaths|, docPaths, |goldens|, with, without);
  }

  /**
   * The goldens the synthesizer produces for the coerced paths under the
   * settings built from `opts`, or the message of the exception raised on
   * the way (paths that are not iterable, or a failing synthesizer).
   */
  function Synthesized(lib: Lib, synthesize: Synthesize, documentPaths: Value, opts: SynthesisOptions)
    : (r: Result<seq<Value>, string>)
    ensures CoerceDocumentPaths(lib, documentPaths).Err? ==> r == Err(CoerceDocumentPaths(lib, documentPaths).error)
  {
    match CoerceDocumentPaths(lib, documentPaths)
    case Err(message) => Err(message)
    case Ok(docs) => synthesize(docs, opts.includeExpectedOutput, opts.maxGoldensPerContext, ConfigKwargs(opts), opts.synthesizerModel)
  }

  /**
   * `generate_goldens_from_documents`: the goldens the synthesizer produced
   * for the coerced paths, their summary, and the settings passed to it;
   * it raises exactly when coercing the paths or synthesizing does.
   */
  method GenerateGoldensFromDocuments(lib: Lib, synthesize: Synthesize, documentPaths: Value, opts: SynthesisOptions)
    returns (r: Result<Generated, string>)
    ensures r.Err? <==> Synthesized(lib, synthesize, documentPaths, opts).Err?
    ensures r.Err? ==> r.error == Synthesized(lib, synthesize, documentPaths, opts).error
    ensures r.Ok? ==>
      && CoerceDocumentPaths(lib, documentPaths).Ok?
      && var docs := CoerceDocumentPaths(lib, documentPaths).value;
      && r.value.goldens == Synthesized(lib, synthesize, documentPaths, opts).value
      && r.value.contextConfig == ConfigKwargs(opts)
      && r.value.summary.documentPaths == docs
      && r.value.summary.numDocuments == |docs|
      && r.value.summary.totalGoldens == |r.value.goldens|
      && r.value.summary.withExpectedOutput == CountWithExpected(lib, r.value.goldens)
      && r.value.summary.withExpectedOutput + r.value.summary.withoutExpectedOutput == r.value.summary.totalGoldens
  {
    var docs := CoerceDocumentPaths(lib, documentPaths);
    if docs.Err? {
      return Err(docs.error);
    }
    var kwargs := ConfigKwargs(opts);
    var goldens := synthesize(docs.value, opts.includeExpectedOutput, opts.maxGoldensPerContext, kwargs, opts.synthesizerModel);
    if goldens.Err? {
      return Err(goldens.error);
    }
    var summary := Summarize(lib, docs.value, goldens.value);
    r := Ok(Generated(goldens.value, summary, kwargs));
  }
}
