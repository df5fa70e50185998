/**
 * The deterministic parts of the DeepEval action handlers: the parameter
 * coercions and the `deepeval.generate_goldens_from_docs` handler, which
 * lays out a grid of documents × contexts × goldens, stores the resulting
 * dataset in `DATASETS` and shares it in the flow context.
 */
module DeepevalActions {
  import opened Values
  import opened Models
  import opened Datasets

  // ---------------------------------------------------------------------------
  // Parameter coercions

  /**
   * `_parse_json`: None gives the fallback, a list or dict is taken as it is,
   * a string is parsed as JSON (falling back when it does not parse), and
   * any other value gives the fallback.
   */
  function ParseJson(lib: Lib, value: Value, fallback: Value): (r: Value)
    ensures value.VNone? ==> r == fallback
    ensures value.VList? || value.VDict? ==> r == value
    ensures value.VStr? ==> r == (match lib.jsonLoads(value.s) case Some(v) => v case None => fallback)
    ensures !(value.VNone? || value.VList? || value.VDict? || value.VStr?) ==> r == fallback
  {
    match value
    case VNone => fallback
    case VList(_) => value
    case VDict(_) => value
    case VStr(s) =>
      (match lib.jsonLoads(s)
       case Some(v) => v
       case None => fallback)
    case _ => fallback
  }

  /** A value `_parse_json` has already produced as a list or dict is left alone by a second pass. */
  lemma ParseJsonIdempotent(lib: Lib, value: Value, fallback: Value)
    requires ParseJson(lib, value, fallback).VList? || ParseJson(lib, value, fallback).VDict?
    ensures ParseJson(lib, ParseJson(lib, value, fallback), fallback) == ParseJson(lib, value, fallback)
  {
  }

  /** The spellings `_coerce_bool` reads as true. */
  const TrueWords: set<string> := {"true", "1", "yes", "y"}

  /**
   * `_coerce_bool`: a bool is kept, a string is true exactly when, stripped
   * and lower-cased, it is one of "true", "1", "yes", "y", and anything else
   * gives the default. Lowering ASCII letters decides membership exactly as
   * Python's full lowering does, since no other character lowers to a letter
   * of these words.
   */
  function CoerceBool(value: Value, default: bool): (b: bool)
    ensures value.VBool? ==> b == value.b
    ensures value.VStr? ==> (b <==> AsciiLower(Strip(value.s)) in TrueWords)
    ensures !value.VBool? && !value.VStr? ==> b == default
  {
    match value
    case VBool(v) => v
    case VStr(s) => AsciiLower(Strip(s)) in TrueWords
    case _ => default
  }

  /** A string with no surrounding white space is its own strip. */
  lemma StripUnspaced(s: string)
    requires s != [] && !IsPySpace(s[0]) && !IsPySpace(s[|s| - 1])
    ensures Strip(s) == s
  {
    assert TrimStart(s) == s;
  }

  /** A bool printed with `str()` is read back as the same bool, whatever the default. */
  lemma CoerceBoolReadsStr(lib: Lib, v: bool, default: bool)
    ensures CoerceBool(VStr(Str(lib, VBool(v))), default) == v
  {
    var s := Str(lib, VBool(v));
    StripUnspaced(s);
    if v {
      assert AsciiLower(s) == "true";
    } else {
      assert AsciiLower(s) == "false";
      assert "false" !in TrueWords;
    }
  }

  // ---------------------------------------------------------------------------
  // The documents × contexts × goldens grid

  /** `Path(str(doc)).name or f"document-{d + 1}"`. */
  function DocName(lib: Lib, doc: Value, d: nat): string {
    var name := lib.pathName(Str(lib, doc));
    if name != "" then name else "document-" + NatToString(d + 1)
  }

  /** The snippet standing for context `c` (0-based) of a document. */
  function Snippet(docName: string, c: nat, contextLength: nat): string {
    "Context " + NatToString(c + 1) + " from " + docName
      + " (chunk span " + NatToString(c + 1) + "-" + NatToString(c + contextLength) + ")"
  }

  /** The id of golden `g` of context `c` of document `d`, all 0-based: 1-based in the id. */
  function GoldenId(datasetId: string, d: nat, c: nat, g: nat): string {
    datasetId + "-" + NatToString(d + 1) + "-" + NatToString(c + 1) + "-" + NatToString(g + 1)
  }

  /** One golden row; it has an `expected_output` only when expected outputs are asked for. */
  function GoldenRow(datasetId: string, docName: string, d: nat, c: nat, g: nat, contextLength: nat, withExpected: bool)
    : (row: map<string, Value>)
  {
    var row := map[
      "id" := VStr(GoldenId(datasetId, d, c, g)),
      "input" := VStr("Question " + NatToString(g + 1) + " grounded in " + docName + " context " + NatToString(c + 1)),
      "context" := VList([VStr(Snippet(docName, c, contextLength))])];
    if withExpected then
      row["expected_output" := VStr("Answer synthesized from " + docName + " context " + NatToString(c + 1)
                                    + " respecting construction config")]
    else row
  }

  /** The context summary of context `c` of a document. */
  function ContextSummary(docName: string, c: nat, contextLength: nat): map<string, Value> {
    map["document" := VStr(docName), "context" := VStr(Snippet(docName, c, contextLength))]
  }

  /** The goldens of one context: `perContext` of them. */
  function ContextGoldens(datasetId: string, docName: string, d: nat, c: nat, perContext: nat, contextLength: nat,
                          withExpected: bool): seq<map<string, Value>>
  {
    seq(perContext, g requires 0 <= g < perContext => GoldenRow(datasetId, docName, d, c, g, contextLength, withExpected))
  }

  /** The goldens of the first `contexts` contexts of document `d`, context by context. */
  function DocGoldens(datasetId: string, docName: string, d: nat, contexts: nat, perContext: nat, contextLength: nat,
                      withExpected: bool): seq<map<string, Value>>
  {
    if contexts == 0 then []
    else DocGoldens(datasetId, docName, d, contexts - 1, perContext, contextLength, withExpected)
         + ContextGoldens(datasetId, docName, d, contexts - 1, perContext, contextLength, withExpected)
  }

  /** The goldens of all documents, document by document. */
  function Grid(datasetId: string, docNames: seq<string>, contexts: nat, perContext: nat, contextLength: nat,
                withExpected: bool): seq<map<string, Value>>
  {
    if docNames == [] then []
    else Grid(datasetId, docNames[..|docNames| - 1], contexts, perContext, contextLength, withExpected)
         + DocGoldens(datasetId, docNames[|docNames| - 1], |docNames| - 1, contexts, perContext, contextLength, withExpected)
  }

  /** The context summaries of the first `contexts` contexts of a document. */
  function DocSummaries(docName: string, contexts: nat, contextLength: nat): seq<map<string, Value>> {
    seq(contexts, c requires 0 <= c < contexts => ContextSummary(docName, c, contextLength))
  }

  /** The context summaries of all documents, document by document. */
  function Summaries(docNames: seq<string>, contexts: nat, contextLength: nat): seq<map<string, Value>> {
    if docNames == [] then []
    else Summaries(docNames[..|docNames| - 1], contexts, contextLength)
         + DocSummaries(docNames[|docNames| - 1], contexts, contextLength)
  }

  lemma MulStep(a: nat, b: nat)
    ensures (a + 1) * b == a * b + b
  {
  }

  lemma {:induction false} DocGoldensSize(datasetId: string, docName: string, d: nat, contexts: nat, perContext: nat,
                                          contextLength: nat, withExpected: bool)
    ensures |DocGoldens(datasetId, docName, d, contexts, perContext, contextLength, withExpected)| == contexts * perContext
  {
    if contexts > 0 {
      DocGoldensSize(datasetId, docName, d, contexts - 1, perContext, contextLength, withExpected);
      MulStep(contexts - 1, perContext);
    }
  }

  /** The grid holds documents × contexts × goldens-per-context goldens. */
  lemma {:induction false} GridSize(datasetId: string, docNames: seq<string>, contexts: nat, perContext: nat,
                                    contextLength: nat, withExpected: bool)
    ensures |Grid(datasetId, docNames, contexts, perContext, contextLength, withExpected)| == |docNames| * (contexts * perContext)
  {
    if docNames != [] {
      var n := |docNames| - 1;
      GridSize(datasetId, docNames[..n], contexts, perContext, contextLength, withExpected);
      DocGoldensSize(datasetId, docNames[n], n, contexts, perContext, contextLength, withExpected);
      MulStep(n, contexts * perContext);
    }
  }

  /** One context summary per document and context. */
  lemma {:induction false} SummariesSize(docNames: seq<string>, contexts: nat, contextLength: nat)
    ensures |Summaries(docNames, contexts, contextLength)| == |docNames| * contexts
  {
    if docNames != [] {
      SummariesSize(docNames[..|docNames| - 1], contexts, contextLength);
      MulStep(|docNames| - 1, contexts);
    }
  }

  lemma MulLess(c: nat, g: nat, contexts: nat, perContext: nat)
    requires c < contexts && g < perContext
    ensures c * perContext + g < contexts * perContext
  {
    MulStep(c, perContext);
    assert (c + 1) * perContext <= contexts * perContext;
  }

  /** Within a document, golden `g` of context `c` sits at `c * perContext + g`. */
  lemma {:induction false} DocGoldensAt(datasetId: string, docName: string, d: nat, contexts: nat, perContext: nat,
                                        contextLength: nat, withExpected: bool, c: nat, g: nat)
    requires c < contexts && g < perContext
    ensures c * perContext + g < |DocGoldens(datasetId, docName, d, contexts, perContext, contextLength, withExpected)|
    ensures DocGoldens(datasetId, docName, d, contexts, perContext, contextLength, withExpected)[c * perContext + g]
      == GoldenRow(datasetId, docName, d, c, g, contextLength, withExpected)
  {
    MulLess(c, g, contexts, perContext);
    DocGoldensSize(datasetId, docName, d, contexts, perContext, contextLength, withExpected);
    DocGoldensSize(datasetId, docName, d, contexts - 1, perContext, contextLength, withExpected);
    if c < contexts - 1 {
      DocGoldensAt(datasetId, docName, d, contexts - 1, perContext, contextLength, withExpected, c, g);
    } else {
      assert c * perContext == (contexts - 1) * perContext;
    }
  }

  /**
   * Within the grid, the goldens of document `d` occupy the `contexts *
   * perContext` slots that start at `d * (contexts * perContext)`.
   */
  lemma {:induction false} GridDocAt(datasetId: string, docNames: seq<string>, contexts: nat, perContext: nat,
                                     contextLength: nat, withExpected: bool, d: nat, i: nat)
    requires d < |docNames| && i < contexts * perContext
    ensures d * (contexts * perContext) + i < |Grid(datasetId, docNames, contexts, perContext, contextLength, withExpected)|
    ensures i < |DocGoldens(datasetId, docNames[d], d, contexts, perContext, contextLength, withExpected)|
    ensures Grid(datasetId, docNames, contexts, perContext, contextLength, withExpected)[d * (contexts * perContext) + i]
      == DocGoldens(datasetId, docNames[d], d, contexts, perContext, contextLength, withExpected)[i]
  {
    var n := |docNames| - 1;
    var prefix := docNames[..n];
    var front := Grid(datasetId, prefix, contexts, perContext, contextLength, withExpected);
    var last := DocGoldens(datasetId, docNames[n], n, contexts, perContext, contextLength, withExpected);
    var width := contexts * perContext;
    GridSize(datasetId, prefix, contexts, perContext, contextLength, withExpected);
    DocGoldensSize(datasetId, docNames[d], d, contexts, perContext, contextLength, withExpected);
    DocGoldensSize(datasetId, docNames[n], n, contexts, perContext, contextLength, withExpected);
    assert Grid(datasetId, docNames, contexts, perContext, contextLength, withExpected) == front + last;
    if d < n {
      GridDocAt(datasetId, prefix, contexts, perContext, contextLength, withExpected, d, i);
      assert prefix[d] == docNames[d];
    } else {
      assert d * width == |front|;
    }
  }

  /**
   * The grid is laid out in nested-loop order: golden `g` of context `c` of
   * document `d` sits at `d * (contexts * perContext) + c * perContext + g`,
   * with the 1-based id "<dataset>-<d+1>-<c+1>-<g+1>".
   */
  lemma GridAt(datasetId: string, docNames: seq<string>, contexts: nat, perContext: nat,
               contextLength: nat, withExpected: bool, d: nat, c: nat, g: nat)
    requires d < |docNames| && c < contexts && g < perContext
    ensures d * (contexts * perContext) + c * perContext + g
      < |Grid(datasetId, docNames, contexts, perContext, contextLength, withExpected)|
    ensures Grid(datasetId, docNames, contexts, perContext, contextLength, withExpected)[d * (contexts * perContext) + c * perContext + g]
      == GoldenRow(datasetId, docNames[d], d, c, g, contextLength, withExpected)
    ensures Grid(datasetId, docNames, contexts, perContext, contextLength, withExpected)[d * (contexts * perContext) + c * perContext + g]["id"]
      == VStr(GoldenId(datasetId, d, c, g))
  {
    MulLess(c, g, contexts, perContext);
    GridDocAt(datasetId, docNames, contexts, perContext, contextLength, withExpected, d, c * perContext + g);
    DocGoldensAt(datasetId, docNames[d], d, contexts, perContext, contextLength, withExpected, c, g);
  }

  /** Every golden of the grid has an `expected_output` exactly when expected outputs were asked for. */
  lemma {:induction false} GridExpectedOutput(datasetId: string, docNames: seq<string>, contexts: nat, perContext: nat,
                                              contextLength: nat, withExpected: bool, i: nat)
    requires i < |Grid(datasetId, docNames, contexts, perContext, contextLength, withExpected)|
    ensures "expected_output" in Grid(datasetId, docNames, contexts, perContext, contextLength, withExpected)[i] <==> withExpected
    decreases |docNames|
  {
    var n := |docNames| - 1;
    var front := Grid(datasetId, docNames[..n], contexts, perContext, contextLength, withExpected);
    if i < |front| {
      GridExpectedOutput(datasetId, docNames[..n], contexts, perContext, contextLength, withExpected, i);
    } else {
      DocExpectedOutput(datasetId, docNames[n], n, contexts, perContext, contextLength, withExpected, i - |front|);
    }
  }

  lemma {:induction false} DocExpectedOutput(datasetId: string, docName: string, d: nat, contexts: nat, perContext: nat,
                                             contextLength: nat, withExpected: bool, i: nat)
    requires i < |DocGoldens(datasetId, docName, d, contexts, perContext, contextLength, withExpected)|
    ensures "expected_output" in DocGoldens(datasetId, docName, d, contexts, perContext, contextLength, withExpected)[i] <==> withExpected
  {
    var front := DocGoldens(datasetId, docName, d, contexts - 1, perContext, contextLength, withExpected);
    if i < |front| {
      DocExpectedOutput(datasetId, docName, d, contexts - 1, perContext, contextLength, withExpected, i);
    }
  }

  // ---------------------------------------------------------------------------
  // deepeval.generate_goldens_from_docs

  /** The error returned when there is no document to synthesize from. */
  const NoDocumentsMessage := "Provide at least one document path to synthesize goldens."

  /**
   * What the handler settles from its parameters and the context before it
   * lays out the grid: the dataset id, the documents (the parsed parameter
   * and the elements `enumerate` visits), the goldens per context as
   * `int()` read it, the context-construction settings, the clamped number
   * and length of contexts, and the dataset's file name.
   */
  datatype DocsPlan = DocsPlan(
    datasetId: Value,
    documents: Value,
    docs: seq<Value>,
    withExpected: bool,
    maxGoldens: int,
    config: map<string, Value>,
    contexts: nat,
    contextLength: nat,
    fileName: string)

  /** The handler declines (an error result), raises, or goes on with a plan. */
  datatype Planned = Refused | Fails(message: string) | Ready(plan: DocsPlan)

  /**
   * The parameter handling of `generate_goldens_from_docs_action`, up to
   * the grid. `uuidHex8` stands for the first eight hex digits of a new uuid4.
   * `int()` of an unreadable count raises, as does `.get` on settings that
   * are not a dict, `len` of documents without a length, and
   * `document_paths[0]` on a dict (whose keys are strings, so 0 is missing).
   */
  function PlanDocs(lib: Lib, params: map<string, Value>, ctx: Context, uuidHex8: string): (r: Planned)
    ensures r == Refused <==>
      && ToInt(lib, Get(params, "max_goldens_per_context", VInt(2))).Some?
      && !Truthy(ParseJson(lib, Get(params, "document_paths", VNone), VList([])))
    ensures r.Ready? ==>
      && r.plan.documents == ParseJson(lib, Get(params, "document_paths", VNone), VList([]))
      && (r.plan.documents.VList? || r.plan.documents.VStr?)
      && |r.plan.docs| >= 1
      && r.plan.datasetId == Or(Get(ctx, "dataset_id", VNone), VStr("docs-" + uuidHex8))
      && r.plan.withExpected == CoerceBool(Get(params, "include_expected_output", VNone), true)
      && ToInt(lib, Get(params, "max_goldens_per_context", VInt(2))) == Some(r.plan.maxGoldens)
      && r.plan.contexts >= 1 && r.plan.contextLength >= 1
  {
    var documents := ParseJson(lib, Get(params, "document_paths", VNone), VList([]));
    var withExpected := CoerceBool(Get(params, "include_expected_output", VNone), true);
    var maxRaw := Get(params, "max_goldens_per_context", VInt(2));
    var config := ParseJson(lib, Get(params, "context_construction_config", VNone), VDict(map[]));
    match ToInt(lib, maxRaw)
    case None => Fails(lib.raised("int", maxRaw))
    case Some(maxGoldens) =>
      if !Truthy(documents) then Refused
      else
        var datasetId := Or(Get(ctx, "dataset_id", VNone), VStr("docs-" + uuidHex8));
        if !config.VDict? then Fails("'" + TypeName(config) + "' object has no attribute 'get'")
        else
          var contextsRaw := Get(config.entries, "max_contexts_per_document", VInt(3));
          var lengthRaw := Get(config.entries, "max_context_length", VInt(3));
          match (ToInt(lib, contextsRaw), ToInt(lib, lengthRaw))
          case (None, _) => Fails(lib.raised("int", contextsRaw))
          case (Some(_), None) => Fails(lib.raised("int", lengthRaw))
          case (Some(contexts), Some(contextLength)) =>
            match documents
            case VList(items) =>
              Ready(DocsPlan(datasetId, documents, items, withExpected, maxGoldens, config.entries,
                             if contexts < 1 then 1 else contexts, if contextLength < 1 then 1 else contextLength,
                             lib.pathName(Str(lib, items[0])) + " (deepeval)"))
            case VStr(s) =>
              Ready(DocsPlan(datasetId, documents, Chars(s), withExpected,
                             maxGoldens, config.entries,
                             if contexts < 1 then 1 else contexts, if contextLength < 1 then 1 else contextLength,
                             lib.pathName([s[0]]) + " (deepeval)"))
            case VDict(_) => Fails(lib.raised("getitem", documents))
            case _ => Fails("object of type '" + TypeName(documents) + "' has no len()")
  }

  /** `range(max_goldens_per_context)` is empty for a count below one. */
  function PerContext(plan: DocsPlan): nat {
    if plan.maxGoldens > 0 then plan.maxGoldens else 0
  }

  /** The document names, in document order. */
  function DocNames(lib: Lib, docs: seq<Value>): (names: seq<string>)
    ensures |names| == |docs|
  {
    seq(|docs|, d requires 0 <= d < |docs| => DocName(lib, docs[d], d))
  }

  /** The goldens of the plan's grid. */
  function PlanGoldens(lib: Lib, plan: DocsPlan): seq<map<string, Value>> {
    Grid(Str(lib, plan.datasetId), DocNames(lib, plan.docs), plan.contexts, PerContext(plan), plan.contextLength,
         plan.withExpected)
  }

  /** The context summaries of the plan's grid. */
  function PlanSummaries(lib: Lib, plan: DocsPlan): seq<map<string, Value>> {
    Summaries(DocNames(lib, plan.docs), plan.contexts, plan.contextLength)
  }

  /** `DATA_DIR / f"{dataset_id}_goldens.csv"`, as a string. */
  function GoldensCsvPath(lib: Lib, plan: DocsPlan, dataDir: string): string {
    dataDir + "/" + Str(lib, plan.datasetId) + "_goldens.csv"
  }

  /** The dataset stored under the dataset id. */
  function SynthesizedDataset(lib: Lib, plan: DocsPlan): Dataset {
    map[
      "id" := plan.datasetId,
      "dataset_id" := plan.datasetId,
      "file_name" := VStr(plan.fileName),
      "documents" := plan.documents,
      "goldens" := VList(Rows(PlanGoldens(lib, plan))),
      "context_construction_config" := VDict(plan.config)]
  }

  /** The first five context summaries (`[:5]`). */
  function FirstFive(rows: seq<map<string, Value>>): seq<map<string, Value>> {
    if |rows| < 5 then rows else rows[..5]
  }

  /** The output of a successful run. */
  function DocsOutput(lib: Lib, plan: DocsPlan, dataDir: string): map<string, Value> {
    map[
      "dataset_id" := plan.datasetId,
      "documents" := plan.documents,
      "generated" := VInt(|PlanGoldens(lib, plan)|),
      "contexts_created" := VInt(|PlanSummaries(lib, plan)|),
      "context_examples" := VList(Rows(FirstFive(PlanSummaries(lib, plan)))),
      "include_expected_output" := VBool(plan.withExpected),
      "max_goldens_per_context" := VInt(plan.maxGoldens),
      "context_construction_config" := VDict(plan.config),
      "download_url" := VStr("/datasets/" + Str(lib, plan.datasetId) + "/goldens.csv"),
      "goldens_csv" := VStr(GoldensCsvPath(lib, plan, dataDir))]
  }

  /** The flow context after a successful run: the new dataset is the current one. */
  function DocsContext(lib: Lib, plan: DocsPlan, dataDir: string, ctx: Context): Context {
    ctx["dataset_id" := plan.datasetId]["dataset" := VDict(SynthesizedDataset(lib, plan))]
       ["goldens_csv" := VStr(GoldensCsvPath(lib, plan, dataDir))]
  }

  lemma ContextGoldensSnoc(datasetId: string, docName: string, d: nat, c: nat, g: nat, contextLength: nat,
                           withExpected: bool)
    ensures ContextGoldens(datasetId, docName, d, c, g + 1, contextLength, withExpected)
      == ContextGoldens(datasetId, docName, d, c, g, contextLength, withExpected)
         + [GoldenRow(datasetId, docName, d, c, g, contextLength, withExpected)]
  {
  }

  lemma DocGoldensSnoc(before: seq<map<string, Value>>, datasetId: string, docName: string, d: nat, c: nat,
                       perContext: nat, contextLength: nat, withExpected: bool)
    ensures before + DocGoldens(datasetId, docName, d, c, perContext, contextLength, withExpected)
                   + ContextGoldens(datasetId, docName, d, c, perContext, contextLength, withExpected)
      == before + DocGoldens(datasetId, docName, d, c + 1, perContext, contextLength, withExpected)
  {
  }

  lemma DocSummariesSnoc(docName: string, c: nat, contextLength: nat)
    ensures DocSummaries(docName, c + 1, contextLength)
      == DocSummaries(docName, c, contextLength) + [ContextSummary(docName, c, contextLength)]
  {
  }

  lemma GridPrefixSnoc(datasetId: string, docNames: seq<string>, d: nat, contexts: nat, perContext: nat,
                       contextLength: nat, withExpected: bool)
    requires d < |docNames|
    ensures Grid(datasetId, docNames[..d + 1], contexts, perContext, contextLength, withExpected)
      == Grid(datasetId, docNames[..d], contexts, perContext, contextLength, withExpected)
         + DocGoldens(datasetId, docNames[d], d, contexts, perContext, contextLength, withExpected)
    ensures Summaries(docNames[..d + 1], contexts, contextLength)
      == Summaries(docNames[..d], contexts, contextLength) + DocSummaries(docNames[d], contexts, contextLength)
  {
    assert docNames[..d + 1][..d] == docNames[..d];
  }

  /**
   * The nested loops: for each document, for each context, one summary and
   * then that context's goldens.
   */
  method BuildGrid(datasetId: string, docNames: seq<string>, contexts: nat, perContext: nat, contextLength: nat,
                   withExpected: bool)
    returns (goldens: seq<map<string, Value>>, summaries: seq<map<string, Value>>)
    ensures goldens == Grid(datasetId, docNames, contexts, perContext, contextLength, withExpected)
    ensures summaries == Summaries(docNames, contexts, contextLength)
  {
    goldens := [];
    summaries := [];
    var d := 0;
    while d < |docNames|
      invariant 0 <= d <= |docNames|
      invariant goldens == Grid(datasetId, docNames[..d], contexts, perContext, contextLength, withExpected)
      invariant summaries == Summaries(docNames[..d], contexts, contextLength)
    {
      var name := docNames[d];
      ghost var before := goldens;
      ghost var summariesBefore := summaries;
      var c := 0;
      while c < contexts
        invariant 0 <= c <= contexts
        invariant goldens == before + DocGoldens(datasetId, name, d, c, perContext, contextLength, withExpected)
        invariant summaries == summariesBefore + DocSummaries(name, c, contextLength)
      {
        DocSummariesSnoc(name, c, contextLength);
        summaries := summaries + [ContextSummary(name, c, contextLength)];
        ghost var contextStart := goldens;
        var g := 0;
        while g < perContext
          invariant 0 <= g <= perContext
          invariant goldens == contextStart + ContextGoldens(datasetId, name, d, c, g, contextLength, withExpected)
        {
          ContextGoldensSnoc(datasetId, name, d, c, g, contextLength, withExpected);
          goldens := goldens + [GoldenRow(datasetId, name, d, c, g, contextLength, withExpected)];
          g := g + 1;
        }
        DocGoldensSnoc(before, datasetId, name, d, c, perContext, contextLength, withExpected);
        c := c + 1;
      }
      GridPrefixSnoc(datasetId, docNames, d, contexts, perContext, contextLength, withExpected);
      d := d + 1;
    }
    assert docNames[..d] == docNames;
  }

  /**
   * `generate_goldens_from_docs_action`: with no documents it returns an
   * error result; when it raises, nothing has changed yet; otherwise it
   * stores the synthesized dataset under the dataset id (replacing any
   * earlier one), makes it the context's current dataset and reports it.
   * Writing the CSV file is not part of this model.
   */
  method GenerateGoldensFromDocs(lib: Lib, store: DatasetStore, node: FlowNode, ctx: Context, uuidHex8: string,
                                 dataDir: string)
    returns (outcome: HandlerOutcome)
    modifies store
    ensures PlanDocs(lib, node.data.params, ctx, uuidHex8) == Refused ==>
      outcome == Returned(ErrorResult(NoDocumentsMessage), ctx) && store.datasets == old(store.datasets)
    ensures PlanDocs(lib, node.data.params, ctx, uuidHex8).Fails? ==>
      outcome == Raised(PlanDocs(lib, node.data.params, ctx, uuidHex8).message, ctx) && store.datasets == old(store.datasets)
    ensures PlanDocs(lib, node.data.params, ctx, uuidHex8).Ready? ==>
      var plan := PlanDocs(lib, node.data.params, ctx, uuidHex8).plan;
      if !Hashable(plan.datasetId) then
        outcome == Raised(lib.raised("hash", plan.datasetId), ctx) && store.datasets == old(store.datasets)
      else
        && store.datasets == old(store.datasets)[plan.datasetId := SynthesizedDataset(lib, plan)]
        && outcome == Returned(SuccessResult(DocsOutput(lib, plan, dataDir)), DocsContext(lib, plan, dataDir, ctx))
  {
    var planned := PlanDocs(lib, node.data.params, ctx, uuidHex8);
    match planned
    case Refused =>
      return Returned(ErrorResult(NoDocumentsMessage), ctx);
    case Fails(message) =>
      return Raised(message, ctx);
    case Ready(plan) =>
      var goldens, summaries := BuildGrid(Str(lib, plan.datasetId), DocNames(lib, plan.docs), plan.contexts,
                                          PerContext(plan), plan.contextLength, plan.withExpected);
      if !Hashable(plan.datasetId) {
        return Raised(lib.raised("hash", plan.datasetId), ctx);
      }
      var csvPath := GoldensCsvPath(lib, plan, dataDir);
      var dataset := map[
        "id" := plan.datasetId,
        "dataset_id" := plan.datasetId,
        "file_name" := VStr(plan.fileName),
        "documents" := plan.documents,
        "goldens" := VList(Rows(goldens)),
        "context_construction_config" := VDict(plan.config)];
      store.datasets := store.datasets[plan.datasetId := dataset];
      var newCtx := ctx["dataset_id" := plan.datasetId]["dataset" := VDict(dataset)]["goldens_csv" := VStr(csvPath)];
      var output := map[
        "dataset_id" := plan.datasetId,
        "documents" := plan.documents,
        "generated" := VInt(|goldens|),
        "contexts_created" := VInt(|summaries|),
        "context_examples" := VList(Rows(if |summaries| < 5 then summaries else summaries[..5])),
        "include_expected_output" := VBool(plan.withExpected),
        "max_goldens_per_context" := VInt(plan.maxGoldens),
        "context_construction_config" := VDict(plan.config),
        "download_url" := VStr("/datasets/" + Str(lib, plan.datasetId) + "/goldens.csv"),
        "goldens_csv" := VStr(csvPath)];
      outcome := Returned(SuccessResult(output), newCtx);
  }

  /**
   * A successful run reports documents × contexts × goldens-per-context
   * goldens and documents × contexts contexts, at least one context per
   * document, and stores exactly as many goldens as it reports.
   */
  lemma GoldensFromDocsCounts(lib: Lib, plan: DocsPlan, dataDir: string)
    requires plan.contexts >= 1
    ensures DocsOutput(lib, plan, dataDir)["generated"] == VInt(|plan.docs| * (plan.contexts * PerContext(plan)))
    ensures DocsOutput(lib, plan, dataDir)["contexts_created"] == VInt(|plan.docs| * plan.contexts)
    ensures |plan.docs| * plan.contexts >= |plan.docs|
    ensures SynthesizedDataset(lib, plan)["goldens"] == VList(Rows(PlanGoldens(lib, plan)))
    ensures |Rows(PlanGoldens(lib, plan))| == |plan.docs| * (plan.contexts * PerContext(plan))
  {
    GridSize(Str(lib, plan.datasetId), DocNames(lib, plan.docs), plan.contexts, PerContext(plan), plan.contextLength,
             plan.withExpected);
    SummariesSize(DocNames(lib, plan.docs), plan.contexts, plan.contextLength);
    MulAtLeast(|plan.docs|, plan.contexts);
  }

  lemma MulAtLeast(a: nat, b: nat)
    requires b >= 1
    ensures a * b >= a
  {
    assert a * b == a * (b - 1) + a;
  }

  /** Every stored golden has an `expected_output` exactly when the run asked for them. */
  lemma GoldensFromDocsExpectedOutput(lib: Lib, plan: DocsPlan, i: nat)
    requires i < |PlanGoldens(lib, plan)|
    ensures "expected_output" in PlanGoldens(lib, plan)[i] <==> plan.withExpected
  {
    GridExpectedOutput(Str(lib, plan.datasetId), DocNames(lib, plan.docs), plan.contexts, PerContext(plan),
                       plan.contextLength, plan.withExpected, i);
  }
}
