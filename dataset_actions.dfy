/**
 * The dataset action handlers: load or share an uploaded dataset, generate
 * goldens for it with the DeepEval synthesizer, open the human review of
 * the goldens (which pauses the flow) and export the reviewed goldens.
 *
 * Each handler answers with a `HandlerOutcome`: the result it returns and
 * the flow context as it leaves it, or the message of the exception it
 * lets escape. Handlers that write `DATASETS` are methods on the store.
 */
module DatasetActions {
  import opened Values
  import opened Models
  import opened Datasets
  import opened Synthesizer

  // ---------------------------------------------------------------------------
  // dataset.load and dataset.upload

  /** The number of goldens `len(dataset.get("goldens", []))` reports; `None` when it raises. */
  function GoldensCount(dataset: Dataset): Option<nat> {
    Len(Get(dataset, "goldens", VList([])))
  }

  /**
   * `load_dataset_action`: an empty or unknown `dataset_id` parameter is an
   * error that leaves the context alone; a known one becomes the context's
   * current dataset and its goldens are counted (none when it has no
   * `goldens` field). Counting goldens that have no length raises after the
   * context was updated.
   */
  function LoadDataset(lib: Lib, datasets: map<Value, Dataset>, node: FlowNode, ctx: Context): (r: HandlerOutcome)
    ensures var id := Get(node.data.params, "dataset_id", VNone);
      (r.Returned? && r.result.status == "error") <==> !Truthy(id) || (Hashable(id) && id !in datasets)
    ensures var id := Get(node.data.params, "dataset_id", VNone);
      r.Returned? && r.result.status == "error" ==>
        r == Returned(ErrorResult("Unknown dataset_id=" + Str(lib, id)), ctx)
    ensures var id := Get(node.data.params, "dataset_id", VNone);
      Truthy(id) && !Hashable(id) ==> r == Raised(lib.raised("hash", id), ctx)
    ensures var id := Get(node.data.params, "dataset_id", VNone);
      Truthy(id) && Hashable(id) && id in datasets ==>
        && r.ctx == ctx["dataset_id" := id]["dataset" := VDict(datasets[id])]
        && (r.Returned? <==> GoldensCount(datasets[id]).Some?)
        && (r.Returned? ==>
              r.result == SuccessResult(map["dataset_id" := id, "goldens_count" := VInt(GoldensCount(datasets[id]).value)]))
    ensures var id := Get(node.data.params, "dataset_id", VNone);
      Truthy(id) && Hashable(id) && id in datasets && "goldens" !in datasets[id] ==>
        r.Returned? && r.result.output == Some(map["dataset_id" := id, "goldens_count" := VInt(0)])
  {
    var id := Get(node.data.params, "dataset_id", VNone);
    if !Truthy(id) then Returned(ErrorResult("Unknown dataset_id=" + Str(lib, id)), ctx)
    else match Lookup(lib, datasets, id)
      case Err(message) => Raised(message, ctx)
      case Ok(None) => Returned(ErrorResult("Unknown dataset_id=" + Str(lib, id)), ctx)
      case Ok(Some(dataset)) =>
        var shared := ctx["dataset_id" := id]["dataset" := VDict(dataset)];
        match GoldensCount(dataset)
        case None => Raised(lib.raised("len", Get(dataset, "goldens", VList([]))), shared)
        case Some(n) => Returned(SuccessResult(map["dataset_id" := id, "goldens_count" := VInt(n)]), shared)
  }

  /** The error for an upload node whose `dataset_id` was never filled in. */
  const NoUploadMessage := "No dataset_id set. Upload file in the properties panel first."

  /**
   * `upload_dataset_action`: a missing id and an id the server does not
   * know are two different errors, both leaving the context alone; a known
   * id becomes the context's current dataset and its file name is reported.
   */
  function UploadDataset(lib: Lib, datasets: map<Value, Dataset>, node: FlowNode, ctx: Context): (r: HandlerOutcome)
    ensures var id := Get(node.data.params, "dataset_id", VNone);
      !Truthy(id) ==> r == Returned(ErrorResult(NoUploadMessage), ctx)
    ensures var id := Get(node.data.params, "dataset_id", VNone);
      Truthy(id) && !Hashable(id) ==> r == Raised(lib.raised("hash", id), ctx)
    ensures var id := Get(node.data.params, "dataset_id", VNone);
      Truthy(id) && Hashable(id) && id !in datasets ==>
        r == Returned(ErrorResult("Uploaded dataset " + Str(lib, id) + " not found on server"), ctx)
    ensures var id := Get(node.data.params, "dataset_id", VNone);
      Truthy(id) && Hashable(id) && id in datasets ==>
        && r.Returned? && r.result.status == "success"
        && r.ctx == ctx["dataset_id" := id]["dataset" := VDict(datasets[id])]
        && r.result.output == Some(map["dataset_id" := id, "file_name" := Get(datasets[id], "file_name", VNone)])
  {
    var id := Get(node.data.params, "dataset_id", VNone);
    if !Truthy(id) then Returned(ErrorResult(NoUploadMessage), ctx)
    else match Lookup(lib, datasets, id)
      case Err(message) => Raised(message, ctx)
      case Ok(None) => Returned(ErrorResult("Uploaded dataset " + Str(lib, id) + " not found on server"), ctx)
      case Ok(Some(dataset)) =>
        Returned(SuccessResult(map["dataset_id" := id, "file_name" := Get(dataset, "file_name", VNone)]),
                 ctx["dataset_id" := id]["dataset" := VDict(dataset)])
  }

  /**
   * Loading and sharing the same known dataset leave the flow context in
   * the same state: both make it the current dataset.
   */
  lemma LoadAndUploadAgree(lib: Lib, datasets: map<Value, Dataset>, node: FlowNode, ctx: Context)
    requires Truthy(Get(node.data.params, "dataset_id", VNone))
    requires Hashable(Get(node.data.params, "dataset_id", VNone))
    requires Get(node.data.params, "dataset_id", VNone) in datasets
    ensures LoadDataset(lib, datasets, node, ctx).ctx == UploadDataset(lib, datasets, node, ctx).ctx
  {
  }

  // ---------------------------------------------------------------------------
  // dataset.generate_goldens

  /** The error for a flow with no current dataset. */
  const NoDatasetMessage := "No dataset in context. Upload or load one first."

  /** What the handler settles before it calls the synthesizer. */
  datatype GoldensRequest = GoldensRequest(
    datasetId: Value,
    dataset: Dataset,
    filePath: Value,
    opts: SynthesisOptions,
    fileName: Value)

  /** The handler declines (an error result), raises, or calls the synthesizer. */
  datatype Requested = Declined(message: string) | Failed(message: string) | Accepted(request: GoldensRequest)

  /** `int(params.get(key, default))`, or the message of the exception it raises. */
  function IntParam(lib: Lib, params: map<string, Value>, key: string, default: int): Result<int, string> {
    var v := Get(params, key, VInt(default));
    match ToInt(lib, v)
    case Some(i) => Ok(i)
    case None => Err(lib.raised("int", v))
  }

  /** `float(params.get(key, default))`, or the message of the exception it raises. */
  function FloatParam(lib: Lib, params: map<string, Value>, key: string, default: real): Result<real, string> {
    var v := Get(params, key, VFloat(default));
    match ToFloat(lib, v)
    case Some(x) => Ok(x)
    case None => Err(lib.raised("float", v))
  }

  /**
   * The synthesizer settings read from the parameters, each numeric one
   * through `int()` or `float()` in turn; the first that cannot be read
   * raises. Expected outputs are always asked for.
   */
  function ReadOptions(lib: Lib, params: map<string, Value>): (r: Result<SynthesisOptions, string>)
    ensures r.Ok? ==>
      && r.value.includeExpectedOutput
      && r.value.maxGoldensPerContext.VInt? && r.value.maxContextsPerDocument.VInt?
      && IntParam(lib, params, "max_goldens_per_context", 1) == Ok(r.value.maxGoldensPerContext.i)
      && IntParam(lib, params, "max_contexts_per_document", 2) == Ok(r.value.maxContextsPerDocument.i)
      && r.value.criticModel == Get(params, "critic_model", VStr("gpt-4o-mini"))
      && r.value.synthesizerModel == Get(params, "synthesizer_model", VStr("gpt-4o-mini"))
    ensures IntParam(lib, params, "max_goldens_per_context", 1).Err? ==>
      r == Err(IntParam(lib, params, "max_goldens_per_context", 1).error)
  {
    match IntParam(lib, params, "max_goldens_per_context", 1)
    case Err(message) => Err(message)
    case Ok(maxGoldens) =>
    match IntParam(lib, params, "max_contexts_per_document", 2)
    case Err(message) => Err(message)
    case Ok(maxContexts) =>
    match IntParam(lib, params, "max_context_length", 2)
    case Err(message) => Err(message)
    case Ok(maxLength) =>
    match IntParam(lib, params, "chunk_size", 512)
    case Err(message) => Err(message)
    case Ok(chunkSize) =>
    match IntParam(lib, params, "chunk_overlap", 64)
    case Err(message) => Err(message)
    case Ok(chunkOverlap) =>
    match FloatParam(lib, params, "context_quality_threshold", 0.7)
    case Err(message) => Err(message)
    case Ok(quality) =>
    match FloatParam(lib, params, "context_similarity_threshold", 0.7)
    case Err(message) => Err(message)
    case Ok(similarity) =>
      Ok(DefaultOptions.(
        maxGoldensPerContext := VInt(maxGoldens),
        maxContextsPerDocument := VInt(maxContexts),
        maxContextLength := VInt(maxLength),
        chunkSize := VInt(chunkSize),
        chunkOverlap := VInt(chunkOverlap),
        contextQualityThreshold := VFloat(quality),
        contextSimilarityThreshold := VFloat(similarity),
        criticModel := Get(params, "critic_model", VStr("gpt-4o-mini")),
        synthesizerModel := Get(params, "synthesizer_model", VStr("gpt-4o-mini"))))
  }

  /**
   * The guards of `generate_goldens_action` and its reading of the
   * parameters. The dataset id comes from the context first and the
   * parameters second; a missing id, an unknown or empty dataset and a
   * dataset without a file path are refused, in that order, before any
   * parameter is read. A numeric parameter `int()` or `float()` cannot read
   * raises, outside the handler's `try`.
   */
  function RequestGoldens(lib: Lib, datasets: map<Value, Dataset>, params: map<string, Value>, ctx: Context)
    : (r: Requested)
    ensures var id := Or(Get(ctx, "dataset_id", VNone), Get(params, "dataset_id", VNone));
      !Truthy(id) ==> r == Declined(NoDatasetMessage)
    ensures var id := Or(Get(ctx, "dataset_id", VNone), Get(params, "dataset_id", VNone));
      Truthy(id) && Hashable(id) && (id !in datasets || datasets[id] == map[]) ==>
        r == Declined("Dataset " + Str(lib, id) + " not found")
    ensures var id := Or(Get(ctx, "dataset_id", VNone), Get(params, "dataset_id", VNone));
      Truthy(id) && Hashable(id) && id in datasets && datasets[id] != map[]
        && !Truthy(Get(datasets[id], "file_path", VNone)) ==>
        r == Declined("No file path found for dataset " + Str(lib, id))
    ensures r.Accepted? ==>
      && r.request.datasetId == Or(Get(ctx, "dataset_id", VNone), Get(params, "dataset_id", VNone))
      && Truthy(r.request.datasetId) && Hashable(r.request.datasetId)
      && r.request.datasetId in datasets && datasets[r.request.datasetId] == r.request.dataset
      && r.request.dataset != map[]
      && r.request.filePath == Get(r.request.dataset, "file_path", VNone) && Truthy(r.request.filePath)
      && ReadOptions(lib, params) == Ok(r.request.opts)
  {
    var id := Or(Get(ctx, "dataset_id", VNone), Get(params, "dataset_id", VNone));
    if !Truthy(id) then Declined(NoDatasetMessage)
    else match Lookup(lib, datasets, id)
      case Err(message) => Failed(message)
      case Ok(found) =>
        if found.None? || found.value == map[] then Declined("Dataset " + Str(lib, id) + " not found")
        else
          var dataset := found.value;
          var filePath := Get(dataset, "file_path", VNone);
          if !Truthy(filePath) then Declined("No file path found for dataset " + Str(lib, id))
          else
            match ReadOptions(lib, params)
            case Err(message) => Failed(message)
            case Ok(opts) =>
              Accepted(GoldensRequest(id, dataset, filePath, opts, Get(dataset, "file_name", VStr("uploaded document"))))
  }

  /** `getattr(golden, name, default)`. */
  function AttrOr(lib: Lib, golden: Value, name: string, default: Value): Value {
    match GetAttr(lib, golden, name)
    case Some(v) => v
    case None => default
  }

  /** `str(golden.name) if hasattr(golden, name) else ""`. */
  function AttrText(lib: Lib, golden: Value, name: string): string {
    match GetAttr(lib, golden, name)
    case Some(v) => Str(lib, v)
    case None => ""
  }

  /** The row `golden_dict` the handler builds for golden number `idx` (0-based). */
  function GoldenDict(lib: Lib, datasetId: Value, golden: Value, idx: nat): (row: map<string, Value>)
    ensures row.Keys == {"id", "input", "expected_output", "context"}
  {
    var defaultId := Str(lib, datasetId) + "-golden-" + NatToString(idx + 1);
    if golden.VDict? then
      map[
        "id" := Get(golden.entries, "id", VStr(defaultId)),
        "input" := Get(golden.entries, "input", VStr("")),
        "expected_output" := Get(golden.entries, "expected_output", VStr("")),
        "context" := Get(golden.entries, "context", VStr(""))]
    else
      var direct := AttrText(lib, golden, "input");
      var query := Str(lib, AttrOr(lib, golden, "query", VStr("")));
      var input := if direct != "" then direct else if query != "" then query
                   else Str(lib, AttrOr(lib, golden, "question", VStr("")));
      map[
        "id" := VStr(Str(lib, AttrOr(lib, golden, "id", VStr(defaultId)))),
        "input" := VStr(input),
        "expected_output" := VStr(AttrText(lib, golden, "expected_output")),
        "context" := VStr(AttrText(lib, golden, "context"))]
  }

  /** The prefix that marks a placeholder golden. */
  const PlaceholderPrefix := "Document from"

  /**
   * Whether a row is kept: its input must be truthy and must not start with
   * the placeholder prefix. A truthy input that is not a string has no
   * `startswith`, and the handler fails with that AttributeError.
   */
  function Kept(row: map<string, Value>): (r: Result<bool, string>)
    ensures r == Ok(true) <==> "input" in row && row["input"].VStr? && row["input"].s != ""
                                && !StartsWith(row["input"].s, PlaceholderPrefix)
  {
    var input := Get(row, "input", VNone);
    if !Truthy(input) then Ok(false)
    else if input.VStr? then Ok(!StartsWith(input.s, PlaceholderPrefix))
    else Err("'" + TypeName(input) + "' object has no attribute 'startswith'")
  }

  /** One turn of the conversion loop: keep the row, drop it, or fail. */
  function ConvertStep(sofar: Result<seq<map<string, Value>>, string>, row: map<string, Value>)
    : (r: Result<seq<map<string, Value>>, string>)
    ensures sofar.Err? ==> r == sofar
    ensures sofar.Ok? && Kept(row) == Ok(true) ==> r == Ok(sofar.value + [row])
    ensures sofar.Ok? && Kept(row) == Ok(false) ==> r == sofar
    ensures sofar.Ok? && Kept(row).Err? ==> r == Err(Kept(row).error)
  {
    match sofar
    case Err(_) => sofar
    case Ok(front) =>
      match Kept(row)
      case Err(message) => Err(message)
      case Ok(keep) => if keep then Ok(front + [row]) else sofar
  }

  /** The rows built for the goldens, each with its own index. */
  function GoldenRows(lib: Lib, datasetId: Value, goldens: seq<Value>): (rows: seq<map<string, Value>>)
    ensures |rows| == |goldens|
    ensures forall i :: 0 <= i < |goldens| ==> rows[i] == GoldenDict(lib, datasetId, goldens[i], i)
  {
    seq(|goldens|, i requires 0 <= i < |goldens| => GoldenDict(lib, datasetId, goldens[i], i))
  }

  /** The rows that pass the filter, in order, or the message of the first failure. */
  function Filtered(rows: seq<map<string, Value>>): (r: Result<seq<map<string, Value>>, string>)
    ensures r.Ok? ==> |r.value| <= |rows|
    ensures r.Ok? ==> forall row :: row in r.value ==> Kept(row) == Ok(true)
  {
    if rows == [] then Ok([])
    else ConvertStep(Filtered(rows[..|rows| - 1]), rows[|rows| - 1])
  }

  /**
   * The conversion loop as a whole: the rows of the goldens that are kept,
   * in their original order, or the message of the first failure.
   */
  function Converted(lib: Lib, datasetId: Value, goldens: seq<Value>): Result<seq<map<string, Value>>, string> {
    Filtered(GoldenRows(lib, datasetId, goldens))
  }

  /** The indices of the kept rows, in increasing order. */
  ghost function KeptIndices(rows: seq<map<string, Value>>): seq<nat> {
    if rows == [] then []
    else KeptIndices(rows[..|rows| - 1]) + (if Kept(rows[|rows| - 1]) == Ok(true) then [|rows| - 1] else [])
  }

  /** The kept rows are the rows at strictly increasing indices. */
  lemma {:induction false} FilteredInOrder(rows: seq<map<string, Value>>)
    requires Filtered(rows).Ok?
    ensures var idx := KeptIndices(rows);
      && |idx| == |Filtered(rows).value|
      && (forall k :: 0 <= k < |idx| ==> idx[k] < |rows|)
      && (forall k, l :: 0 <= k < l < |idx| ==> idx[k] < idx[l])
      && (forall k :: 0 <= k < |idx| ==> Filtered(rows).value[k] == rows[idx[k]])
  {
    if rows != [] {
      var prefix := rows[..|rows| - 1];
      FilteredInOrder(prefix);
    }
  }

  /**
   * The kept rows are, in order, the rows of the goldens at strictly
   * increasing original indices, each built with its original index (so a
   * default id names the golden's position among all goldens).
   */
  lemma ConvertedInOrder(lib: Lib, datasetId: Value, goldens: seq<Value>)
    requires Converted(lib, datasetId, goldens).Ok?
    ensures var rows := Converted(lib, datasetId, goldens).value;
      var idx := KeptIndices(GoldenRows(lib, datasetId, goldens));
      && |idx| == |rows|
      && (forall k :: 0 <= k < |idx| ==> idx[k] < |goldens|)
      && (forall k, l :: 0 <= k < l < |idx| ==> idx[k] < idx[l])
      && (forall k :: 0 <= k < |idx| ==> rows[k] == GoldenDict(lib, datasetId, goldens[idx[k]], idx[k]))
  {
    FilteredInOrder(GoldenRows(lib, datasetId, goldens));
  }

  /** A row is kept exactly when it passes the filter. */
  lemma {:induction false} FilteredMembers(rows: seq<map<string, Value>>, i: nat)
    requires Filtered(rows).Ok?
    requires i < |rows|
    ensures Kept(rows[i]) == Ok(true) <==> rows[i] in Filtered(rows).value
  {
    var n := |rows| - 1;
    var prefix := rows[..n];
    var front := Filtered(prefix).value;
    if Kept(rows[i]) == Ok(true) {
      if i < n {
        assert rows[i] == prefix[i];
        FilteredMembers(prefix, i);
        assert Filtered(rows).value == front || Filtered(rows).value == front + [rows[n]];
      }
    }
  }

  /** A golden is kept exactly when its row passes the filter. */
  lemma ConvertedMembers(lib: Lib, datasetId: Value, goldens: seq<Value>, i: nat)
    requires Converted(lib, datasetId, goldens).Ok?
    requires i < |goldens|
    ensures Kept(GoldenDict(lib, datasetId, goldens[i], i)) == Ok(true) <==>
      GoldenDict(lib, datasetId, goldens[i], i) in Converted(lib, datasetId, goldens).value
  {
    FilteredMembers(GoldenRows(lib, datasetId, goldens), i);
  }

  /** One more row: filtering goes on from the prefix before it. */
  lemma FilteredStep(rows: seq<map<string, Value>>, k: nat)
    requires k < |rows|
    ensures Filtered(rows[..k + 1]) == ConvertStep(Filtered(rows[..k]), rows[k])
  {
    assert rows[..k + 1][..k] == rows[..k];
  }

  /** Once a prefix of the rows fails, the whole filter fails with the same message. */
  lemma {:induction false} FilteredFailsFrom(rows: seq<map<string, Value>>, k: nat)
    requires k <= |rows|
    requires Filtered(rows[..k]).Err?
    ensures Filtered(rows) == Filtered(rows[..k])
    decreases |rows| - k
  {
    if k < |rows| {
      var n := |rows| - 1;
      assert rows[..n][..k] == rows[..k];
      if k < n {
        FilteredFailsFrom(rows[..n], k);
      } else {
        assert rows[..k] == rows[..n];
      }
    } else {
      assert rows[..k] == rows;
    }
  }

  /** The conversion loop, stopping at the first failure. */
  method ConvertGoldens(lib: Lib, datasetId: Value, goldens: seq<Value>) returns (r: Result<seq<map<string, Value>>, string>)
    ensures r == Converted(lib, datasetId, goldens)
  {
    ghost var all := GoldenRows(lib, datasetId, goldens);
    var rows := [];
    var idx := 0;
    while idx < |goldens|
      invariant 0 <= idx <= |goldens|
      invariant Filtered(all[..idx]) == Ok(rows)
    {
      FilteredStep(all, idx);
      var row := GoldenDict(lib, datasetId, goldens[idx], idx);
      var keep := Kept(row);
      if keep.Err? {
        FilteredFailsFrom(all, idx + 1);
        return Err(keep.error);
      }
      if keep.value {
        rows := rows + [row];
      }
      idx := idx + 1;
    }
    assert all[..idx] == all;
    r := Ok(rows);
  }

  /** The synthesizer's goldens, converted and filtered; or the message the `try` block catches. */
  function GeneratedRows(lib: Lib, synthesize: Synthesize, q: GoldensRequest): Result<seq<map<string, Value>>, string> {
    match Synthesized(lib, synthesize, q.filePath, q.opts)
    case Err(message) => Err(message)
    case Ok(goldens) => Converted(lib, q.datasetId, goldens)
  }

  /** `DATA_DIR / f"{dataset_id}_goldens.csv"`, as a string. */
  function CsvPath(lib: Lib, datasetId: Value, dataDir: string): string {
    dataDir + "/" + Str(lib, datasetId) + "_goldens.csv"
  }

  /** The output of a successful generation; the counts are the synthesizer's summary of all its goldens. */
  function GoldensOutput(lib: Lib, q: GoldensRequest, numDocuments: nat, goldens: seq<Value>): map<string, Value> {
    var total := |goldens|;
    var with := CountWithExpected(lib, goldens);
    map[
      "dataset_id" := q.datasetId,
      "generated" := VInt(total),
      "download_url" := VStr("/datasets/" + Str(lib, q.datasetId) + "/goldens.csv"),
      "file_name" := q.fileName,
      "summary" := VDict(map[
        "num_documents" := VInt(numDocuments),
        "total_goldens" := VInt(total),
        "with_expected_output" := VInt(with),
        "without_expected_output" := VInt(total - with)])]
  }

  /**
   * The flow context after a successful generation. The dataset put in the
   * context is the stored one, whose goldens the handler replaced in place.
   */
  function GoldensContext(lib: Lib, q: GoldensRequest, rows: seq<map<string, Value>>, dataDir: string, ctx: Context)
    : Context
  {
    ctx["dataset" := VDict(q.dataset["goldens" := VList(Rows(rows))])]["dataset_id" := q.datasetId]
       ["goldens_csv" := VStr(CsvPath(lib, q.datasetId, dataDir))]["goldens_data" := VList(Rows(rows))]
  }

  /**
   * The `try` block of `generate_goldens_action` for an accepted request: a
   * failure is an error result and leaves the store alone; on success the
   * stored dataset's goldens become the kept rows, and the context holds that
   * dataset, its id, the CSV path and the rows. Writing the CSV file is not
   * part of this model.
   */
  method GenerateAccepted(lib: Lib, synthesize: Synthesize, store: DatasetStore, q: GoldensRequest, ctx: Context,
                          dataDir: string)
    returns (outcome: HandlerOutcome)
    modifies store
    ensures match GeneratedRows(lib, synthesize, q)
      case Err(message) =>
        outcome == Returned(ErrorResult("Failed to generate goldens: " + message), ctx)
        && store.datasets == old(store.datasets)
      case Ok(rows) =>
        && store.datasets == old(store.datasets)[q.datasetId := q.dataset["goldens" := VList(Rows(rows))]]
        && outcome == Returned(
             SuccessResult(GoldensOutput(lib, q, |CoerceDocumentPaths(lib, q.filePath).value|,
                                         Synthesized(lib, synthesize, q.filePath, q.opts).value)),
             GoldensContext(lib, q, rows, dataDir, ctx))
  {
    var generated := GenerateGoldensFromDocuments(lib, synthesize, q.filePath, q.opts);
    if generated.Err? {
      return Returned(ErrorResult("Failed to generate goldens: " + generated.error), ctx);
    }
    var converted := ConvertGoldens(lib, q.datasetId, generated.value.goldens);
    if converted.Err? {
      return Returned(ErrorResult("Failed to generate goldens: " + converted.error), ctx);
    }
    var rows := converted.value;
    var summary := generated.value.summary;
    store.datasets := store.datasets[q.datasetId := q.dataset["goldens" := VList(Rows(rows))]];
    // the summary's counts are those of all the goldens the synthesizer produced
    outcome := Returned(SuccessResult(GoldensOutput(lib, q, summary.numDocuments, generated.value.goldens)),
                        GoldensContext(lib, q, rows, dataDir, ctx));
  }

  /**
   * `generate_goldens_action`. Refusals leave the store and the context
   * alone: a missing dataset or file path is an error result, a parameter
   * `int()` or `float()` cannot read raises. An accepted request goes on as
   * `GenerateAccepted` says.
   */
  method GenerateGoldens(lib: Lib, synthesize: Synthesize, store: DatasetStore, node: FlowNode, ctx: Context,
                         dataDir: string)
    returns (outcome: HandlerOutcome)
    modifies store
    ensures RequestGoldens(lib, old(store.datasets), node.data.params, ctx).Declined? ==>
      && outcome == Returned(ErrorResult(RequestGoldens(lib, old(store.datasets), node.data.params, ctx).message), ctx)
      && store.datasets == old(store.datasets)
    ensures RequestGoldens(lib, old(store.datasets), node.data.params, ctx).Failed? ==>
      && outcome == Raised(RequestGoldens(lib, old(store.datasets), node.data.params, ctx).message, ctx)
      && store.datasets == old(store.datasets)
    ensures RequestGoldens(lib, old(store.datasets), node.data.params, ctx).Accepted? ==>
      var q := RequestGoldens(lib, old(store.datasets), node.data.params, ctx).request;
      match GeneratedRows(lib, synthesize, q)
      case Err(message) =>
        outcome == Returned(ErrorResult("Failed to generate goldens: " + message), ctx)
        && store.datasets == old(store.datasets)
      case Ok(rows) =>
        && store.datasets == old(store.datasets)[q.datasetId := q.dataset["goldens" := VList(Rows(rows))]]
        && outcome == Returned(
             SuccessResult(GoldensOutput(lib, q, |CoerceDocumentPaths(lib, q.filePath).value|,
                                         Synthesized(lib, synthesize, q.filePath, q.opts).value)),
             GoldensContext(lib, q, rows, dataDir, ctx))
  {
    var requested := RequestGoldens(lib, store.datasets, node.data.params, ctx);
    match requested
    case Declined(message) =>
      return Returned(ErrorResult(message), ctx);
    case Failed(message) =>
      return Raised(message, ctx);
    case Accepted(q) =>
      outcome := GenerateAccepted(lib, synthesize, store, q, ctx, dataDir);
  }

  /**
   * The reported counts are consistent: `generated` is the summary's total,
   * which splits into goldens with and without an expected output, and no
   * more rows are kept than were generated.
   */
  lemma GoldensOutputCounts(lib: Lib, synthesize: Synthesize, q: GoldensRequest)
    requires GeneratedRows(lib, synthesize, q).Ok?
    ensures var goldens := Synthesized(lib, synthesize, q.filePath, q.opts).value;
      var out := GoldensOutput(lib, q, |CoerceDocumentPaths(lib, q.filePath).value|, goldens);
      && out["generated"] == VInt(|goldens|)
      && |GeneratedRows(lib, synthesize, q).value| <= |goldens|
      && out["summary"].entries["with_expected_output"].i + out["summary"].entries["without_expected_output"].i
         == out["summary"].entries["total_goldens"].i
      && out["summary"].entries["total_goldens"] == out["generated"]
  {
  }

  // ---------------------------------------------------------------------------
  // dataset.review_goldens

  /**
   * A `context` read back from CSV as a string: parsed as JSON, else as a
   * Python literal, else wrapped in a list (an empty string gives an empty
   * list); whatever is not a list then becomes a one-element list of its
   * `str()`. Only the errors of a malformed text are caught: any other
   * exception `ast.literal_eval` raises (a list as a dict key, say) escapes.
   */
  function NormalisedContext(lib: Lib, s: string): (r: Result<Value, string>)
    ensures r.Ok? ==> r.value.VList?
    ensures r.Err? <==> lib.jsonLoads(s).None? && lib.literalEval(s).Raises?
    ensures r.Err? ==> r.error == lib.literalEval(s).message
    ensures lib.jsonLoads(s).None? && lib.literalEval(s).Malformed? ==>
      r == Ok(if s == "" then VList([]) else VList([VStr(s)]))
    ensures lib.jsonLoads(s).Some? && lib.jsonLoads(s).value.VList? ==> r == Ok(lib.jsonLoads(s).value)
  {
    var parsed :=
      match lib.jsonLoads(s)
      case Some(j) => Ok(j)
      case None =>
        match lib.literalEval(s)
        case Literal(e) => Ok(e)
        case Malformed => Ok(if s != "" then VList([VStr(s)]) else VList([]))
        case Raises(message) => Err(message);
    match parsed
    case Err(message) => Err(message)
    case Ok(v) => Ok(if v.VList? then v else VList([VStr(Str(lib, v))]))
  }

  /** A record with its string `context` normalised; other records are left alone. */
  function NormalisedRecord(lib: Lib, record: map<string, Value>): (r: Result<map<string, Value>, string>)
    ensures r.Err? <==> "context" in record && record["context"].VStr? && NormalisedContext(lib, record["context"].s).Err?
    ensures r.Ok? ==> r.value.Keys == record.Keys
    ensures r.Ok? ==> forall k :: k in record && k != "context" ==> r.value[k] == record[k]
    ensures r.Ok? && "context" in r.value ==> !r.value["context"].VStr?
    ensures !("context" in record && record["context"].VStr?) ==> r == Ok(record)
  {
    if "context" in record && record["context"].VStr? then
      match NormalisedContext(lib, record["context"].s)
      case Err(message) => Err(message)
      case Ok(context) => Ok(record["context" := context])
    else Ok(record)
  }

  /**
   * Every record normalised, in order; the first record whose context
   * raises stops the loop with that exception.
   */
  function NormalisedRecords(lib: Lib, records: seq<map<string, Value>>): (r: Result<seq<map<string, Value>>, string>)
    ensures r.Ok? ==> |r.value| == |records|
  {
    if records == [] then Ok([])
    else match NormalisedRecord(lib, records[0])
      case Err(message) => Err(message)
      case Ok(first) =>
        match NormalisedRecords(lib, records[1..])
        case Err(message) => Err(message)
        case Ok(rest) => Ok([first] + rest)
  }

  /**
   * The normalisation succeeds exactly when every record does, and then
   * holds each normalised record at its place; otherwise it fails with the
   * error of some record all of whose predecessors succeed.
   */
  lemma {:induction false} NormalisedRecordsMeaning(lib: Lib, records: seq<map<string, Value>>)
    ensures var r := NormalisedRecords(lib, records);
      && (r.Ok? <==> forall i :: 0 <= i < |records| ==> NormalisedRecord(lib, records[i]).Ok?)
      && (r.Ok? ==> forall i :: 0 <= i < |records| ==> r.value[i] == NormalisedRecord(lib, records[i]).value)
      && (r.Err? ==>
            exists i :: (&& 0 <= i < |records|
                         && (forall j :: 0 <= j < i ==> NormalisedRecord(lib, records[j]).Ok?)
                         && NormalisedRecord(lib, records[i]) == Err(r.error)))
  {
    if records != [] {
      var tail := records[1..];
      NormalisedRecordsMeaning(lib, tail);
      assert forall j :: 1 <= j < |records| ==> records[j] == tail[j - 1];
      if NormalisedRecord(lib, records[0]).Ok? {
        var rest := NormalisedRecords(lib, tail);
        if rest.Err? {
          var k :| && 0 <= k < |tail|
                   && (forall j :: 0 <= j < k ==> NormalisedRecord(lib, tail[j]).Ok?)
                   && NormalisedRecord(lib, tail[k]) == Err(rest.error);
          assert forall j :: 0 <= j < k + 1 ==> NormalisedRecord(lib, records[j]).Ok?;
          assert NormalisedRecord(lib, records[k + 1]) == Err(NormalisedRecords(lib, records).error);
        }
      }
    }
  }

  /** The loop that rewrites each record's `context` in place. */
  method NormaliseContexts(lib: Lib, records: seq<map<string, Value>>) returns (out: Result<seq<map<string, Value>>, string>)
    ensures out == NormalisedRecords(lib, records)
  {
    var rows := records;
    var i := 0;
    while i < |rows|
      invariant 0 <= i <= |rows| == |records|
      invariant forall j :: 0 <= j < i ==> NormalisedRecord(lib, records[j]).Ok?
      invariant forall j :: 0 <= j < i ==> rows[j] == NormalisedRecord(lib, records[j]).value
      invariant forall j :: i <= j < |rows| ==> rows[j] == records[j]
    {
      var normalised := NormalisedRecord(lib, rows[i]);
      if normalised.Err? {
        FirstFailure(lib, records, i);
        return Err(normalised.error);
      }
      rows := rows[i := normalised.value];
      i := i + 1;
    }
    NormalisedRecordsMeaning(lib, records);
    assert rows == NormalisedRecords(lib, records).value;
    out := Ok(rows);
  }

  /** The normalisation fails with the error of the first record that raises. */
  lemma FirstFailure(lib: Lib, records: seq<map<string, Value>>, i: nat)
    requires i < |records|
    requires forall j :: 0 <= j < i ==> NormalisedRecord(lib, records[j]).Ok?
    requires NormalisedRecord(lib, records[i]).Err?
    ensures NormalisedRecords(lib, records) == Err(NormalisedRecord(lib, records[i]).error)
  {
    NormalisedRecordsMeaning(lib, records);
    var r := NormalisedRecords(lib, records);
    var k :| 0 <= k < |records| && (forall j :: 0 <= j < k ==> NormalisedRecord(lib, records[j]).Ok?)
      && NormalisedRecord(lib, records[k]) == Err(r.error);
    assert k == i;
  }

  /**
   * The goldens the review shows: those in the context when there are any,
   * else those read back from the context's CSV file (normalised), else the
   * empty value found in the context. Reading the file, or parsing a
   * record's context, may raise.
   */
  function ReviewData(lib: Lib, ctx: Context): (r: Result<Value, string>)
    ensures Truthy(Get(ctx, "goldens_data", VList([]))) ==> r == Ok(Get(ctx, "goldens_data", VList([])))
    ensures !Truthy(Get(ctx, "goldens_data", VList([]))) && Truthy(Get(ctx, "goldens_csv", VNone)) && r.Ok? ==>
      && lib.readCsv(Get(ctx, "goldens_csv", VNone)).Ok?
      && r.value.VList?
      && |r.value.items| == |lib.readCsv(Get(ctx, "goldens_csv", VNone)).value|
      && forall i :: 0 <= i < |r.value.items| ==>
           r.value.items[i].VDict? && ("context" in r.value.items[i].entries ==> !r.value.items[i].entries["context"].VStr?)
    ensures r.Err? <==>
      && !Truthy(Get(ctx, "goldens_data", VList([])))
      && Truthy(Get(ctx, "goldens_csv", VNone))
      && (lib.readCsv(Get(ctx, "goldens_csv", VNone)).Err?
          || NormalisedRecords(lib, lib.readCsv(Get(ctx, "goldens_csv", VNone)).value).Err?)
  {
    var data := Get(ctx, "goldens_data", VList([]));
    if Truthy(data) then Ok(data)
    else
      var csv := Get(ctx, "goldens_csv", VNone);
      if !Truthy(csv) then Ok(data)
      else match lib.readCsv(csv)
        case Err(message) => Err(message)
        case Ok(records) =>
          NormalisedRecordsMeaning(lib, records);
          match NormalisedRecords(lib, records)
          case Err(message) => Err(message)
          case Ok(rows) => Ok(VList(Rows(rows)))
  }

  /** The meta that asks the front end to open the review page, pausing the run. */
  const ReviewMeta: map<string, Value> :=
    map["requires_user_action" := VBool(true), "action_type" := VStr("navigate_to_review")]

  /** The pending result of a review of `n` goldens. */
  function ReviewResult(lib: Lib, id: Value, sessionId: string, data: Value, n: nat): (r: NodeExecutionResult)
    ensures r.status == "pending" && RequiresUserAction(r)
    ensures r.output.Some?
    ensures && "session_id" in r.output.value && r.output.value["session_id"] == VStr(sessionId)
            && "dataset_id" in r.output.value && r.output.value["dataset_id"] == id
            && "goldens" in r.output.value && r.output.value["goldens"] == data
            && "goldens_count" in r.output.value && r.output.value["goldens_count"] == VInt(n)
  {
    NodeExecutionResult(
      "pending",
      Some(map[
        "action_type" := VStr("navigate_to_review"),
        "dataset_id" := id,
        "session_id" := VStr(sessionId),
        "goldens" := data,
        "goldens_count" := VInt(n),
        "review_url" := VStr("/datasets/" + Str(lib, id) + "/review-goldens?session=" + sessionId
                             + "&returnTo=/flow-builder"),
        "message" := VStr("Review " + NatToString(n) + " golden(s) before continuing")]),
      None,
      ReviewMeta)
  }

  /** The context with the review session, dataset id and goldens stored for the front end. */
  function ReviewContext(ctx: Context, sessionId: string, id: Value, data: Value): (c: Context)
    ensures c.Keys == ctx.Keys + {"review_session_id", "review_dataset_id", "review_goldens"}
    ensures forall k :: k in ctx && k !in {"review_session_id", "review_dataset_id", "review_goldens"} ==> c[k] == ctx[k]
    ensures c["review_session_id"] == VStr(sessionId) && c["review_dataset_id"] == id && c["review_goldens"] == data
  {
    ctx["review_session_id" := VStr(sessionId)]["review_dataset_id" := id]["review_goldens" := data]
  }

  /**
   * What `review_goldens_action` does, given the session id it makes up. The
   * only error result is a missing dataset id; an exception leaves the
   * context alone; otherwise the run pauses on a pending result whose
   * session, goldens and count are the ones the context now holds for the
   * front end, every other context entry staying as it was.
   */
  function ReviewOutcome(lib: Lib, node: FlowNode, ctx: Context, sessionId: string): (outcome: HandlerOutcome)
    ensures outcome.Raised? ==> outcome.ctx == ctx
    ensures outcome.Returned? && outcome.result.status == "error" ==>
      && !Truthy(Or(Get(node.data.params, "dataset_id", VNone), Get(ctx, "dataset_id", VNone)))
      && outcome == Returned(ErrorResult("No dataset_id provided"), ctx)
    ensures outcome.Returned? && outcome.result.status != "error" ==>
      && outcome.result.status == "pending"
      && RequiresUserAction(outcome.result)
      && outcome.result.output.Some?
      && (forall k :: k in ctx && k !in {"review_session_id", "review_dataset_id", "review_goldens"} ==>
            k in outcome.ctx && outcome.ctx[k] == ctx[k])
      && "review_session_id" in outcome.ctx && "review_goldens" in outcome.ctx && "review_dataset_id" in outcome.ctx
      && var output := outcome.result.output.value;
      && "session_id" in output && "goldens" in output && "goldens_count" in output && "dataset_id" in output
      && output["session_id"] == outcome.ctx["review_session_id"] == VStr(sessionId)
      && output["dataset_id"] == outcome.ctx["review_dataset_id"]
      && Truthy(output["dataset_id"])
      && output["goldens"] == outcome.ctx["review_goldens"]
      && output["goldens_count"].VInt?
      && Len(output["goldens"]) == Some(output["goldens_count"].i)
  {
    var id := Or(Get(node.data.params, "dataset_id", VNone), Get(ctx, "dataset_id", VNone));
    if !Truthy(id) then Returned(ErrorResult("No dataset_id provided"), ctx)
    else match ReviewData(lib, ctx)
      case Err(message) => Raised(message, ctx)
      case Ok(data) =>
        match Len(data)
        case None => Raised(lib.raised("len", data), ctx)
        case Some(n) =>
          Returned(ReviewResult(lib, id, sessionId, data, n), ReviewContext(ctx, sessionId, id, data))
  }

  /**
   * `review_goldens_action`. The dataset id comes from the parameters first
   * and the context second; without one it is an error. `sessionId` stands
   * for the id built from the clock and random characters. Otherwise the
   * goldens to review and the session are put in the context and the
   * result is pending with `requires_user_action` set, which pauses the run.
   */
  method ReviewGoldens(lib: Lib, node: FlowNode, ctx: Context, sessionId: string) returns (outcome: HandlerOutcome)
    ensures outcome == ReviewOutcome(lib, node, ctx, sessionId)
    ensures var id := Or(Get(node.data.params, "dataset_id", VNone), Get(ctx, "dataset_id", VNone));
      !Truthy(id) ==> outcome == Returned(ErrorResult("No dataset_id provided"), ctx)
    ensures var id := Or(Get(node.data.params, "dataset_id", VNone), Get(ctx, "dataset_id", VNone));
      Truthy(id) ==>
        match ReviewData(lib, ctx)
        case Err(message) => outcome == Raised(message, ctx)
        case Ok(data) =>
          match Len(data)
          case None => outcome == Raised(lib.raised("len", data), ctx)
          case Some(n) =>
            outcome == Returned(
              ReviewResult(lib, id, sessionId, data, n),
              ReviewContext(ctx, sessionId, id, data))
    ensures outcome.Returned? && outcome.result.status != "error" ==>
      outcome.result.status == "pending" && RequiresUserAction(outcome.result)
  {
    var id := Or(Get(node.data.params, "dataset_id", VNone), Get(ctx, "dataset_id", VNone));
    if !Truthy(id) {
      return Returned(ErrorResult("No dataset_id provided"), ctx);
    }
    var data := Get(ctx, "goldens_data", VList([]));
    if !Truthy(data) {
      var csv := Get(ctx, "goldens_csv", VNone);
      if Truthy(csv) {
        var read := lib.readCsv(csv);
        if read.Err? {
          return Raised(read.error, ctx);
        }
        var records := NormaliseContexts(lib, read.value);
        if records.Err? {
          return Raised(records.error, ctx);
        }
        data := VList(Rows(records.value));
      }
    }
    var count := Len(data);
    if count.None? {
      return Raised(lib.raised("len", data), ctx);
    }
    var newCtx := ReviewContext(ctx, sessionId, id, data);
    outcome := Returned(ReviewResult(lib, id, sessionId, data, count.value), newCtx);
  }

  // ---------------------------------------------------------------------------
  // dataset.export_goldens

  /**
   * The goldens to export: the reviewed goldens when there are any, else the
   * generated ones, else those read back from the context's CSV file; a
   * file that cannot be read is passed over.
   */
  function ExportData(lib: Lib, ctx: Context): (r: Value)
    ensures Truthy(Get(ctx, "reviewed_goldens", VNone)) ==> r == Get(ctx, "reviewed_goldens", VNone)
    ensures !Truthy(Get(ctx, "reviewed_goldens", VNone)) && Truthy(Get(ctx, "goldens_data", VList([]))) ==>
      r == Get(ctx, "goldens_data", VList([]))
  {
    var reviewed := Or(Get(ctx, "reviewed_goldens", VNone), Get(ctx, "goldens_data", VList([])));
    if Truthy(reviewed) then reviewed
    else
      var csv := Get(ctx, "goldens_csv", VNone);
      if !Truthy(csv) then reviewed
      else match lib.readCsv(csv)
        case Err(_) => reviewed
        case Ok(records) => VList(Rows(records))
  }

  /** The error when there is nothing to export. */
  const NothingToExportMessage := "No goldens found to export. Please generate or review goldens first."

  /**
   * `export_goldens_action`: without a dataset id, or without goldens, it is
   * an error that leaves the context alone; otherwise the goldens are put in
   * the context as `exported_goldens` and counted.
   */
  function ExportGoldens(lib: Lib, node: FlowNode, ctx: Context): (r: HandlerOutcome)
    ensures var id := Or(Get(node.data.params, "dataset_id", VNone), Get(ctx, "dataset_id", VNone));
      !Truthy(id) ==> r == Returned(ErrorResult("No dataset_id provided"), ctx)
    ensures var id := Or(Get(node.data.params, "dataset_id", VNone), Get(ctx, "dataset_id", VNone));
      Truthy(id) && !Truthy(ExportData(lib, ctx)) ==> r == Returned(ErrorResult(NothingToExportMessage), ctx)
    ensures r.Returned? && r.result.status == "error" ==> r.ctx == ctx
    ensures r.Returned? && r.result.status == "success" ==>
      && r.ctx == ctx["exported_goldens" := ExportData(lib, ctx)]
      && Len(ExportData(lib, ctx)).Some?
      && r.result.output.Some?
      && "goldens_count" in r.result.output.value && "download_url" in r.result.output.value
      && r.result.output.value["goldens_count"] == VInt(Len(ExportData(lib, ctx)).value)
      && r.result.output.value["download_url"]
         == VStr("/datasets/" + Str(lib, Or(Get(node.data.params, "dataset_id", VNone), Get(ctx, "dataset_id", VNone)))
                 + "/export/goldens.json")
    ensures var id := Or(Get(node.data.params, "dataset_id", VNone), Get(ctx, "dataset_id", VNone));
      r.Raised? <==> Truthy(id) && Truthy(ExportData(lib, ctx)) && Len(ExportData(lib, ctx)).None?
  {
    var id := Or(Get(node.data.params, "dataset_id", VNone), Get(ctx, "dataset_id", VNone));
    if !Truthy(id) then Returned(ErrorResult("No dataset_id provided"), ctx)
    else
      var reviewed := ExportData(lib, ctx);
      if !Truthy(reviewed) then Returned(ErrorResult(NothingToExportMessage), ctx)
      else match Len(reviewed)
        case None => Raised(lib.raised("len", reviewed), ctx)
        case Some(n) =>
          Returned(
            SuccessResult(map[
              "dataset_id" := id,
              "goldens_count" := VInt(n),
              "download_url" := VStr("/datasets/" + Str(lib, id) + "/export/goldens.json"),
              "message" := VStr("Successfully exported " + NatToString(n) + " golden(s)"),
              "format" := VStr("JSON"),
              "ready_for_deepeval" := VBool(true)]),
            ctx["exported_goldens" := reviewed])
  }
}
