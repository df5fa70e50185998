/**
 * `DATASETS`, the in-memory registry of datasets the action handlers read
 * and write. Each dataset is a dict of fields (`file_name`, `file_path`,
 * `goldens`, ...). The upload endpoint that fills it is not part of this
 * model.
 */
module Datasets {
  import opened Values

  type Dataset = map<string, Value>

  /** A golden row of the demo dataset, with an empty context. */
  function DemoGolden(id: string, input: string, expected: string): Value {
    VDict(map["id" := VStr(id), "input" := VStr(input), "expected_output" := VStr(expected), "context" := VList([])])
  }

  /** The dataset the registry starts with. */
  const DemoDataset: Dataset := map[
    "id" := VStr("demo-dataset"),
    "file_name" := VStr("demo.csv"),
    "goldens" := VList([
      DemoGolden("demo-1", "What is the capital of France?", "Paris"),
      DemoGolden("demo-2", "Name a primary color", "Blue")])]

  class DatasetStore {
    var datasets: map<Value, Dataset>

    /** The registry as the server starts: the demo dataset alone. */
    constructor ()
      ensures datasets == map[VStr("demo-dataset") := DemoDataset]
    {
      datasets := map[VStr("demo-dataset") := DemoDataset];
    }
  }

  /**
   * `id in DATASETS` / `DATASETS.get(id)`: the dataset stored under `id`, if
   * any; hashing an id that is a list or a dict raises TypeError.
   */
  function Lookup(lib: Lib, datasets: map<Value, Dataset>, id: Value): Result<Option<Dataset>, string> {
    if !Hashable(id) then Err(lib.raised("hash", id))
    else if id in datasets then Ok(Some(datasets[id]))
    else Ok(None)
  }
}
