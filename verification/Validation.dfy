/** What a dataset path and a base model must satisfy before a job runs. */
module Validation {
  import opened Wrappers
  import opened Store
  import opened Paths

  const SUPPORTED: set<string> := {"csv", "json", "parquet"}

  /** The declared format of a dataset key; None for a prefix dataset. */
  function DetectFormat(path: string): Option<string> {
    if Extension(path) == [] then None else Some(Extension(path))
  }

  function ValidateFormat(path: string): (r: Result<Option<string>, Reason>)
    ensures r.Ok? <==> Suffix(path) == [] || Extension(path) == "csv" || Extension(path) == "json" || Extension(path) == "parquet"
    ensures r.Ok? ==> r.value == if Suffix(path) == [] then None else Some(Extension(path))
    ensures r.Err? ==> r.error == UnsupportedFormat(Extension(path), path)
  {
    match DetectFormat(path)
    case None => Ok(None)
    case Some(fmt) => if fmt in SUPPORTED then Ok(Some(fmt)) else Err(UnsupportedFormat(fmt, path))
  }

  // ------------------------------------------------------ allow-list

  datatype Model = Model(
    repo: string,
    revision: string,
    paramCount: Option<int>,
    vramHint: Option<string>,
    ready: bool,
    isDefault: bool)

  /** The ready row of the repo, the default one if that is ready. */
  function ModelMeta(models: seq<Model>, repo: string): (r: Option<Model>)
    ensures r.Some? ==> r.value in models && r.value.repo == repo && r.value.ready
    ensures r.None? ==> forall m :: m in models && m.repo == repo ==> !m.ready
    ensures r.Some? && !r.value.isDefault ==> forall m :: m in models && m.repo == repo && m.ready ==> !m.isDefault
  {
    if models == [] then None
    else
      var m := models[0];
      var rest := ModelMeta(models[1..], repo);
      if m.repo == repo && m.ready && (m.isDefault || rest.None? || !rest.value.isDefault) then Some(m) else rest
  }

  const TIGHT_MAX_PARAMS := 15_000_000_000

  function CheckModelFits(paramCount: Option<int>, vramHint: Option<string>): (r: Option<Reason>)
    ensures r.None? <==> (vramHint != Some("unsupported") && (paramCount.Some? ==> paramCount.value <= 15_000_000_000))
    ensures r == Some(FlaggedUnsupported) <==> vramHint == Some("unsupported")
    ensures r.Some? && vramHint != Some("unsupported") ==> r.value == TooManyParameters(paramCount.value)
  {
    if vramHint == Some("unsupported") then Some(FlaggedUnsupported)
    else if paramCount.Some? && paramCount.value > TIGHT_MAX_PARAMS then Some(TooManyParameters(paramCount.value))
    else None
  }

  /** Why the preflight checks refuse a job, if they do. */
  function Refusal(models: seq<Model>, row: Row): Option<Reason> {
    match ValidateFormat(row.datasetPath)
    case Err(why) => Some(why)
    case Ok(_) =>
      match ModelMeta(models, row.baseModel)
      case None => Some(NotInAllowList(row.baseModel))
      case Some(m) => CheckModelFits(m.paramCount, m.vramHint)
  }

  /** The job would be let through to the executor. */
  predicate Accepts(models: seq<Model>, row: Row) {
    Refusal(models, row).None?
  }

  /** What that takes: a known format or none, a model on the allow-list, and a
      model that is not known to be too large. */
  lemma AcceptsExactly(models: seq<Model>, row: Row)
    ensures Accepts(models, row) <==>
              && (Suffix(row.datasetPath) == [] || Extension(row.datasetPath) in SUPPORTED)
              && var m := ModelMeta(models, row.baseModel);
                 && m.Some?
                 && m.value.vramHint != Some("unsupported")
                 && (m.value.paramCount.Some? ==> m.value.paramCount.value <= TIGHT_MAX_PARAMS)
  {
    var format := ValidateFormat(row.datasetPath);
    var m := ModelMeta(models, row.baseModel);
    if format.Ok? && m.Some? {
      assert Refusal(models, row) == CheckModelFits(m.value.paramCount, m.value.vramHint);
    }
  }

  /** The recorded refusal: the format first, then the allow-list, then the size. */
  lemma RefusalExactly(models: seq<Model>, row: Row)
    ensures Refusal(models, row) ==
            if Suffix(row.datasetPath) != [] && Extension(row.datasetPath) !in SUPPORTED
            then Some(UnsupportedFormat(Extension(row.datasetPath), row.datasetPath))
            else if forall m :: m in models && m.repo == row.baseModel ==> !m.ready then Some(NotInAllowList(row.baseModel))
            else CheckModelFits(ModelMeta(models, row.baseModel).value.paramCount, ModelMeta(models, row.baseModel).value.vramHint)
  {
    var m := ModelMeta(models, row.baseModel);
    if m.Some? { assert m.value in models && m.value.repo == row.baseModel && m.value.ready; }
  }

  // ------------------------------------------------------ loading

  /** The loader's format for each file extension; jsonl is read as json. */
  function LoaderFormat(extension: string): Option<string> {
    if extension == "csv" then Some("csv")
    else if extension == "json" || extension == "jsonl" then Some("json")
    else if extension == "parquet" then Some("parquet")
    else None
  }

  /** Every format a job is accepted with has its loader, and jsonl is one more spelling of json. */
  lemma LoaderFormatExactly(extension: string)
    ensures LoaderFormat(extension).Some? <==> extension in SUPPORTED || extension == "jsonl"
    ensures LoaderFormat(extension).Some? ==> LoaderFormat(extension).value == if extension == "jsonl" then "json" else extension
  {}

  function FileFormat(path: string): Option<string> {
    LoaderFormat(Extension(path))
  }

  ghost predicate AllLoadAs(files: seq<string>, format: string) {
    forall p :: p in files ==> FileFormat(p) == Some(format)
  }

  datatype LoadError = NoFiles | UnknownExtension | MixedFormats

  /** dataset_load_spec: the one format that loads every file, or an error. */
  function LoadSpec(files: seq<string>): (r: Result<string, LoadError>)
    ensures r.Ok? ==> files != [] && AllLoadAs(files, r.value)
    ensures r.Err? && files != [] ==> forall format :: !AllLoadAs(files, format)
    ensures r == Err(NoFiles) <==> files == []
    ensures r == Err(UnknownExtension) <==> exists p :: p in files && FileFormat(p).None?
  {
    if files == [] then Err(NoFiles)
    else if exists p :: p in files && FileFormat(p).None? then Err(UnknownExtension)
    else
      var format := FileFormat(files[0]).value;
      if exists p :: p in files && FileFormat(p) != Some(format) then Err(MixedFormats) else Ok(format)
  }
}
