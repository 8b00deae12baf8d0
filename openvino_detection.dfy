/** Decisions of the OpenVINO detection task: which inferencer is built for a
    task type and the tiling settings, which labels a saliency map is
    explained against, which entries go into the deployment archive, and the
    guards and output of POT quantisation.

    The inference engines, the quantisation pipeline and the archive writer
    stay abstract: model files are opaque bytes, and what those components
    produce (the quantised IR, whether an IR already holds FakeQuantize
    nodes) is passed in. */
module OpenVinoDetection {
  import opened Results

  type Bytes = seq<bv8>

  /** The bytes of one `np.float32`. */
  type Float32Bytes = b: Bytes | |b| == 4 witness [0, 0, 0, 0]

  datatype TaskType = Detection | InstanceSegmentation | RotatedDetection | OtherTask(name: string)

  // Keys under which a model entity stores its files.
  const ThresholdFile := "confidence_threshold"
  const XmlFile := "openvino.xml"
  const BinFile := "openvino.bin"
  const TileXmlFile := "tile_classifier.xml"
  const TileBinFile := "tile_classifier.bin"
  const LabelSchemaFile := "label_schema.json"
  const ConfigFile := "config.json"

  datatype ModelFormat = OpenVinoFormat | OtherFormat(name: string)
  datatype OptimizationKind = NotOptimized | Pot | OtherOptimization(name: string)
  datatype OptimizationMethod = Quantization | OtherMethod(name: string)
  datatype Precision = Int8 | OtherPrecision(name: string)

  /** A model entity: its stored files and the attributes optimisation sets. */
  datatype ModelEntity = ModelEntity(
    data: map<string, Bytes>,
    format: ModelFormat,
    optimization: OptimizationKind,
    methods: seq<OptimizationMethod>,
    precision: seq<Precision>)

  /** `model.get_data(key)`: a file that was never stored is a KeyError. */
  function GetData(model: ModelEntity, key: string): Result<Bytes>
  {
    if key in model.data then Ok(model.data[key]) else Err(KeyError(key))
  }

  /** `model.get_data(key)` when `fetch` holds, `None` otherwise. */
  function FetchIf(model: ModelEntity, key: string, fetch: bool): Result<Option<Bytes>>
  {
    if !fetch then Ok(None)
    else
      var b :- GetData(model, key);
      Ok(Some(b))
  }

  /** The tiling hyper-parameters the task reads (the float overlap is not modelled). */
  datatype TilingParameters = TilingParameters(
    enableTiling: bool,
    enableTileClassifier: bool,
    tileSize: int,
    tileMaxNumber: int)

  /** What the task knows when it builds an inferencer, deploys or optimises. */
  datatype TaskState = TaskState(model: Option<ModelEntity>, taskType: TaskType, tiling: TilingParameters)

  /** Whether the tile classifier files take part in loading and deployment. */
  predicate UsesTileClassifier(tiling: TilingParameters)
  {
    tiling.enableTiling && tiling.enableTileClassifier
  }

  // ---------------------------------------------------------------------
  // Inferencers
  // ---------------------------------------------------------------------

  /** The annotation converter decides what kind of inferencer it is. */
  datatype Converter = DetectionConverter | MaskConverter | RotatedRectConverter

  /** The model-API architecture the inferencer creates over its IR files. */
  datatype Architecture = OtxSsd | OtxMaskRcnn

  datatype ModelFiles = ModelFiles(xml: Bytes, bin: Bytes)

  datatype Classifier = Classifier(xml: Option<Bytes>, bin: Option<Bytes>)

  datatype Tiler = Tiler(
    tileSize: int,
    maxNumber: int,
    classifier: Option<Classifier>,
    mode: string,
    segm: bool)

  datatype Inferencer =
    | BaseInferencer(converter: Converter, architecture: Architecture, files: ModelFiles)
    | TileWrapper(converter: Converter, architecture: Architecture, files: ModelFiles, tiler: Tiler)

  const AsyncMode := "async"
  const SyncMode := "sync"

  /** The base inferencer for a task type: detection, mask or rotated-rectangle. */
  function BaseInferencerFor(taskType: TaskType, files: ModelFiles): (r: Option<Inferencer>)
    ensures r.Some? <==> !taskType.OtherTask?
    ensures r.Some? ==> r.value.BaseInferencer? && r.value.files == files
    ensures r.Some? ==> (r.value.converter == DetectionConverter <==> taskType == Detection)
    ensures r.Some? ==> (r.value.converter == MaskConverter <==> taskType == InstanceSegmentation)
    ensures r.Some? ==> (r.value.converter == RotatedRectConverter <==> taskType == RotatedDetection)
  {
    match taskType
    case Detection => Some(BaseInferencer(DetectionConverter, OtxSsd, files))
    case InstanceSegmentation => Some(BaseInferencer(MaskConverter, OtxMaskRcnn, files))
    case RotatedDetection => Some(BaseInferencer(RotatedRectConverter, OtxMaskRcnn, files))
    case OtherTask(_) => None
  }

  /** Wrapping an inferencer for tiled inference. The wrapper keeps the
      inner inferencer's converter and model, builds a tile classifier when
      either classifier file is given, and tiles segmentation masks exactly
      when the converter produces masks or rotated rectangles. */
  function TileClassifierWrapper(
    inferencer: Inferencer, tileSize: int, maxNumber: int,
    classifierXml: Option<Bytes>, classifierBin: Option<Bytes>, mode: string): (r: Result<Inferencer>)
    ensures r.Err? <==> mode != AsyncMode && mode != SyncMode
    ensures r.Err? ==> r.error.AssertionError?
    ensures r.Ok? ==> r.value.TileWrapper? && r.value.tiler.mode == mode
    ensures r.Ok? ==> r.value.converter == inferencer.converter && r.value.architecture == inferencer.architecture
                      && r.value.files == inferencer.files
    ensures r.Ok? ==> (r.value.tiler.classifier.Some? <==> classifierXml.Some? || classifierBin.Some?)
    ensures r.Ok? && r.value.tiler.classifier.Some? ==> r.value.tiler.classifier.value == Classifier(classifierXml, classifierBin)
    ensures r.Ok? ==> (r.value.tiler.segm <==> inferencer.converter != DetectionConverter)
  {
    if mode != AsyncMode && mode != SyncMode then Err(AssertionError("mode should be async or sync"))
    else
      var classifier := if classifierXml.Some? || classifierBin.Some? then Some(Classifier(classifierXml, classifierBin)) else None;
      var segm := inferencer.converter == MaskConverter || inferencer.converter == RotatedRectConverter;
      Ok(TileWrapper(inferencer.converter, inferencer.architecture, inferencer.files,
                     Tiler(tileSize, maxNumber, classifier, mode, segm)))
  }

  /** The checks every load makes before the task type is looked at: a model
      is present and holds the threshold and the IR files. */
  function LoadModelFiles(task: TaskState): Result<ModelFiles>
  {
    if task.model.None? then Err(RuntimeError("load_inferencer failed, model is None"))
    else
      var model := task.model.value;
      var threshold :- GetData(model, ThresholdFile);
      var _ :- DecodeThreshold(threshold);
      var xml :- GetData(model, XmlFile);
      var bin :- GetData(model, BinFile);
      Ok(ModelFiles(xml, bin))
  }

  /** `np.frombuffer(b, dtype=np.float32)[0]`: the buffer must hold whole
      four-byte floats, and at least one. The float's value is not modelled;
      the result is its four bytes. */
  function DecodeThreshold(b: Bytes): (r: Result<Bytes>)
    ensures r.Ok? <==> ThresholdDecodes(b)
    ensures r.Ok? ==> r.value == b[..4]
    ensures |b| % 4 != 0 ==> r.Err? && r.error.ValueError?
    ensures |b| == 0 ==> r.Err? && r.error.IndexError?
  {
    if |b| % 4 != 0 then Err(ValueError("buffer size must be a multiple of element size"))
    else if |b| == 0 then Err(IndexError("index 0 is out of bounds for axis 0 with size 0"))
    else Ok(b[..4])
  }

  predicate ThresholdDecodes(b: Bytes)
  {
    |b| % 4 == 0 && |b| >= 4
  }

  /** Wraps `base` for tiling, fetching the tile classifier files only when the classifier is enabled. */
  function WrapForTiling(model: ModelEntity, tiling: TilingParameters, base: Inferencer): Result<Inferencer>
  {
    var classifierXml :- FetchIf(model, TileXmlFile, tiling.enableTileClassifier);
    var classifierBin :- FetchIf(model, TileBinFile, tiling.enableTileClassifier);
    TileClassifierWrapper(base, tiling.tileSize, tiling.tileMaxNumber, classifierXml, classifierBin, AsyncMode)
  }

  /** `load_inferencer` as written: for a task type outside the three the
      local `inferencer` is never bound, so the wrapper call (with tiling) or
      the final type check (without) reads an unbound local before the
      intended RuntimeError can be raised. */
  function LoadInferencerAsWritten(task: TaskState): Result<Inferencer>
  {
    var files :- LoadModelFiles(task);
    var base := BaseInferencerFor(task.taskType, files);
    if task.tiling.enableTiling then
      var classifierXml :- FetchIf(task.model.value, TileXmlFile, task.tiling.enableTileClassifier);
      var classifierBin :- FetchIf(task.model.value, TileBinFile, task.tiling.enableTileClassifier);
      if base.None? then Err(UnboundLocalError("inferencer"))
      else TileClassifierWrapper(base.value, task.tiling.tileSize, task.tiling.tileMaxNumber, classifierXml, classifierBin, AsyncMode)
    else if base.None? then Err(UnboundLocalError("inferencer"))
    else Ok(base.value)
  }

  /** `load_inferencer` with the unknown-task-type error raised as intended. */
  function LoadInferencer(task: TaskState): Result<Inferencer>
  {
    var files :- LoadModelFiles(task);
    match BaseInferencerFor(task.taskType, files)
    case None => Err(RuntimeError("Unknown OpenVINO Inferencer TaskType"))
    case Some(base) =>
      if task.tiling.enableTiling then WrapForTiling(task.model.value, task.tiling, base) else Ok(base)
  }

  /** Everything a successful load needs from the task. */
  predicate Loadable(task: TaskState)
  {
    && task.model.Some?
    && ThresholdFile in task.model.value.data
    && ThresholdDecodes(task.model.value.data[ThresholdFile])
    && XmlFile in task.model.value.data
    && BinFile in task.model.value.data
    && !task.taskType.OtherTask?
    && (UsesTileClassifier(task.tiling) ==> TileXmlFile in task.model.value.data && TileBinFile in task.model.value.data)
  }

  lemma LoadModelFilesSpec(task: TaskState)
    ensures LoadModelFiles(task).Ok? <==>
      && task.model.Some? && ThresholdFile in task.model.value.data
      && ThresholdDecodes(task.model.value.data[ThresholdFile])
      && XmlFile in task.model.value.data && BinFile in task.model.value.data
    ensures LoadModelFiles(task).Ok? ==>
      LoadModelFiles(task).value == ModelFiles(task.model.value.data[XmlFile], task.model.value.data[BinFile])
    ensures task.model.None? ==> LoadModelFiles(task).Err? && LoadModelFiles(task).error.RuntimeError?
  {
  }

  /** A load succeeds exactly on loadable tasks, and without a model it is a RuntimeError. */
  lemma LoadInferencerOkIff(task: TaskState)
    ensures LoadInferencer(task).Ok? <==> Loadable(task)
    ensures task.model.None? ==> LoadInferencer(task) == Err(RuntimeError("load_inferencer failed, model is None"))
  {
    LoadModelFilesSpec(task);
  }

  /** What a successful load builds: the base inferencer for the task type
      over the model's IR files, wrapped for tiling exactly when tiling is
      enabled, with a tile classifier over the stored classifier files
      exactly when the tile classifier is enabled too. */
  lemma LoadInferencerBuilds(task: TaskState)
    requires Loadable(task)
    ensures var r := LoadInferencer(task);
      && r.Ok?
      && r.value.files == ModelFiles(task.model.value.data[XmlFile], task.model.value.data[BinFile])
      && (r.value.converter == DetectionConverter <==> task.taskType == Detection)
      && (r.value.converter == MaskConverter <==> task.taskType == InstanceSegmentation)
      && (r.value.converter == RotatedRectConverter <==> task.taskType == RotatedDetection)
      && (r.value.TileWrapper? <==> task.tiling.enableTiling)
  {
    LoadModelFilesSpec(task);
  }

  /** The tile wrapper a load builds: asynchronous, tiling masks for the
      segmentation task types, and classifying tiles over the stored files
      exactly when the tile classifier is enabled. */
  lemma LoadInferencerTiler(task: TaskState)
    requires Loadable(task) && task.tiling.enableTiling
    ensures var r := LoadInferencer(task);
      && r.Ok? && r.value.TileWrapper?
      && r.value.tiler.mode == AsyncMode
      && r.value.tiler.tileSize == task.tiling.tileSize
      && r.value.tiler.maxNumber == task.tiling.tileMaxNumber
      && (r.value.tiler.segm <==> task.taskType != Detection)
      && (r.value.tiler.classifier.Some? <==> task.tiling.enableTileClassifier)
      && (task.tiling.enableTileClassifier ==>
            r.value.tiler.classifier.value == Classifier(Some(task.model.value.data[TileXmlFile]), Some(task.model.value.data[TileBinFile])))
  {
    LoadModelFilesSpec(task);
  }

  /** An unsupported task type never yields an inferencer; once the model
      files are there, the error is the RuntimeError naming the task type. */
  lemma LoadInferencerRejectsUnknownType(task: TaskState)
    requires task.taskType.OtherTask?
    ensures LoadInferencer(task).Err?
    ensures LoadModelFiles(task).Ok? ==> LoadInferencer(task) == Err(RuntimeError("Unknown OpenVINO Inferencer TaskType"))
  {
  }

  /** The code as written and the corrected load agree on every supported task type. */
  lemma LoadInferencerAgrees(task: TaskState)
    requires !task.taskType.OtherTask?
    ensures LoadInferencerAsWritten(task) == LoadInferencer(task)
  {
  }

  /** As written, an unsupported task type with a complete model reports an
      unbound local variable, never the RuntimeError meant for it. */
  lemma LoadInferencerAsWrittenUnbound(task: TaskState)
    requires task.taskType.OtherTask? && Loadable(task.(taskType := Detection))
    ensures LoadInferencerAsWritten(task) == Err(UnboundLocalError("inferencer"))
  {
    LoadModelFilesSpec(task);
  }

  /** A concrete instance: a classification task with a complete model and tiling off. */
  lemma LoadInferencerAsWrittenExample()
    ensures var model := ModelEntity(map[ThresholdFile := [0, 0, 0, 0], XmlFile := [], BinFile := []], OpenVinoFormat, NotOptimized, [], []);
      var task := TaskState(Some(model), OtherTask("CLASSIFICATION"), TilingParameters(false, false, 400, 100));
      && LoadInferencerAsWritten(task) == Err(UnboundLocalError("inferencer"))
      && LoadInferencer(task) == Err(RuntimeError("Unknown OpenVINO Inferencer TaskType"))
  {
    var model := ModelEntity(map[ThresholdFile := [0, 0, 0, 0], XmlFile := [], BinFile := []], OpenVinoFormat, NotOptimized, [], []);
    var task := TaskState(Some(model), OtherTask("CLASSIFICATION"), TilingParameters(false, false, 400, 100));
    LoadModelFilesSpec(task);
  }

  // ---------------------------------------------------------------------
  // Saliency-map labels in infer and explain
  // ---------------------------------------------------------------------

  datatype Domain = DetectionDomain | OtherDomain(name: string)

  datatype Label = Label(name: string, domain: Domain)

  const Background := Label("background", DetectionDomain)

  /** The labels a saliency map with `rows` class rows is explained against:
      a copy of the task's labels, extended by one trailing background label
      when the map has one row more than there are labels. */
  function SaliencyLabels(labels: seq<Label>, rows: nat): (r: seq<Label>)
    ensures |labels| <= |r| <= |labels| + 1 && r[..|labels|] == labels
    ensures |r| == |labels| + 1 <==> rows == |labels| + 1
    ensures |r| == |labels| + 1 ==> r[|labels|] == Background
  {
    if rows == |labels| + 1 then labels + [Background] else labels
  }

  /** A map with one row per label, or one more for the background, gets one label per row. */
  lemma SaliencyLabelsCoverRows(labels: seq<Label>, rows: nat)
    requires rows == |labels| || rows == |labels| + 1
    ensures |SaliencyLabels(labels, rows)| == rows
  {
  }

  /** `infer` adds saliency maps unless it runs for evaluation; without parameters it adds them. */
  predicate AddsSaliencyMaps(isEvaluation: Option<bool>)
  {
    isEvaluation.None? || !isEvaluation.value
  }

  /** The label lists `infer` explains its items against, item by item: none
      when saliency maps are not added or the item has no map. */
  method InferSaliencyLabels(labels: seq<Label>, isEvaluation: Option<bool>, saliencyRows: seq<Option<nat>>)
    returns (r: seq<Option<seq<Label>>>)
    ensures |r| == |saliencyRows|
    ensures forall i | 0 <= i < |r| :: r[i].Some? <==> AddsSaliencyMaps(isEvaluation) && saliencyRows[i].Some?
    ensures forall i | 0 <= i < |r| :: r[i].Some? && saliencyRows[i].Some? ==> r[i].value == SaliencyLabels(labels, saliencyRows[i].value)
  {
    var add := isEvaluation.None? || !isEvaluation.value;
    r := [];
    var k := 0;
    while k < |saliencyRows|
      invariant 0 <= k <= |saliencyRows| && |r| == k
      invariant forall i | 0 <= i < k :: r[i].Some? <==> add && saliencyRows[i].Some?
      invariant forall i | 0 <= i < k :: r[i].Some? && saliencyRows[i].Some? ==> r[i].value == SaliencyLabels(labels, saliencyRows[i].value)
    {
      if add && saliencyRows[k].Some? {
        var itemLabels := labels;
        if saliencyRows[k].value == |labels| + 1 {
          itemLabels := itemLabels + [Background];
        }
        r := r + [Some(itemLabels)];
      } else {
        r := r + [None];
      }
      k := k + 1;
    }
  }

  /** The label lists `explain` explains its items against; an item without
      a saliency map stops it with a RuntimeError. */
  method ExplainSaliencyLabels(labels: seq<Label>, saliencyRows: seq<Option<nat>>)
    returns (r: Result<seq<seq<Label>>>)
    ensures r.Ok? <==> forall i | 0 <= i < |saliencyRows| :: saliencyRows[i].Some?
    ensures r.Err? ==> r.error.RuntimeError?
    ensures r.Ok? ==> |r.value| == |saliencyRows|
    ensures r.Ok? ==> forall i | 0 <= i < |saliencyRows| :: saliencyRows[i].Some? && r.value[i] == SaliencyLabels(labels, saliencyRows[i].value)
  {
    var lists: seq<seq<Label>> := [];
    var k := 0;
    while k < |saliencyRows|
      invariant 0 <= k <= |saliencyRows| && |lists| == k
      invariant forall i | 0 <= i < k :: saliencyRows[i].Some? && lists[i] == SaliencyLabels(labels, saliencyRows[i].value)
    {
      if saliencyRows[k].None? {
        return Err(RuntimeError("There is no Saliency Map in OpenVINO IR model output"));
      }
      var itemLabels := labels;
      if saliencyRows[k].value == |labels| + 1 {
        itemLabels := itemLabels + [Background];
      }
      lists := lists + [itemLabels];
      k := k + 1;
    }
    r := Ok(lists);
  }

  // ---------------------------------------------------------------------
  // Deployment archive
  // ---------------------------------------------------------------------

  /** What an archive entry holds: a stored model file, the generated
      deployment config, or a packaged file of the demo code. */
  datatype Content = ModelFile(bytes: Bytes) | DeployConfig | Packaged(name: string)

  datatype ArchiveEntry = ArchiveEntry(path: string, content: Content)

  const ArchiveXml := "model/model.xml"
  const ArchiveBin := "model/model.bin"
  const ArchiveTileXml := "model/tile_classifier.xml"
  const ArchiveTileBin := "model/tile_classifier.bin"
  const ArchiveConfig := "model/config.json"
  const DemoDir := "python/"
  const WrappersDir := "model_wrappers/"

  /** The demo files packaged after the model wrappers. */
  const DemoFiles := ["requirements.txt", "LICENSE", "README.md", "demo.py"]

  /** `python/<name>` entries for demo files, each packaging the file it names. */
  function DemoEntries(names: seq<string>): (r: seq<ArchiveEntry>)
    ensures |r| == |names|
    ensures forall i | 0 <= i < |names| :: r[i] == ArchiveEntry(DemoDir + names[i], Packaged(names[i]))
    decreases names
  {
    if names == [] then []
    else
      [ArchiveEntry(DemoDir + names[0], Packaged(names[0]))] + DemoEntries(names[1..])
  }

  /** The archive entries `deploy` writes, in order; `wrapperFiles` are the
      model-wrapper sources in the order the directory walk yields them. */
  function DeployArchive(task: TaskState, wrapperFiles: seq<string>): Result<seq<ArchiveEntry>>
  {
    if task.model.None? then Err(ValueError("Deploy failed, model is None"))
    else
      var model := task.model.value;
      var xml :- GetData(model, XmlFile);
      var bin :- GetData(model, BinFile);
      var tileEntries :- TileClassifierEntries(model, UsesTileClassifier(task.tiling));
      Ok([ArchiveEntry(ArchiveXml, ModelFile(xml)), ArchiveEntry(ArchiveBin, ModelFile(bin))]
         + tileEntries
         + [ArchiveEntry(ArchiveConfig, DeployConfig)]
         + DemoEntries(WrapperNames(wrapperFiles) + DemoFiles))
  }

  /** The model-wrapper sources as named inside `python/`. */
  function WrapperNames(wrapperFiles: seq<string>): seq<string>
  {
    seq(|wrapperFiles|, i requires 0 <= i < |wrapperFiles| => WrappersDir + wrapperFiles[i])
  }

  /** The `python/` part of the archive: the wrappers in walk order, then the demo files. */
  lemma PythonEntries(wrapperFiles: seq<string>)
    ensures var d := DemoEntries(WrapperNames(wrapperFiles) + DemoFiles);
      && |d| == |wrapperFiles| + |DemoFiles|
      && (forall i | 0 <= i < |wrapperFiles| ::
            d[i] == ArchiveEntry(DemoDir + WrappersDir + wrapperFiles[i], Packaged(WrappersDir + wrapperFiles[i])))
      && (forall i | 0 <= i < |DemoFiles| ::
            d[|wrapperFiles| + i] == ArchiveEntry(DemoDir + DemoFiles[i], Packaged(DemoFiles[i])))
  {
    var names := WrapperNames(wrapperFiles) + DemoFiles;
    forall i | 0 <= i < |wrapperFiles|
      ensures DemoEntries(names)[i] == ArchiveEntry(DemoDir + WrappersDir + wrapperFiles[i], Packaged(WrappersDir + wrapperFiles[i]))
    {
      assert names[i] == WrappersDir + wrapperFiles[i];
      assert DemoDir + (WrappersDir + wrapperFiles[i]) == DemoDir + WrappersDir + wrapperFiles[i];
    }
    forall i | 0 <= i < |DemoFiles|
      ensures DemoEntries(names)[|wrapperFiles| + i] == ArchiveEntry(DemoDir + DemoFiles[i], Packaged(DemoFiles[i]))
    {
      assert names[|wrapperFiles| + i] == DemoFiles[i];
    }
  }

  function TileClassifierEntries(model: ModelEntity, withTiles: bool): Result<seq<ArchiveEntry>>
  {
    if !withTiles then Ok([])
    else
      var xml :- GetData(model, TileXmlFile);
      var bin :- GetData(model, TileBinFile);
      Ok([ArchiveEntry(ArchiveTileXml, ModelFile(xml)), ArchiveEntry(ArchiveTileBin, ModelFile(bin))])
  }

  function Paths(entries: seq<ArchiveEntry>): set<string>
  {
    set e | e in entries :: e.path
  }

  /** The archive in order: the IR files first, the tile classifier files
      when used, the deployment config, then under `python/` the model
      wrappers (under `model_wrappers/`, in walk order) and the four demo
      files. */
  lemma DeployLayout(task: TaskState, wrapperFiles: seq<string>)
    requires DeployArchive(task, wrapperFiles).Ok?
    ensures var r := DeployArchive(task, wrapperFiles).value;
      var t := if UsesTileClassifier(task.tiling) then 2 else 0;
      && |r| == 3 + t + |wrapperFiles| + |DemoFiles|
      && r[0] == ArchiveEntry(ArchiveXml, ModelFile(task.model.value.data[XmlFile]))
      && r[1] == ArchiveEntry(ArchiveBin, ModelFile(task.model.value.data[BinFile]))
      && r[2 + t] == ArchiveEntry(ArchiveConfig, DeployConfig)
      && (forall i | 0 <= i < |wrapperFiles| ::
            r[3 + t + i] == ArchiveEntry(DemoDir + WrappersDir + wrapperFiles[i], Packaged(WrappersDir + wrapperFiles[i])))
      && (forall i | 0 <= i < |DemoFiles| ::
            r[3 + t + |wrapperFiles| + i] == ArchiveEntry(DemoDir + DemoFiles[i], Packaged(DemoFiles[i])))
  {
    var model := task.model.value;
    var tileEntries := TileClassifierEntries(model, UsesTileClassifier(task.tiling)).value;
    var head := [ArchiveEntry(ArchiveXml, ModelFile(model.data[XmlFile])), ArchiveEntry(ArchiveBin, ModelFile(model.data[BinFile]))]
                + tileEntries + [ArchiveEntry(ArchiveConfig, DeployConfig)];
    var tail := DemoEntries(WrapperNames(wrapperFiles) + DemoFiles);
    assert DeployArchive(task, wrapperFiles).value == head + tail;
    PythonEntries(wrapperFiles);
  }

  /** Deploying succeeds exactly when the model holds the files the archive
      needs; without a model it is a ValueError. */
  lemma DeployOkIff(task: TaskState, wrapperFiles: seq<string>)
    ensures DeployArchive(task, wrapperFiles).Ok? <==>
      && task.model.Some?
      && XmlFile in task.model.value.data && BinFile in task.model.value.data
      && (UsesTileClassifier(task.tiling) ==> TileXmlFile in task.model.value.data && TileBinFile in task.model.value.data)
    ensures task.model.None? ==> DeployArchive(task, wrapperFiles) == Err(ValueError("Deploy failed, model is None"))
  {
  }

  /** The archive always carries the model's IR files and the deployment
      config, and carries the tile classifier files (as stored) exactly when
      tiling and the tile classifier are both enabled. */
  lemma {:induction false} DeployEntries(task: TaskState, wrapperFiles: seq<string>)
    requires DeployArchive(task, wrapperFiles).Ok?
    ensures var r := DeployArchive(task, wrapperFiles).value;
      && ArchiveEntry(ArchiveXml, ModelFile(task.model.value.data[XmlFile])) in r
      && ArchiveEntry(ArchiveBin, ModelFile(task.model.value.data[BinFile])) in r
      && ArchiveEntry(ArchiveConfig, DeployConfig) in r
      && (ArchiveTileXml in Paths(r) <==> UsesTileClassifier(task.tiling))
      && (ArchiveTileBin in Paths(r) <==> UsesTileClassifier(task.tiling))
      && (UsesTileClassifier(task.tiling) ==>
            && ArchiveEntry(ArchiveTileXml, ModelFile(task.model.value.data[TileXmlFile])) in r
            && ArchiveEntry(ArchiveTileBin, ModelFile(task.model.value.data[TileBinFile])) in r)
  {
    var model := task.model.value;
    var r := DeployArchive(task, wrapperFiles).value;
    var tileEntries := TileClassifierEntries(model, UsesTileClassifier(task.tiling)).value;
    var demo := DemoEntries(WrapperNames(wrapperFiles) + DemoFiles);
    assert r == [ArchiveEntry(ArchiveXml, ModelFile(model.data[XmlFile])), ArchiveEntry(ArchiveBin, ModelFile(model.data[BinFile]))]
                + tileEntries + [ArchiveEntry(ArchiveConfig, DeployConfig)] + demo;
    assert r[0].path[0] == 'm' && r[1].path[0] == 'm';
    assert ArchiveTileXml[0] == 'm' && ArchiveTileBin[0] == 'm';
    forall e | e in r && (e.path == ArchiveTileXml || e.path == ArchiveTileBin)
      ensures e in tileEntries
    {
    }
  }

  /** Whatever loads also deploys. */
  lemma DeployAfterLoad(task: TaskState, wrapperFiles: seq<string>)
    requires LoadInferencer(task).Ok?
    ensures DeployArchive(task, wrapperFiles).Ok?
  {
    LoadInferencerOkIff(task);
    DeployOkIff(task, wrapperFiles);
  }

  // ---------------------------------------------------------------------
  // POT optimisation
  // ---------------------------------------------------------------------

  datatype OptimizationType = PotOptimization | NncfOptimization

  /** The configured POT parameters. */
  datatype PotParameters = PotParameters(statSubsetSize: int, statRequestsNumber: int)

  /** The settings handed to the quantisation pipeline. */
  datatype PotSettings = PotSettings(statSubsetSize: int, statRequestsNumber: int)

  function Min(a: int, b: int): int
  {
    if a <= b then a else b
  }

  /** Statistics are gathered over at most the configured number of samples
      and at most the training subset, with at most the configured number
      of requests and at most one per CPU. */
  function PotSettingsFor(pot: PotParameters, trainingSize: nat, cpuCount: nat): (r: PotSettings)
    ensures r.statSubsetSize <= pot.statSubsetSize && r.statSubsetSize <= trainingSize
    ensures r.statSubsetSize == pot.statSubsetSize || r.statSubsetSize == trainingSize
    ensures r.statRequestsNumber <= pot.statRequestsNumber && r.statRequestsNumber <= cpuCount
    ensures r.statRequestsNumber == pot.statRequestsNumber || r.statRequestsNumber == cpuCount
  {
    PotSettings(Min(pot.statSubsetSize, trainingSize), Min(pot.statRequestsNumber, cpuCount))
  }

  /** What the quantisation run feeds into the output model: the quantised
      IR, the task's confidence threshold, label schema and hyper-parameters. */
  datatype OptimizeInputs = OptimizeInputs(
    alreadyQuantized: bool,   // the loaded IR holds FakeQuantize nodes
    pot: PotParameters,
    trainingSize: nat,
    cpuCount: nat,
    quantized: ModelFiles,
    threshold: Float32Bytes,  // np.float32(confidence_threshold).tobytes()
    labelSchema: Bytes,
    hparams: Bytes)

  /** The result of a successful optimisation: the settings used, the
      output model and the inferencer reloaded over it. */
  datatype Optimized = Optimized(settings: PotSettings, output: ModelEntity, inferencer: Inferencer)

  /** The output model as written: the quantised IR, threshold, label schema
      and hyper-parameters stored over the given model, marked as an INT8 POT
      quantisation of an OpenVINO model. */
  function OptimizedModelAsWritten(output: ModelEntity, inp: OptimizeInputs): ModelEntity
  {
    ModelEntity(
      output.data[XmlFile := inp.quantized.xml][BinFile := inp.quantized.bin][ThresholdFile := inp.threshold]
                 [LabelSchemaFile := inp.labelSchema][ConfigFile := inp.hparams],
      OpenVinoFormat, Pot, [Quantization], [Int8])
  }

  /** Stores `source`'s file under `key` too, when it has one. */
  function CarryOver(data: map<string, Bytes>, source: ModelEntity, key: string): map<string, Bytes>
  {
    if key in source.data then data[key := source.data[key]] else data
  }

  /** The output model with the tile classifier files carried over from the
      model being optimised, which the reload needs when tiling and the tile
      classifier are enabled. */
  function OptimizedModel(source: ModelEntity, output: ModelEntity, inp: OptimizeInputs): (r: ModelEntity)
    ensures r.data.Keys == OptimizedModelAsWritten(output, inp).data.Keys + (source.data.Keys * {TileXmlFile, TileBinFile})
  {
    var written := OptimizedModelAsWritten(output, inp);
    written.(data := CarryOver(CarryOver(written.data, source, TileXmlFile), source, TileBinFile))
  }

  /** The guards `optimize` checks before quantising, in order: the
      optimisation type, the model, its IR files and whether it is already
      quantised. */
  function OptimizeGuards(task: TaskState, optType: OptimizationType, inp: OptimizeInputs): Result<ModelEntity>
  {
    if optType != PotOptimization then Err(ValueError("POT is the only supported optimization type for OpenVino models"))
    else if task.model.None? then Err(RuntimeError("Optimize failed, model is None"))
    else
      var model := task.model.value;
      var xml :- GetData(model, XmlFile);
      var bin :- GetData(model, BinFile);
      if inp.alreadyQuantized then Err(RuntimeError("Model is already optimized by POT"))
      else Ok(model)
  }

  /** `optimize` as written: the task's model becomes the output model and
      the inferencer is reloaded over it. */
  function OptimizeAsWritten(task: TaskState, optType: OptimizationType, inp: OptimizeInputs, output: ModelEntity): Result<Optimized>
  {
    var model :- OptimizeGuards(task, optType, inp);
    var out := OptimizedModelAsWritten(output, inp);
    var inferencer :- LoadInferencer(task.(model := Some(out)));
    Ok(Optimized(PotSettingsFor(inp.pot, inp.trainingSize, inp.cpuCount), out, inferencer))
  }

  /** `optimize` with the tile classifier files kept in the output model. */
  function Optimize(task: TaskState, optType: OptimizationType, inp: OptimizeInputs, output: ModelEntity): Result<Optimized>
  {
    var model :- OptimizeGuards(task, optType, inp);
    var out := OptimizedModel(model, output, inp);
    var inferencer :- LoadInferencer(task.(model := Some(out)));
    Ok(Optimized(PotSettingsFor(inp.pot, inp.trainingSize, inp.cpuCount), out, inferencer))
  }

  /** A non-POT request is a ValueError, a missing model a RuntimeError, and
      an already quantised model a RuntimeError. */
  lemma OptimizeRejects(task: TaskState, optType: OptimizationType, inp: OptimizeInputs, output: ModelEntity)
    ensures optType != PotOptimization ==> Optimize(task, optType, inp, output).Err?
                                           && Optimize(task, optType, inp, output).error.ValueError?
    ensures optType == PotOptimization && task.model.None? ==>
      Optimize(task, optType, inp, output) == Err(RuntimeError("Optimize failed, model is None"))
    ensures optType == PotOptimization && task.model.Some? && XmlFile in task.model.value.data
            && BinFile in task.model.value.data && inp.alreadyQuantized ==>
      Optimize(task, optType, inp, output) == Err(RuntimeError("Model is already optimized by POT"))
  {
  }

  /** The output model holds the quantised IR and the task's threshold, label
      schema and hyper-parameters, is marked as an INT8 POT quantisation,
      and keeps every other file the given output model had. */
  lemma OptimizedModelContents(source: ModelEntity, output: ModelEntity, inp: OptimizeInputs)
    ensures var r := OptimizedModel(source, output, inp);
      && r.data[XmlFile] == inp.quantized.xml && r.data[BinFile] == inp.quantized.bin
      && r.data[ThresholdFile] == inp.threshold
      && r.data[LabelSchemaFile] == inp.labelSchema && r.data[ConfigFile] == inp.hparams
      && r.format == OpenVinoFormat && r.optimization == Pot && r.methods == [Quantization] && r.precision == [Int8]
      && (forall k | k in source.data && k in {TileXmlFile, TileBinFile} :: r.data[k] == source.data[k])
      && (forall k | k in output.data && k !in {XmlFile, BinFile, ThresholdFile, LabelSchemaFile, ConfigFile, TileXmlFile, TileBinFile} ::
            r.data[k] == output.data[k])
  {
  }

  /** Optimising a loadable task that passes the guards leaves a loadable
      task: the reload over the output model succeeds, over the quantised IR. */
  lemma OptimizeKeepsLoadable(task: TaskState, inp: OptimizeInputs, output: ModelEntity)
    requires Loadable(task) && !inp.alreadyQuantized
    ensures var r := Optimize(task, PotOptimization, inp, output);
      && r.Ok?
      && Loadable(task.(model := Some(r.value.output)))
      && r.value.inferencer.files == inp.quantized
      && r.value.settings == PotSettingsFor(inp.pot, inp.trainingSize, inp.cpuCount)
  {
    var out := OptimizedModel(task.model.value, output, inp);
    OptimizedModelContents(task.model.value, output, inp);
    LoadInferencerOkIff(task.(model := Some(out)));
    LoadInferencerBuilds(task.(model := Some(out)));
  }

  /** As written, optimising a task that tiles with the tile classifier
      fails on the reload whenever the given output model does not already
      hold the classifier files, though the task itself loads. */
  lemma OptimizeAsWrittenLosesTileClassifier(task: TaskState, inp: OptimizeInputs, output: ModelEntity)
    requires Loadable(task) && !inp.alreadyQuantized && UsesTileClassifier(task.tiling)
    requires TileXmlFile !in output.data
    ensures OptimizeAsWritten(task, PotOptimization, inp, output) == Err(KeyError(TileXmlFile))
  {
    var out := OptimizedModelAsWritten(output, inp);
    assert TileXmlFile !in out.data;
    LoadModelFilesSpec(task.(model := Some(out)));
  }

  /** A concrete instance: a tiled instance-segmentation model optimised into an empty output model. */
  lemma OptimizeAsWrittenExample()
    ensures var model := ModelEntity(map[ThresholdFile := [0, 0, 0, 0], XmlFile := [], BinFile := [], TileXmlFile := [], TileBinFile := []],
                                     OpenVinoFormat, NotOptimized, [], []);
      var task := TaskState(Some(model), InstanceSegmentation, TilingParameters(true, true, 400, 100));
      var inp := OptimizeInputs(false, PotParameters(300, 2), 10, 8, ModelFiles([1], [2]), [0, 0, 0, 0], [], []);
      var empty := ModelEntity(map[], OtherFormat("none"), NotOptimized, [], []);
      && LoadInferencer(task).Ok?
      && OptimizeAsWritten(task, PotOptimization, inp, empty) == Err(KeyError(TileXmlFile))
      && Optimize(task, PotOptimization, inp, empty).Ok?
  {
    var model := ModelEntity(map[ThresholdFile := [0, 0, 0, 0], XmlFile := [], BinFile := [], TileXmlFile := [], TileBinFile := []],
                             OpenVinoFormat, NotOptimized, [], []);
    var task := TaskState(Some(model), InstanceSegmentation, TilingParameters(true, true, 400, 100));
    var inp := OptimizeInputs(false, PotParameters(300, 2), 10, 8, ModelFiles([1], [2]), [0, 0, 0, 0], [], []);
    var empty := ModelEntity(map[], OtherFormat("none"), NotOptimized, [], []);
    LoadInferencerOkIff(task);
    OptimizeAsWrittenLosesTileClassifier(task, inp, empty);
    OptimizeKeepsLoadable(task, inp, empty);
  }
}
