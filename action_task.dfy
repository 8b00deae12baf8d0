/** Configuration shaping of the video-recognition task (mmaction backend).

    Configurations are values of `ConfigTree`. The source changes nested
    `ConfigDict`s in place; the model returns the changed configuration
    instead, and an assignment made through a reference to a nested
    dictionary becomes a write at that position of the tree. */
module ActionTask {
  import opened Results
  import opened ConfigTree

  // ---------------------------------------------------------------------------
  // Caching modules
  // ---------------------------------------------------------------------------

  const WorkersKey := "workers_per_gpu"

  /** The largest `workers_per_gpu` integer at any depth of nested
      dictionaries, and 0 when there is none or all are negative. Lists are not
      searched. */
  function MaxNumWorkers(cfg: seq<Entry>): (r: int)
    ensures r >= 0
    decreases cfg
  {
    if cfg == [] then 0
    else
      var e := cfg[0];
      var here := if e.key == WorkersKey && AsInt(e.value).Some? then AsInt(e.value).value
                  else if e.value.Dict? then MaxNumWorkers(e.value.entries)
                  else 0;
      var rest := MaxNumWorkers(cfg[1..]);
      if here > rest then here else rest
  }

  /** Following the entry positions of `path` through nested dictionaries
      reaches a `workers_per_gpu` entry holding the integer `w`. */
  ghost predicate SettingAt(cfg: seq<Entry>, path: seq<nat>, w: int)
    decreases |path|
  {
    && 0 < |path| && path[0] < |cfg|
    && if |path| == 1 then cfg[path[0]].key == WorkersKey && AsInt(cfg[path[0]].value) == Some(w)
       else cfg[path[0]].value.Dict? && SettingAt(cfg[path[0]].value.entries, path[1..], w)
  }

  /** Every `workers_per_gpu` setting is at most the maximum. */
  lemma {:induction false} SettingBelowMax(cfg: seq<Entry>, path: seq<nat>, w: int)
    requires SettingAt(cfg, path, w)
    ensures w <= MaxNumWorkers(cfg)
    decreases cfg
  {
    var e := cfg[0];
    if path[0] == 0 {
      if |path| > 1 && !(e.key == WorkersKey && AsInt(e.value).Some?) {
        SettingBelowMax(e.value.entries, path[1..], w);
      }
    } else {
      var shifted := [path[0] - 1] + path[1..];
      assert cfg[1..][shifted[0]] == cfg[path[0]] && shifted[1..] == path[1..];
      SettingBelowMax(cfg[1..], shifted, w);
    }
  }

  /** A positive maximum is one of the settings; `path` says where it is. */
  lemma {:induction false} MaxAttained(cfg: seq<Entry>) returns (path: seq<nat>)
    ensures MaxNumWorkers(cfg) == 0 || SettingAt(cfg, path, MaxNumWorkers(cfg))
    decreases cfg
  {
    path := [];
    if cfg == [] {
      return;
    }
    var e := cfg[0];
    var here := if e.key == WorkersKey && AsInt(e.value).Some? then AsInt(e.value).value
                else if e.value.Dict? then MaxNumWorkers(e.value.entries)
                else 0;
    var rest := MaxNumWorkers(cfg[1..]);
    if here > rest {
      if e.key == WorkersKey && AsInt(e.value).Some? {
        path := [0];
      } else {
        var inner := MaxAttained(e.value.entries);
        path := [0] + inner;
        assert path[1..] == inner;
      }
    } else {
      var p := MaxAttained(cfg[1..]);
      if rest != 0 {
        path := [p[0] + 1] + p[1..];
        assert cfg[path[0]] == cfg[1..][p[0]] && path[1..] == p[1..];
      }
    }
  }

  datatype CacheMode = MultiProcessing | SingleProcessing

  /** What `_update_caching_modules` hands to the memory-cache singleton. */
  datatype CachingSetup = CachingSetup(mode: CacheMode, memCacheSize: int)

  /** `memCacheSize` is the `mem_cache_size` hyperparameter when it exists. */
  function UpdateCachingModules(dataCfg: seq<Entry>, memCacheSize: Option<int>): CachingSetup
  {
    CachingSetup(if MaxNumWorkers(dataCfg) > 0 then MultiProcessing else SingleProcessing,
                 match memCacheSize case None => 0 case Some(n) => n)
  }

  /** Caching runs in multiprocessing mode exactly when some `workers_per_gpu`
      setting is positive; the cache size is 0 without the hyperparameter. */
  lemma CachingModeFollowsWorkers(dataCfg: seq<Entry>, memCacheSize: Option<int>)
    ensures UpdateCachingModules(dataCfg, memCacheSize).mode == MultiProcessing
            <==> exists path, w :: SettingAt(dataCfg, path, w) && w > 0
    ensures memCacheSize.None? ==> UpdateCachingModules(dataCfg, memCacheSize).memCacheSize == 0
  {
    if MaxNumWorkers(dataCfg) > 0 {
      var path := MaxAttained(dataCfg);
    } else {
      forall path, w | SettingAt(dataCfg, path, w) ensures w <= 0 {
        SettingBelowMax(dataCfg, path, w);
      }
    }
  }

  // ---------------------------------------------------------------------------
  // The nested `dataset` chain of a data subset
  // ---------------------------------------------------------------------------

  const DatasetKey := "dataset"
  const LabelsKey := "labels"

  /** The dictionary reached from `d` by following `depth` nested `dataset` keys. */
  function Descend(d: seq<Entry>, depth: nat): Option<seq<Entry>>
    decreases depth
  {
    if depth == 0 then Some(d)
    else match Lookup(d, DatasetKey)
      case Some(Dict(inner)) => Descend(inner, depth - 1)
      case _ => None
  }

  /** `d` with the dictionary `depth` levels down the chain replaced by `x`. */
  function ReplaceAt(d: seq<Entry>, depth: nat, x: seq<Entry>): seq<Entry>
    requires Descend(d, depth).Some?
    decreases depth
  {
    if depth == 0 then x
    else Set(d, DatasetKey, Dict(ReplaceAt(Lookup(d, DatasetKey).value.entries, depth - 1, x)))
  }

  /** `p` occurs in `s` as a contiguous piece (Python's `p in s` on strings). */
  predicate IsSubstring(p: string, s: string)
    decreases s
  {
    |p| <= |s| && (s[..|p|] == p || IsSubstring(p, s[1..]))
  }

  /** The exception raised when the chain reaches a value that is not a
      dictionary. On a string or a list `"dataset" in v` is a membership test:
      when it holds, reading `v.dataset` fails, otherwise assigning
      `v.labels` does. On any other value the membership test itself fails. */
  function ChainError(v: Value): Error
  {
    match v
    case Str(s) => AttributeError(if IsSubstring(DatasetKey, s) then DatasetKey else LabelsKey)
    case List(items) => AttributeError(if Str(DatasetKey) in items then DatasetKey else LabelsKey)
    case _ => TypeError("argument of type is not iterable")
  }

  /** How many `dataset` keys lead to the innermost dictionary. */
  function ChainDepth(d: seq<Entry>): (r: Result<nat>)
    ensures r.Ok? ==> Descend(d, r.value).Some? && !HasKey(Descend(d, r.value).value, DatasetKey)
    decreases d
  {
    LookupFirst(d, DatasetKey);
    match IndexOf(d, DatasetKey)
    case None => Ok(0)
    case Some(i) =>
      match d[i].value
      case Dict(inner) =>
        (match ChainDepth(inner)
         case Ok(n) => Ok(n + 1)
         case Err(e) => Err(e))
      case v => Err(ChainError(v))
  }

  /** The labels are stored in the innermost dictionary of the chain. */
  function WithLabels(d: seq<Entry>, labels: Value): Result<seq<Entry>>
  {
    match ChainDepth(d)
    case Err(e) => Err(e)
    case Ok(n) => Ok(ReplaceAt(d, n, Set(Descend(d, n).value, LabelsKey, labels)))
  }

  lemma {:induction false} DescendStep(d: seq<Entry>, depth: nat, cur: seq<Entry>, inner: seq<Entry>)
    requires Descend(d, depth) == Some(cur) && Lookup(cur, DatasetKey) == Some(Dict(inner))
    ensures Descend(d, depth + 1) == Some(inner)
    decreases depth
  {
    if depth > 0 {
      DescendStep(Lookup(d, DatasetKey).value.entries, depth - 1, cur, inner);
    }
  }

  /** A depth counted from `k` levels further down. */
  function Deeper(r: Result<nat>, k: nat): Result<nat>
  {
    match r
    case Ok(n) => Ok(n + k)
    case Err(e) => Err(e)
  }

  lemma DeeperAdd(r: Result<nat>, j: nat, k: nat)
    ensures Deeper(Deeper(r, j), k) == Deeper(r, j + k)
  {
  }

  /** One level of the chain: the depth below a dictionary whose `dataset`
      value is `v`. */
  lemma ChainDepthStep(cur: seq<Entry>, v: Value)
    requires Lookup(cur, DatasetKey) == Some(v)
    ensures v.Dict? ==> ChainDepth(cur) == Deeper(ChainDepth(v.entries), 1)
    ensures !v.Dict? ==> ChainDepth(cur) == Err(ChainError(v))
  {
    LookupFirst(cur, DatasetKey);
  }

  lemma ChainDepthBottom(cur: seq<Entry>)
    requires !HasKey(cur, DatasetKey)
    ensures ChainDepth(cur) == Ok(0)
  {
    LookupFirst(cur, DatasetKey);
  }

  /** The loop of `LabelInnermost` keeps its invariant when it takes one more step. */
  lemma ChainAdvance(sub: seq<Entry>, depth: nat, cur: seq<Entry>, v: Value)
    requires Descend(sub, depth) == Some(cur) && ChainDepth(sub) == Deeper(ChainDepth(cur), depth)
    requires Lookup(cur, DatasetKey) == Some(v)
    ensures !v.Dict? ==> ChainDepth(sub) == Err(ChainError(v))
    ensures v.Dict? ==> Descend(sub, depth + 1) == Some(v.entries)
    ensures v.Dict? ==> ChainDepth(sub) == Deeper(ChainDepth(v.entries), depth + 1)
  {
    ChainDepthStep(cur, v);
    if v.Dict? {
      DescendStep(sub, depth, cur, v.entries);
      DeeperAdd(ChainDepth(v.entries), 1, depth);
    }
  }

  /** Follows the `dataset` keys of a subset configuration down to the
      innermost dictionary and stores the labels there. */
  method LabelInnermost(sub: seq<Entry>, labels: Value) returns (r: Result<seq<Entry>>)
    ensures r == WithLabels(sub, labels)
  {
    var cur := sub;
    var depth := 0;
    while HasKey(cur, DatasetKey)
      invariant Descend(sub, depth) == Some(cur)
      invariant ChainDepth(sub) == Deeper(ChainDepth(cur), depth)
      decreases cur
    {
      LookupFirst(cur, DatasetKey);
      var i := IndexOf(cur, DatasetKey).value;
      var v := cur[i].value;
      ChainAdvance(sub, depth, cur, v);
      if !v.Dict? {
        return Err(ChainError(v));
      }
      cur := v.entries;
      depth := depth + 1;
    }
    ChainDepthBottom(cur);
    r := Ok(ReplaceAt(sub, depth, Set(cur, LabelsKey, labels)));
  }

  /** Replacing the innermost dictionary by one without a `dataset` key keeps
      the chain as long as it was, and leaves every other top-level key alone. */
  lemma {:induction false} ReplaceInnermost(d: seq<Entry>, n: nat, y: seq<Entry>)
    requires ChainDepth(d) == Ok(n) && !HasKey(y, DatasetKey)
    ensures ChainDepth(ReplaceAt(d, n, y)) == Ok(n)
    ensures Descend(ReplaceAt(d, n, y), n) == Some(y)
    ensures n > 0 ==> forall k | k != DatasetKey :: Lookup(ReplaceAt(d, n, y), k) == Lookup(d, k)
    decreases n
  {
    if n == 0 {
      ChainDepthBottom(y);
    } else {
      var v := Lookup(d, DatasetKey).value;
      if !HasKey(d, DatasetKey) {
        ChainDepthBottom(d);
        assert false;
      }
      ChainDepthStep(d, v);
      var inner := v.entries;
      ReplaceInnermost(inner, n - 1, y);
      var x := ReplaceAt(d, n, y);
      ChainDepthStep(x, Dict(ReplaceAt(inner, n - 1, y)));
    }
  }

  /** The chain below `d` ends in a dictionary holding `labels`. */
  ghost predicate Labelled(d: seq<Entry>, labels: Value)
  {
    ChainDepth(d).Ok? && Lookup(Descend(d, ChainDepth(d).value).value, LabelsKey) == Some(labels)
  }

  /** Storing the labels fails exactly when the chain reaches a value that is
      not a dictionary. Otherwise the innermost dictionary gains the labels and
      keeps its other keys, the chain keeps its length, and the keys of the
      top-level dictionary other than the one the chain starts with are kept. */
  lemma WithLabelsSpec(d: seq<Entry>, labels: Value)
    ensures WithLabels(d, labels).Err? <==> ChainDepth(d).Err?
    ensures WithLabels(d, labels).Err? ==> WithLabels(d, labels).error == ChainDepth(d).error
    ensures WithLabels(d, labels).Ok? ==>
      var n := ChainDepth(d).value;
      var x := WithLabels(d, labels).value;
      && Labelled(x, labels)
      && ChainDepth(x) == Ok(n)
      && (forall k | k != LabelsKey :: Lookup(Descend(x, n).value, k) == Lookup(Descend(d, n).value, k))
      && (n > 0 ==> forall k | k != DatasetKey :: Lookup(x, k) == Lookup(d, k))
      && (n == 0 ==> forall k | k != LabelsKey :: Lookup(x, k) == Lookup(d, k))
  {
    if ChainDepth(d).Ok? {
      var n := ChainDepth(d).value;
      ReplaceInnermost(d, n, Set(Descend(d, n).value, LabelsKey, labels));
    }
  }

  /** Setting a key other than `dataset` does not change the chain. */
  lemma ChainDepthIgnoresOtherKeys(d: seq<Entry>, k: string, v: Value)
    requires k != DatasetKey
    ensures ChainDepth(Set(d, k, v)) == ChainDepth(d)
  {
    match Lookup(d, DatasetKey)
    case None =>
      ChainDepthBottom(d);
      ChainDepthBottom(Set(d, k, v));
    case Some(w) =>
      ChainDepthStep(d, w);
      ChainDepthStep(Set(d, k, v), w);
  }

  // ---------------------------------------------------------------------------
  // Data subsets
  // ---------------------------------------------------------------------------

  datatype ActionTaskType = ActionClassification | ActionDetection

  const DataKey := "data"
  const TypeKey := "type"
  const Subsets: seq<string> := ["train", "val", "test", "unlabeled"]

  function DatasetType(t: ActionTaskType): string
  {
    if t == ActionClassification then "OTXActionClsDataset" else "OTXActionDetDataset"
  }

  /** One subset: a falsy or missing entry is skipped; otherwise the entry
      gets the dataset type and its innermost dictionary the labels. */
  function PrepareSubset(data: seq<Entry>, name: string, datasetType: string, labels: Value): Result<seq<Entry>>
  {
    var v := Get(data, name, Null);
    if !Truthy(v) then Ok(data)
    else if !v.Dict? then Err(AttributeError(TypeKey))
    else
      var x :- WithLabels(Set(v.entries, TypeKey, Str(datasetType)), labels);
      Ok(Set(data, name, Dict(x)))
  }

  /** The subsets in order; the first failure is the result. */
  function PrepareSubsets(data: seq<Entry>, names: seq<string>, datasetType: string, labels: Value): Result<seq<Entry>>
    decreases |names|
  {
    if names == [] then Ok(data)
    else
      var d :- PrepareSubsets(data, names[..|names| - 1], datasetType, labels);
      PrepareSubset(d, names[|names| - 1], datasetType, labels)
  }

  /** A subset entry that can be prepared. */
  ghost predicate SubsetOk(v: Value)
  {
    !Truthy(v) || (v.Dict? && ChainDepth(v.entries).Ok?)
  }

  /** A prepared subset entry: it carries the dataset type and its chain ends
      in the labels. */
  ghost predicate Prepared(v: Value, datasetType: string, labels: Value)
  {
    v.Dict? && Lookup(v.entries, TypeKey) == Some(Str(datasetType)) && Labelled(v.entries, labels)
  }

  lemma PrepareSubsetSpec(data: seq<Entry>, name: string, datasetType: string, labels: Value)
    ensures PrepareSubset(data, name, datasetType, labels).Ok? <==> SubsetOk(Get(data, name, Null))
    ensures PrepareSubset(data, name, datasetType, labels).Ok? ==>
      var r := PrepareSubset(data, name, datasetType, labels).value;
      var v := Get(data, name, Null);
      && (forall k | k != name :: Lookup(r, k) == Lookup(data, k))
      && (Truthy(v) ==> Lookup(r, name).Some? && Prepared(Lookup(r, name).value, datasetType, labels))
      && (!Truthy(v) ==> r == data)
  {
    var v := Get(data, name, Null);
    if Truthy(v) && v.Dict? {
      var typed := Set(v.entries, TypeKey, Str(datasetType));
      ChainDepthIgnoresOtherKeys(v.entries, TypeKey, Str(datasetType));
      WithLabelsSpec(typed, labels);
    }
  }

  /** Preparing the subsets fails exactly when one of them cannot be prepared. */
  lemma {:induction false} SubsetsOkIff(data: seq<Entry>, names: seq<string>, datasetType: string, labels: Value)
    requires forall i, j | 0 <= i < j < |names| :: names[i] != names[j]
    ensures PrepareSubsets(data, names, datasetType, labels).Ok?
            <==> forall i | 0 <= i < |names| :: SubsetOk(Get(data, names[i], Null))
    decreases |names|
  {
    if names != [] {
      var init := names[..|names| - 1];
      var last := names[|names| - 1];
      SubsetsOkIff(data, init, datasetType, labels);
      var before := PrepareSubsets(data, init, datasetType, labels);
      if before.Ok? {
        SubsetsPrepared(data, init, datasetType, labels);
        assert last !in init;
        assert Get(before.value, last, Null) == Get(data, last, Null);
        PrepareSubsetSpec(before.value, last, datasetType, labels);
        assert forall i | 0 <= i < |names| - 1 :: names[i] == init[i];
      } else {
        var i :| 0 <= i < |init| && !SubsetOk(Get(data, init[i], Null));
        assert names[i] == init[i];
      }
    }
  }

  /** On success every present subset is prepared, an absent or falsy one is
      left as it was, and the other keys of `data` are kept. */
  lemma {:induction false} SubsetsPrepared(data: seq<Entry>, names: seq<string>, datasetType: string, labels: Value)
    requires forall i, j | 0 <= i < j < |names| :: names[i] != names[j]
    requires PrepareSubsets(data, names, datasetType, labels).Ok?
    ensures
      var r := PrepareSubsets(data, names, datasetType, labels).value;
      && (forall k | k !in names :: Lookup(r, k) == Lookup(data, k))
      && (forall i | 0 <= i < |names| && Truthy(Get(data, names[i], Null)) ::
            Lookup(r, names[i]).Some? && Prepared(Lookup(r, names[i]).value, datasetType, labels))
      && (forall i | 0 <= i < |names| && !Truthy(Get(data, names[i], Null)) ::
            Lookup(r, names[i]) == Lookup(data, names[i]))
    decreases |names|
  {
    if names != [] {
      var init := names[..|names| - 1];
      var last := names[|names| - 1];
      var d := PrepareSubsets(data, init, datasetType, labels).value;
      SubsetsPrepared(data, init, datasetType, labels);
      assert last !in init;
      assert Get(d, last, Null) == Get(data, last, Null);
      PrepareSubsetSpec(d, last, datasetType, labels);
      var r := PrepareSubset(d, last, datasetType, labels).value;
      assert PrepareSubsets(data, names, datasetType, labels).value == r;
      forall k | k !in names
        ensures Lookup(r, k) == Lookup(data, k)
      {
        assert k != last && k !in init;
      }
      forall i | 0 <= i < |names| - 1
        ensures Lookup(r, names[i]) == Lookup(d, names[i]) && names[i] == init[i]
      {
        assert names[i] != last;
      }
    }
  }

  /** Once a prefix of the subsets has failed, the whole preparation fails the same way. */
  lemma {:induction false} SubsetErrorSticks(data: seq<Entry>, names: seq<string>, k: nat, datasetType: string, labels: Value)
    requires k <= |names| && PrepareSubsets(data, names[..k], datasetType, labels).Err?
    ensures PrepareSubsets(data, names, datasetType, labels) == PrepareSubsets(data, names[..k], datasetType, labels)
    decreases |names|
  {
    if k < |names| {
      var init := names[..|names| - 1];
      assert init[..k] == names[..k];
      SubsetErrorSticks(data, init, k, datasetType, labels);
    } else {
      assert names[..k] == names;
    }
  }

  // ---------------------------------------------------------------------------
  // Class count and `configure`
  // ---------------------------------------------------------------------------

  const ModelKey := "model"
  const SamplesKey := "samples_per_gpu"
  const VideosKey := "videos_per_gpu"
  const LoadFromKey := "load_from"
  const WorkDirKey := "work_dir"
  const ResumeKey := "resume"
  const DistributedKey := "distributed"
  const OmnisourceKey := "omnisource"
  const ClsHeadKey := "cls_head"
  const RoiHeadKey := "roi_head"
  const BoxHeadKey := "bbox_head"
  const NumClassesKey := "num_classes"
  const TopkKey := "topk"

  /** The dictionary under `key`; a missing key fails as a missing
      attribute, and a value that is not a dictionary with `notDict`, the
      error of the first use the source makes of it. */
  function DictAt(cfg: seq<Entry>, key: string, notDict: Error): (r: Result<seq<Entry>>)
    ensures r.Ok? <==> Lookup(cfg, key).Some? && Lookup(cfg, key).value.Dict?
    ensures r.Ok? ==> Lookup(cfg, key) == Some(Dict(r.value))
    ensures r.Err? ==> r.error == if HasKey(cfg, key) then notDict else AttributeError(key)
  {
    match Lookup(cfg, key)
    case None => Err(AttributeError(key))
    case Some(Dict(e)) => Ok(e)
    case Some(_) => Err(notDict)
  }

  /** `data.get(subset, None)` on a `data` that is not a dictionary. */
  const DataNotDict := AttributeError("get")
  /** `model["cls_head"]` or `model["roi_head"]` on a `model` that is not a dictionary. */
  const ModelNotDict := TypeError("object is not subscriptable")

  /** The box head of a detector: one class more than there are labels, and
      with fewer than five labels a `topk` of one less than there are labels. */
  function CountedBoxHead(bbox: seq<Entry>, numLabels: nat): seq<Entry>
  {
    var counted := Set(bbox, NumClassesKey, Int(numLabels + 1));
    if numLabels < 5 then Set(counted, TopkKey, Int(numLabels - 1)) else counted
  }

  /** The head of the model learns how many classes there are. */
  function SetClassCount(model: seq<Entry>, taskType: ActionTaskType, numLabels: nat): Result<seq<Entry>>
  {
    match taskType
    case ActionClassification =>
      (match Lookup(model, ClsHeadKey)
       case None => Err(KeyError(ClsHeadKey))
       case Some(Dict(head)) => Ok(Set(model, ClsHeadKey, Dict(Set(head, NumClassesKey, Int(numLabels)))))
       case Some(_) => Err(AttributeError(NumClassesKey)))
    case ActionDetection =>
      match Lookup(model, RoiHeadKey)
      case None => Err(KeyError(RoiHeadKey))
      case Some(Dict(roi)) =>
        (match Lookup(roi, BoxHeadKey)
         case None => Err(KeyError(BoxHeadKey))
         case Some(Dict(bbox)) => Ok(Set(model, RoiHeadKey, Dict(Set(roi, BoxHeadKey, Dict(CountedBoxHead(bbox, numLabels))))))
         case Some(_) => Err(AttributeError(NumClassesKey)))
      case Some(_) => Err(TypeError(RoiHeadKey))
  }

  /** The dictionary stored under `key`, if there is one. */
  function SubDict(cfg: seq<Entry>, key: string): Option<seq<Entry>>
  {
    match Lookup(cfg, key)
    case Some(Dict(inner)) => Some(inner)
    case _ => None
  }

  /** The dictionary under `inner` of the dictionary under `outer`. */
  function Nested(cfg: seq<Entry>, outer: string, inner: string): Option<seq<Entry>>
  {
    match SubDict(cfg, outer)
    case Some(d) => SubDict(d, inner)
    case None => None
  }

  /** Classification sets the class count of `cls_head` to the number of
      labels and changes no other key of the model; it fails exactly when
      `cls_head` is missing or not a dictionary. */
  lemma ClassificationCount(model: seq<Entry>, numLabels: nat)
    ensures SetClassCount(model, ActionClassification, numLabels).Err? <==> SubDict(model, ClsHeadKey).None?
    ensures SetClassCount(model, ActionClassification, numLabels).Ok? ==>
      var m := SetClassCount(model, ActionClassification, numLabels).value;
      && SubDict(m, ClsHeadKey).Some?
      && Lookup(SubDict(m, ClsHeadKey).value, NumClassesKey) == Some(Int(numLabels))
      && (forall k | k != NumClassesKey ::
            Lookup(SubDict(m, ClsHeadKey).value, k) == Lookup(SubDict(model, ClsHeadKey).value, k))
      && (forall k | k != ClsHeadKey :: Lookup(m, k) == Lookup(model, k))
  {
  }

  /** Detection sets the class count of `roi_head.bbox_head` to one more than
      the number of labels (the background). With fewer than five labels it
      also sets `topk` to one less than the number of labels; with five or
      more, `topk` keeps its value. No other key of the model changes. It
      fails exactly when `roi_head` or `bbox_head` is missing or not a
      dictionary. */
  lemma DetectionCount(model: seq<Entry>, numLabels: nat)
    ensures SetClassCount(model, ActionDetection, numLabels).Err? <==> Nested(model, RoiHeadKey, BoxHeadKey).None?
    ensures SetClassCount(model, ActionDetection, numLabels).Ok? ==>
      var m := SetClassCount(model, ActionDetection, numLabels).value;
      var before := Nested(model, RoiHeadKey, BoxHeadKey);
      var after := Nested(m, RoiHeadKey, BoxHeadKey);
      && before.Some? && after.Some?
      && Lookup(after.value, NumClassesKey) == Some(Int(numLabels + 1))
      && (numLabels < 5 ==> Lookup(after.value, TopkKey) == Some(Int(numLabels - 1)))
      && (numLabels >= 5 ==> Lookup(after.value, TopkKey) == Lookup(before.value, TopkKey))
      && (forall k | k != NumClassesKey && k != TopkKey :: Lookup(after.value, k) == Lookup(before.value, k))
      && (forall k | k != RoiHeadKey :: Lookup(m, k) == Lookup(model, k))
  {
    if Nested(model, RoiHeadKey, BoxHeadKey).Some? {
      var roi := SubDict(model, RoiHeadKey).value;
      var bbox := SubDict(roi, BoxHeadKey).value;
      DetectionWrite(model, roi, bbox, numLabels);
      var roi' := Set(roi, BoxHeadKey, Dict(CountedBoxHead(bbox, numLabels)));
      assert SubDict(roi', BoxHeadKey) == Some(CountedBoxHead(bbox, numLabels));
    }
  }

  lemma DetectionWrite(model: seq<Entry>, roi: seq<Entry>, bbox: seq<Entry>, numLabels: nat)
    requires Lookup(model, RoiHeadKey) == Some(Dict(roi)) && Lookup(roi, BoxHeadKey) == Some(Dict(bbox))
    ensures SetClassCount(model, ActionDetection, numLabels)
            == Ok(Set(model, RoiHeadKey, Dict(Set(roi, BoxHeadKey, Dict(CountedBoxHead(bbox, numLabels))))))
  {
  }

  /** What `configure` is given besides the recipe: the task type, the
      labels, the output directory, whether training resumes, and the
      checkpoint to start from. */
  datatype ConfigureInputs = ConfigureInputs(
    taskType: ActionTaskType,
    labels: seq<Value>,
    outputPath: string,
    resume: bool,
    modelCkpt: Option<string>)

  /** The run settings written before anything else. */
  function RunSettings(recipe: seq<Entry>, inp: ConfigureInputs): seq<Entry>
  {
    var withDir := Set(recipe, WorkDirKey, Str(inp.outputPath));
    var withResume := Set(withDir, ResumeKey, Bool(inp.resume));
    Set(Set(withResume, DistributedKey, Bool(false)), OmnisourceKey, Bool(false))
  }

  /** `samples_per_gpu` is taken out of the data configuration and its value,
      or `None`, becomes `videos_per_gpu`. */
  function MoveBatchSize(data: seq<Entry>): seq<Entry>
  {
    Set(Remove(data, SamplesKey), VideosKey, Get(data, SamplesKey, Null))
  }

  /** The last writes of `configure`: the prepared data with its batch size
      moved, the counted model, and the checkpoint to load. */
  function Assemble(cfg: seq<Entry>, data: seq<Entry>, model: seq<Entry>, ckpt: Option<string>): seq<Entry>
  {
    var withData := Set(cfg, DataKey, Dict(data));
    var withModel := Set(withData, ModelKey, Dict(model));
    var moved := Set(withModel, DataKey, Dict(MoveBatchSize(data)));
    if ckpt.Some? then Set(moved, LoadFromKey, Str(ckpt.value)) else moved
  }

  /** The whole of `configure` on the recipe after the data configuration
      has been merged into it. */
  function ConfigureSpec(recipe: seq<Entry>, inp: ConfigureInputs): Result<seq<Entry>>
  {
    var cfg := RunSettings(recipe, inp);
    var data :- DictAt(cfg, DataKey, DataNotDict);
    var data' :- PrepareSubsets(data, Subsets, DatasetType(inp.taskType), List(inp.labels));
    var model :- DictAt(Set(cfg, DataKey, Dict(data')), ModelKey, ModelNotDict);
    var model' :- SetClassCount(model, inp.taskType, |inp.labels|);
    Ok(Assemble(cfg, data', model', inp.modelCkpt))
  }

  /** One subset, as the body of the subset loop of `configure` does it. */
  method PrepareOne(data: seq<Entry>, name: string, datasetType: string, labels: Value) returns (r: Result<seq<Entry>>)
    ensures r == PrepareSubset(data, name, datasetType, labels)
  {
    var sub := Get(data, name, Null);
    if !Truthy(sub) {
      return Ok(data);
    }
    if !sub.Dict? {
      return Err(AttributeError(TypeKey));
    }
    var labelled := LabelInnermost(Set(sub.entries, TypeKey, Str(datasetType)), labels);
    if labelled.Err? {
      return Err(labelled.error);
    }
    r := Ok(Set(data, name, Dict(labelled.value)));
  }

  lemma SubsetsStep(data: seq<Entry>, names: seq<string>, k: nat, datasetType: string, labels: Value)
    requires k < |names|
    ensures PrepareSubsets(data, names[..k + 1], datasetType, labels)
            == match PrepareSubsets(data, names[..k], datasetType, labels)
               case Err(e) => Err(e)
               case Ok(d) => PrepareSubset(d, names[k], datasetType, labels)
  {
    assert names[..k + 1][..k] == names[..k];
  }

  /** The subset loop of `configure`, over the subset names in order. */
  method PrepareSubsetsLoop(data: seq<Entry>, names: seq<string>, datasetType: string, labels: Value) returns (r: Result<seq<Entry>>)
    ensures r == PrepareSubsets(data, names, datasetType, labels)
  {
    var cur := data;
    var k := 0;
    while k < |names|
      invariant 0 <= k <= |names|
      invariant PrepareSubsets(data, names[..k], datasetType, labels) == Ok(cur)
    {
      SubsetsStep(data, names, k, datasetType, labels);
      var next := PrepareOne(cur, names[k], datasetType, labels);
      if next.Err? {
        SubsetErrorSticks(data, names, k + 1, datasetType, labels);
        return next;
      }
      cur := next.value;
      k := k + 1;
    }
    assert names[..k] == names;
    r := Ok(cur);
  }

  /** `configure`. */
  method Configure(recipe: seq<Entry>, inp: ConfigureInputs) returns (r: Result<seq<Entry>>)
    ensures r == ConfigureSpec(recipe, inp)
  {
    var cfg := RunSettings(recipe, inp);
    var data := DictAt(cfg, DataKey, DataNotDict);
    if data.Err? {
      return Err(data.error);
    }
    var prepared := PrepareSubsetsLoop(data.value, Subsets, DatasetType(inp.taskType), List(inp.labels));
    if prepared.Err? {
      return Err(prepared.error);
    }
    var model := DictAt(Set(cfg, DataKey, Dict(prepared.value)), ModelKey, ModelNotDict);
    if model.Err? {
      return Err(model.error);
    }
    var counted := SetClassCount(model.value, inp.taskType, |inp.labels|);
    if counted.Err? {
      return Err(counted.error);
    }
    r := Ok(Assemble(cfg, prepared.value, counted.value, inp.modelCkpt));
  }

  lemma SubsetsDistinct()
    ensures forall i, j | 0 <= i < j < |Subsets| :: Subsets[i] != Subsets[j]
    ensures SamplesKey !in Subsets && VideosKey !in Subsets
  {
  }

  /** The head a task type needs is present as a dictionary. */
  ghost predicate HasClassHead(model: seq<Entry>, taskType: ActionTaskType)
  {
    match taskType
    case ActionClassification => SubDict(model, ClsHeadKey).Some?
    case ActionDetection => Nested(model, RoiHeadKey, BoxHeadKey).Some?
  }

  lemma RunSettingsWritten(recipe: seq<Entry>, inp: ConfigureInputs)
    ensures
      var cfg := RunSettings(recipe, inp);
      && Lookup(cfg, WorkDirKey) == Some(Str(inp.outputPath))
      && Lookup(cfg, ResumeKey) == Some(Bool(inp.resume))
      && Lookup(cfg, DistributedKey) == Some(Bool(false))
      && Lookup(cfg, OmnisourceKey) == Some(Bool(false))
      && Lookup(cfg, DataKey) == Lookup(recipe, DataKey)
      && Lookup(cfg, ModelKey) == Lookup(recipe, ModelKey)
      && Lookup(cfg, LoadFromKey) == Lookup(recipe, LoadFromKey)
  {
  }

  lemma AssembleWritten(cfg: seq<Entry>, data: seq<Entry>, model: seq<Entry>, ckpt: Option<string>)
    ensures
      var a := Assemble(cfg, data, model, ckpt);
      && SubDict(a, DataKey) == Some(MoveBatchSize(data))
      && SubDict(a, ModelKey) == Some(model)
      && (ckpt.Some? ==> Lookup(a, LoadFromKey) == Some(Str(ckpt.value)))
      && (forall k | k != DataKey && k != ModelKey && (ckpt.Some? ==> k != LoadFromKey) :: Lookup(a, k) == Lookup(cfg, k))
  {
  }

  /** `samples_per_gpu` is gone, `videos_per_gpu` holds its value or `None`,
      and nothing else changes. */
  lemma BatchSizeMoved(data: seq<Entry>)
    ensures !HasKey(MoveBatchSize(data), SamplesKey)
    ensures Lookup(MoveBatchSize(data), VideosKey) == Some(Get(data, SamplesKey, Null))
    ensures forall k | k != SamplesKey && k != VideosKey :: Lookup(MoveBatchSize(data), k) == Lookup(data, k)
  {
  }

  /** A successful `configure` is the assembly of its parts. */
  lemma ConfigureParts(recipe: seq<Entry>, inp: ConfigureInputs)
    ensures ConfigureSpec(recipe, inp).Ok? <==>
      && SubDict(recipe, DataKey).Some?
      && PrepareSubsets(SubDict(recipe, DataKey).value, Subsets, DatasetType(inp.taskType), List(inp.labels)).Ok?
      && SubDict(recipe, ModelKey).Some?
      && SetClassCount(SubDict(recipe, ModelKey).value, inp.taskType, |inp.labels|).Ok?
    ensures ConfigureSpec(recipe, inp).Ok? ==>
      ConfigureSpec(recipe, inp).value
      == Assemble(RunSettings(recipe, inp),
                  PrepareSubsets(SubDict(recipe, DataKey).value, Subsets, DatasetType(inp.taskType), List(inp.labels)).value,
                  SetClassCount(SubDict(recipe, ModelKey).value, inp.taskType, |inp.labels|).value,
                  inp.modelCkpt)
  {
    var cfg := RunSettings(recipe, inp);
    RunSettingsWritten(recipe, inp);
    if SubDict(recipe, DataKey).Some? {
      var data := SubDict(recipe, DataKey).value;
      var prepared := PrepareSubsets(data, Subsets, DatasetType(inp.taskType), List(inp.labels));
      if prepared.Ok? {
        assert Lookup(Set(cfg, DataKey, Dict(prepared.value)), ModelKey) == Lookup(recipe, ModelKey);
      }
    }
  }

  /** `configure` succeeds exactly when the recipe has a data dictionary whose
      present subsets can all be prepared, and a model dictionary with the
      head the task type needs. */
  lemma ConfigureOkIff(recipe: seq<Entry>, inp: ConfigureInputs)
    ensures ConfigureSpec(recipe, inp).Ok? <==>
      && SubDict(recipe, DataKey).Some?
      && (forall s | s in Subsets :: SubsetOk(Get(SubDict(recipe, DataKey).value, s, Null)))
      && SubDict(recipe, ModelKey).Some?
      && HasClassHead(SubDict(recipe, ModelKey).value, inp.taskType)
  {
    ConfigureParts(recipe, inp);
    if SubDict(recipe, DataKey).Some? {
      var data := SubDict(recipe, DataKey).value;
      SubsetsDistinct();
      SubsetsOkIff(data, Subsets, DatasetType(inp.taskType), List(inp.labels));
      assert (forall s | s in Subsets :: SubsetOk(Get(data, s, Null)))
             <==> (forall i | 0 <= i < |Subsets| :: SubsetOk(Get(data, Subsets[i], Null)));
    }
    if SubDict(recipe, ModelKey).Some? {
      var model := SubDict(recipe, ModelKey).value;
      ClassificationCount(model, |inp.labels|);
      DetectionCount(model, |inp.labels|);
    }
  }

  /** What a successful `configure` writes outside the data configuration:
      the run settings, the class count in the model, and `load_from`, which
      is replaced only when a checkpoint is given. */
  lemma ConfigureSettings(recipe: seq<Entry>, inp: ConfigureInputs)
    requires ConfigureSpec(recipe, inp).Ok?
    ensures SubDict(recipe, ModelKey).Some?
    ensures
      var cfg := ConfigureSpec(recipe, inp).value;
      && Lookup(cfg, WorkDirKey) == Some(Str(inp.outputPath))
      && Lookup(cfg, ResumeKey) == Some(Bool(inp.resume))
      && Lookup(cfg, DistributedKey) == Some(Bool(false))
      && Lookup(cfg, OmnisourceKey) == Some(Bool(false))
      && (inp.modelCkpt.Some? ==> Lookup(cfg, LoadFromKey) == Some(Str(inp.modelCkpt.value)))
      && (inp.modelCkpt.None? ==> Lookup(cfg, LoadFromKey) == Lookup(recipe, LoadFromKey))
      && SubDict(cfg, ModelKey) == Some(SetClassCount(SubDict(recipe, ModelKey).value, inp.taskType, |inp.labels|).value)
  {
    ConfigureParts(recipe, inp);
    var data' := PrepareSubsets(SubDict(recipe, DataKey).value, Subsets, DatasetType(inp.taskType), List(inp.labels)).value;
    var model' := SetClassCount(SubDict(recipe, ModelKey).value, inp.taskType, |inp.labels|).value;
    RunSettingsWritten(recipe, inp);
    AssembleWritten(RunSettings(recipe, inp), data', model', inp.modelCkpt);
  }

  /** The data configuration after a successful `configure`: every present
      subset carries the dataset type and, innermost, the labels; every other
      subset is as it was; and `samples_per_gpu` is renamed to
      `videos_per_gpu`, which is `None` when it was missing. */
  lemma ConfigureData(recipe: seq<Entry>, inp: ConfigureInputs)
    requires ConfigureSpec(recipe, inp).Ok?
    ensures SubDict(recipe, DataKey).Some?
    ensures SubDict(ConfigureSpec(recipe, inp).value, DataKey).Some?
    ensures
      var data := SubDict(recipe, DataKey).value;
      var out := SubDict(ConfigureSpec(recipe, inp).value, DataKey).value;
      && !HasKey(out, SamplesKey)
      && Lookup(out, VideosKey) == Some(Get(data, SamplesKey, Null))
      && (forall i | 0 <= i < |Subsets| && Truthy(Get(data, Subsets[i], Null)) ::
            Lookup(out, Subsets[i]).Some?
            && Prepared(Lookup(out, Subsets[i]).value, DatasetType(inp.taskType), List(inp.labels)))
      && (forall i | 0 <= i < |Subsets| && !Truthy(Get(data, Subsets[i], Null)) ::
            Lookup(out, Subsets[i]) == Lookup(data, Subsets[i]))
  {
    var data := SubDict(recipe, DataKey).value;
    var data' := ConfiguredData(recipe, inp);
    SubsetsDistinct();
    SubsetsPrepared(data, Subsets, DatasetType(inp.taskType), List(inp.labels));
    BatchSizeMoved(data');
    assert Lookup(data', SamplesKey) == Lookup(data, SamplesKey);
  }

  /** The data configuration that a successful `configure` produces is the
      prepared data with its batch size moved. */
  lemma ConfiguredData(recipe: seq<Entry>, inp: ConfigureInputs) returns (data': seq<Entry>)
    requires ConfigureSpec(recipe, inp).Ok?
    ensures SubDict(recipe, DataKey).Some?
    ensures PrepareSubsets(SubDict(recipe, DataKey).value, Subsets, DatasetType(inp.taskType), List(inp.labels)) == Ok(data')
    ensures SubDict(ConfigureSpec(recipe, inp).value, DataKey) == Some(MoveBatchSize(data'))
  {
    ConfigureParts(recipe, inp);
    data' := PrepareSubsets(SubDict(recipe, DataKey).value, Subsets, DatasetType(inp.taskType), List(inp.labels)).value;
    var model' := SetClassCount(SubDict(recipe, ModelKey).value, inp.taskType, |inp.labels|).value;
    AssembleWritten(RunSettings(recipe, inp), data', model', inp.modelCkpt);
  }

  // ---------------------------------------------------------------------------
  // Model-optimizer options of the deployment configuration
  // ---------------------------------------------------------------------------

  const ToRgbKey := "to_rgb"
  const MeanKey := "mean"
  const StdKey := "std"
  const ReverseFlag := "--reverse_input_channels"
  const MeanArg := "--mean_values"
  const ScaleArg := "--scale_values"
  const BackendKey := "backend_config"
  const MoOptionsKey := "mo_options"
  const ArgsKey := "args"
  const FlagsKey := "flags"
  const ModelInputsKey := "model_inputs"

  /** `list(v)`: a list is copied, a string gives its characters and a
      dictionary its keys; an opaque iterable (a tuple) stands for the list
      of its items; other scalars are not iterable. */
  function ToList(v: Value): Result<Value>
  {
    if v.Object? then Ok(v)
    else
      var items :- Items(v);
      Ok(List(items))
  }

  /** The options the normalisation step asks for. */
  datatype Derived = Derived(flags: seq<Value>, args: seq<Entry>)

  function DeriveOptions(norm: seq<Entry>): Result<Derived>
  {
    var flags := if Truthy(Get(norm, ToRgbKey, Bool(false))) then [Str(ReverseFlag)] else [];
    var mean := Get(norm, MeanKey, Null);
    var withMean :- if mean == Null then Ok([]) else
      var l :- ToList(mean);
      Ok(Set([], MeanArg, l));
    var std := Get(norm, StdKey, Null);
    var args :- if std == Null then Ok(withMean) else
      var l :- ToList(std);
      Ok(Set(withMean, ScaleArg, l));
    Ok(Derived(flags, args))
  }

  /** The normalisation step asks for `--reverse_input_channels` exactly when
      its `to_rgb` is true, for `--mean_values` exactly when it has a mean and
      for `--scale_values` exactly when it has a standard deviation; the
      values are those of the step, as lists. */
  lemma DerivedFromNormalize(norm: seq<Entry>)
    requires DeriveOptions(norm).Ok?
    ensures
      var d := DeriveOptions(norm).value;
      && (Str(ReverseFlag) in d.flags <==> Truthy(Get(norm, ToRgbKey, Bool(false))))
      && |d.flags| <= 1
      && (HasKey(d.args, MeanArg) <==> Get(norm, MeanKey, Null) != Null)
      && (HasKey(d.args, MeanArg) ==> Lookup(d.args, MeanArg) == Some(ToList(Get(norm, MeanKey, Null)).value))
      && (HasKey(d.args, ScaleArg) <==> Get(norm, StdKey, Null) != Null)
      && (HasKey(d.args, ScaleArg) ==> Lookup(d.args, ScaleArg) == Some(ToList(Get(norm, StdKey, Null)).value))
      && (forall k | k != MeanArg && k != ScaleArg :: !HasKey(d.args, k))
  {
  }

  /** The `mo_options` dictionary, filled in when it is missing or `None`. */
  function ExistingMoOptions(backend: seq<Entry>): Result<seq<Entry>>
  {
    match Get(backend, MoOptionsKey, Null)
    case Null => Ok([])
    case Dict(m) => Ok(m)
    case _ => Err(AttributeError("get"))
  }

  /** The `args` of `mo_options`, an empty dictionary when missing or
      `None`, as `dict.update` reads them. */
  function ExistingArgs(mo: seq<Entry>): Result<seq<Entry>>
  {
    match Get(mo, ArgsKey, Null)
    case Null => Ok([])
    case v => UpdatePairs(v)
  }

  /** The `flags` of `mo_options`, an empty list when missing or `None`. */
  function ExistingFlags(mo: seq<Entry>): Result<seq<Value>>
  {
    match Get(mo, FlagsKey, Null)
    case Null => Ok([])
    case List(f) => Ok(f)
    case _ => Err(AttributeError("extend"))
  }

  /** What `patch_input_preprocessing` decides before it writes: the backend
      and optimizer-option dictionaries, the merged arguments and the flags
      before duplicates are dropped. */
  datatype MoPlan = MoPlan(backend: seq<Entry>, mo: seq<Entry>, derived: Derived, args: seq<Entry>, flags: seq<Value>)

  function PlanPatch(deploy: seq<Entry>, normalizeCfgs: seq<seq<Entry>>): Result<MoPlan>
  {
    if |normalizeCfgs| != 1 then Err(AssertionError("len(normalize_cfg) == 1"))
    else
      var derived :- DeriveOptions(normalizeCfgs[0]);
      var backend :- match Lookup(deploy, BackendKey)
        case Some(Dict(b)) => Ok(b)
        case Some(_) => Err(AttributeError("get"))
        case None => Err(AttributeError(BackendKey));
      var mo :- ExistingMoOptions(backend);
      var moArgs :- ExistingArgs(mo);
      var moFlags :- ExistingFlags(mo);
      Ok(MoPlan(backend, mo, derived, Update(derived.args, moArgs), moFlags + derived.flags))
  }

  /** The deployment configuration with the planned arguments and the final flags written back. */
  function WritePatch(deploy: seq<Entry>, plan: MoPlan, flags: seq<Value>): seq<Entry>
  {
    var mo := Set(Set(plan.mo, ArgsKey, Dict(plan.args)), FlagsKey, List(flags));
    Set(deploy, BackendKey, Dict(Set(plan.backend, MoOptionsKey, Dict(mo))))
  }

  /** Exactly one normalisation step is required. Arguments already in
      `mo_options.args` win over the derived ones, and the derived ones fill
      in the rest. The flags before de-duplication are the old flags followed
      by the derived ones. */
  lemma PlanPatchSpec(deploy: seq<Entry>, normalizeCfgs: seq<seq<Entry>>)
    ensures |normalizeCfgs| != 1 ==> PlanPatch(deploy, normalizeCfgs).Err? && PlanPatch(deploy, normalizeCfgs).error.AssertionError?
    ensures PlanPatch(deploy, normalizeCfgs).Ok? ==>
      var p := PlanPatch(deploy, normalizeCfgs).value;
      && |normalizeCfgs| == 1
      && p.derived == DeriveOptions(normalizeCfgs[0]).value
      && SubDict(deploy, BackendKey) == Some(p.backend)
      && ExistingMoOptions(p.backend) == Ok(p.mo)
      && ExistingArgs(p.mo).Ok? && ExistingFlags(p.mo).Ok?
      && (UniqueKeys(ExistingArgs(p.mo).value) ==>
            forall k | HasKey(ExistingArgs(p.mo).value, k) :: Lookup(p.args, k) == Lookup(ExistingArgs(p.mo).value, k))
      && (forall k | !HasKey(ExistingArgs(p.mo).value, k) :: Lookup(p.args, k) == Lookup(p.derived.args, k))
      && (forall x :: x in p.flags <==> x in ExistingFlags(p.mo).value || x in p.derived.flags)
  {
  }

  predicate DistinctValues(xs: seq<Value>)
  {
    forall i, j | 0 <= i < j < |xs| :: xs[i] != xs[j]
  }

  /** `list(set(xs))`: the same values, each once. Python leaves the order
      unspecified; this one keeps first occurrences. */
  method Deduplicate(xs: seq<Value>) returns (r: seq<Value>)
    ensures DistinctValues(r)
    ensures forall x :: x in r <==> x in xs
  {
    r := [];
    var i := 0;
    while i < |xs|
      invariant 0 <= i <= |xs|
      invariant DistinctValues(r)
      invariant forall x :: x in r <==> x in xs[..i]
    {
      assert xs[..i + 1] == xs[..i] + [xs[i]];
      if xs[i] !in r {
        r := r + [xs[i]];
      }
      i := i + 1;
    }
    assert xs[..i] == xs;
  }

  const Unhashable := "unhashable type"

  /** `patch_input_preprocessing`: the written configuration and its final flags. */
  method PatchInputPreprocessing(deploy: seq<Entry>, normalizeCfgs: seq<seq<Entry>>)
    returns (r: Result<seq<Entry>>, flags: seq<Value>)
    ensures PlanPatch(deploy, normalizeCfgs).Err? ==> r == Err(PlanPatch(deploy, normalizeCfgs).error)
    ensures PlanPatch(deploy, normalizeCfgs).Ok? ==>
      var p := PlanPatch(deploy, normalizeCfgs).value;
      && (r.Err? <==> exists i | 0 <= i < |p.flags| :: !Hashable(p.flags[i]))
      && (r.Err? ==> r.error.TypeError?)
      && (r.Ok? ==>
            && r == Ok(WritePatch(deploy, p, flags))
            && DistinctValues(flags)
            && (forall x :: x in flags <==> x in p.flags))
  {
    var plan := PlanPatch(deploy, normalizeCfgs);
    if plan.Err? {
      return Err(plan.error), [];
    }
    if exists i | 0 <= i < |plan.value.flags| :: !Hashable(plan.value.flags[i]) {
      return Err(TypeError(Unhashable)), [];
    }
    flags := Deduplicate(plan.value.flags);
    r := Ok(WritePatch(deploy, plan.value, flags));
  }

  /** `_init_deploy_cfg`: `deploy` is the contents of `deployment.py` when
      the file exists. */
  method InitDeployCfg(deploy: Option<seq<Entry>>, normalizeCfgs: seq<seq<Entry>>)
    returns (r: Result<Option<seq<Entry>>>)
    ensures deploy.None? ==> r == Ok(None)
    ensures deploy.Some? && PlanPatch(deploy.value, normalizeCfgs).Err? ==>
      r == Err(PlanPatch(deploy.value, normalizeCfgs).error)
    ensures deploy.Some? && PlanPatch(deploy.value, normalizeCfgs).Ok? ==>
      var p := PlanPatch(deploy.value, normalizeCfgs).value;
      && (r.Ok? <==> Truthy(Get(p.backend, ModelInputsKey, List([]))) && forall i | 0 <= i < |p.flags| :: Hashable(p.flags[i]))
      && (r.Err? && (exists i | 0 <= i < |p.flags| :: !Hashable(p.flags[i])) ==> r.error.TypeError?)
      && (r.Err? && (forall i | 0 <= i < |p.flags| :: Hashable(p.flags[i])) ==> r.error.NotImplementedError?)
      && (r.Ok? ==> r.value.Some? && exists flags :: IsFinalFlags(flags, p.flags) && r.value.value == WritePatch(deploy.value, p, flags))
  {
    if deploy.None? {
      return Ok(None);
    }
    var patched, flags := PatchInputPreprocessing(deploy.value, normalizeCfgs);
    if patched.Err? {
      return Err(patched.error);
    }
    var plan := PlanPatch(deploy.value, normalizeCfgs).value;
    assert SubDict(patched.value, BackendKey).Some?;
    var backend := SubDict(patched.value, BackendKey).value;
    assert Lookup(backend, ModelInputsKey) == Lookup(plan.backend, ModelInputsKey);
    if !Truthy(Get(backend, ModelInputsKey, List([]))) {
      return Err(NotImplementedError(NoModelInputs));
    }
    assert IsFinalFlags(flags, plan.flags);
    r := Ok(Some(patched.value));
  }

  const NoModelInputs := "Video recognition task must specify model input info in deployment.py"

  /** `flags` is a duplicate-free list of the values of `planned`. */
  ghost predicate IsFinalFlags(flags: seq<Value>, planned: seq<Value>)
  {
    DistinctValues(flags) && forall x :: x in flags <==> x in planned
  }

  // ---------------------------------------------------------------------------
  // Override configurations
  // ---------------------------------------------------------------------------

  const CustomHooksKey := "custom_hooks"

  /** What `_init_task` does with the override configuration, in order. */
  datatype OverrideStep =
    | AddCustomHook(hook: seq<Entry>)       // update_or_add_custom_hook
    | MergeFromDict(options: seq<Entry>)    // recipe merge_from_dict

  /** One custom-hook step per listed hook, each hook turned into a `ConfigDict`. */
  function HookSteps(hooks: seq<Value>): Result<seq<OverrideStep>>
    decreases |hooks|
  {
    if hooks == [] then Ok([])
    else
      var hook :- ConfigDictOf(hooks[0]);
      var rest :- HookSteps(hooks[1..]);
      Ok([AddCustomHook(hook)] + rest)
  }

  /** The steps for an override configuration: its custom hooks, then a merge
      of whatever else it holds, skipped when nothing else is left. */
  function OverrideSteps(overrides: seq<Entry>): Result<seq<OverrideStep>>
  {
    var hooks :- match Lookup(overrides, CustomHooksKey)
      case None => Ok([])
      case Some(v) => (var items :- Items(v); HookSteps(items));
    var rest := Remove(overrides, CustomHooksKey);
    Ok(hooks + if |rest| > 0 then [MergeFromDict(rest)] else [])
  }

  /** The hooks succeed exactly when every hook converts to a `ConfigDict`;
      then there is one step per hook, in order, and otherwise the error is
      that of the first hook that does not convert. */
  lemma {:induction false} HookStepsSpec(hooks: seq<Value>)
    ensures HookSteps(hooks).Ok? <==> forall i | 0 <= i < |hooks| :: ConfigDictOf(hooks[i]).Ok?
    ensures HookSteps(hooks).Err? ==>
      exists i | 0 <= i < |hooks| ::
        && ConfigDictOf(hooks[i]).Err?
        && HookSteps(hooks).error == ConfigDictOf(hooks[i]).error
        && forall j | 0 <= j < i :: ConfigDictOf(hooks[j]).Ok?
    ensures HookSteps(hooks).Ok? ==>
      && |HookSteps(hooks).value| == |hooks|
      && forall i | 0 <= i < |hooks| :: HookSteps(hooks).value[i] == AddCustomHook(ConfigDictOf(hooks[i]).value)
    decreases |hooks|
  {
    if hooks != [] {
      HookStepsSpec(hooks[1..]);
      assert forall i | 1 <= i < |hooks| :: hooks[i] == hooks[1..][i - 1];
      if ConfigDictOf(hooks[0]).Ok? && HookSteps(hooks[1..]).Err? {
        var i :| 0 <= i < |hooks[1..]| && ConfigDictOf(hooks[1..][i]).Err?
                 && HookSteps(hooks[1..]).error == ConfigDictOf(hooks[1..][i]).error
                 && forall j | 0 <= j < i :: ConfigDictOf(hooks[1..][j]).Ok?;
        assert ConfigDictOf(hooks[i + 1]).Err?;
      }
    }
  }

  /** What `ConfigDict` makes of a hook: a falsy hook is an empty one, a
      dictionary is kept, a non-empty string is a ValueError and a number a
      TypeError. */
  lemma HookConversion(hook: Value)
    ensures !Truthy(hook) ==> ConfigDictOf(hook) == Ok([])
    ensures hook.Dict? && UniqueKeys(hook.entries) ==>
      ConfigDictOf(hook).Ok? && forall k :: Lookup(ConfigDictOf(hook).value, k) == Lookup(hook.entries, k)
    ensures hook.Str? && hook.s != "" ==> ConfigDictOf(hook).Err? && ConfigDictOf(hook).error.ValueError?
    ensures (hook.Int? || hook.Bool?) && Truthy(hook) ==> ConfigDictOf(hook).Err? && ConfigDictOf(hook).error.TypeError?
  {
  }

  /** The custom hooks come first and the merge, if any, last; the merge is
      made exactly when something other than `custom_hooks` is left, and it
      never carries `custom_hooks`. */
  lemma OverrideOrder(overrides: seq<Entry>)
    requires OverrideSteps(overrides).Ok?
    ensures
      var steps := OverrideSteps(overrides).value;
      var rest := Remove(overrides, CustomHooksKey);
      && (forall i | 0 <= i < |steps| && steps[i].MergeFromDict? :: i == |steps| - 1 && steps[i].options == rest)
      && (|rest| > 0 <==> |steps| > 0 && steps[|steps| - 1].MergeFromDict?)
      && !HasKey(rest, CustomHooksKey)
  {
    match Lookup(overrides, CustomHooksKey) {
      case Some(v) =>
        var items := Items(v).value;
        HookStepsSpec(items);
        assert forall i | 0 <= i < |HookSteps(items).value| :: HookSteps(items).value[i].AddCustomHook?;
      case None =>
    }
  }

  /** The task object, as far as `_init_task` changes it. */
  class MMActionTask {
    var overrideConfigs: seq<Entry>

    constructor(overrides: seq<Entry>)
      ensures overrideConfigs == overrides
    {
      overrideConfigs := overrides;
    }

    /** The override part of `_init_task`: `custom_hooks` is popped, whether
        or not its hooks can then be applied, and the steps are returned. */
    method ApplyOverrides() returns (steps: Result<seq<OverrideStep>>)
      modifies this
      ensures overrideConfigs == Remove(old(overrideConfigs), CustomHooksKey)
      ensures steps == OverrideSteps(old(overrideConfigs))
    {
      var hooks := Lookup(overrideConfigs, CustomHooksKey);
      overrideConfigs := Remove(overrideConfigs, CustomHooksKey);
      var hookSteps: seq<OverrideStep> := [];
      if hooks.Some? {
        var iterated := Items(hooks.value);
        if iterated.Err? {
          return Err(iterated.error);
        }
        var converted := ConvertHooks(iterated.value);
        if converted.Err? {
          return Err(converted.error);
        }
        hookSteps := converted.value;
      }
      var merge := if |overrideConfigs| > 0 then [MergeFromDict(overrideConfigs)] else [];
      steps := Ok(hookSteps + merge);
    }
  }

  /** The loop over the custom hooks: each is turned into a `ConfigDict`
      and becomes one step, and the first that does not convert stops it. */
  method ConvertHooks(items: seq<Value>) returns (r: Result<seq<OverrideStep>>)
    ensures r == HookSteps(items)
  {
    var hookSteps: seq<OverrideStep> := [];
    var i := 0;
    assert items[0..] == items;
    assert HookSteps(items).Ok? ==> [] + HookSteps(items).value == HookSteps(items).value;
    while i < |items|
      invariant 0 <= i <= |items|
      invariant HookSteps(items[i..]).Ok? ==> HookSteps(items) == Ok(hookSteps + HookSteps(items[i..]).value)
      invariant HookSteps(items[i..]).Err? ==> HookSteps(items) == HookSteps(items[i..])
    {
      HookStepsAt(items, i);
      var hook := ConfigDictOf(items[i]);
      if hook.Err? {
        return Err(hook.error);
      }
      if HookSteps(items[i + 1..]).Ok? {
        var rest := HookSteps(items[i + 1..]).value;
        assert hookSteps + [AddCustomHook(hook.value)] + rest == hookSteps + ([AddCustomHook(hook.value)] + rest);
      }
      hookSteps := hookSteps + [AddCustomHook(hook.value)];
      i := i + 1;
    }
    assert hookSteps + [] == hookSteps;
    r := Ok(hookSteps);
  }

  /** The hooks from position `i` on: the hook at `i`, then the rest. */
  lemma HookStepsAt(items: seq<Value>, i: nat)
    requires i < |items|
    ensures HookSteps(items[i..]) ==
      match ConfigDictOf(items[i])
      case Err(e) => Err(e)
      case Ok(h) =>
        match HookSteps(items[i + 1..])
        case Err(e) => Err(e)
        case Ok(rest) => Ok([AddCustomHook(h)] + rest)
  {
    assert items[i..][1..] == items[i + 1..];
  }

  /** After one `_init_task` the overrides hold no hooks, so a later one
      applies none and merges the same remainder again. */
  lemma OverridesHooksOnce(overrides: seq<Entry>)
    ensures
      var rest := Remove(overrides, CustomHooksKey);
      OverrideSteps(rest) == Ok(if |rest| > 0 then [MergeFromDict(rest)] else [])
  {
    var rest := Remove(overrides, CustomHooksKey);
    RemoveTwice(overrides, CustomHooksKey);
    assert Lookup(rest, CustomHooksKey) == None;
    var tail := if |rest| > 0 then [MergeFromDict(rest)] else [];
    assert [] + tail == tail;
  }

  lemma {:induction false} RemoveTwice(entries: seq<Entry>, key: string)
    ensures Remove(Remove(entries, key), key) == Remove(entries, key)
    decreases entries
  {
    if entries != [] {
      RemoveTwice(entries[1..], key);
      if entries[0].key != key {
        assert Remove(entries, key)[1..] == Remove(entries[1..], key);
      }
    }
  }

  // ---------------------------------------------------------------------------
  // Training and inference results
  // ---------------------------------------------------------------------------

  const TaskAdaptKey := "task_adapt"
  const FinalKey := "final"
  const OtxDatasetKey := "otx_dataset"
  const LatestCheckpoint := "latest.pth"

  /** A dataset handed to the task: an identity and how many items it has. */
  datatype DatasetRef = DatasetRef(id: nat, size: nat)

  /** The configuration of one subset: its dataset and the labels. */
  function SubsetData(dataset: DatasetRef, labels: Value): Value
  {
    Dict([Entry(OtxDatasetKey, Object(dataset.id)), Entry(LabelsKey, labels)])
  }

  /** `_train_model` writes an entry for a subset only when its dataset is non-empty. */
  function AddSubsetData(data: seq<Entry>, key: string, dataset: DatasetRef, labels: Value): seq<Entry>
  {
    if dataset.size > 0 then Set(data, key, SubsetData(dataset, labels))
    else data
  }

  /** The data configuration of `_train_model`: an entry for each non-empty
      subset among training, validation and unlabeled, each holding the labels. */
  function TrainDataCfg(train: DatasetRef, val: DatasetRef, unlabeled: DatasetRef, labels: Value): (r: seq<Entry>)
    ensures HasKey(r, "train") <==> train.size > 0
    ensures HasKey(r, "val") <==> val.size > 0
    ensures HasKey(r, "unlabeled") <==> unlabeled.size > 0
    ensures forall k | HasKey(r, k) ::
      Lookup(r, k).value.Dict? && Lookup(Lookup(r, k).value.entries, LabelsKey) == Some(labels)
    ensures forall k | k != "train" && k != "val" && k != "unlabeled" :: !HasKey(r, k)
    ensures train.size > 0 ==> Lookup(r, "train") == Some(SubsetData(train, labels))
    ensures val.size > 0 ==> Lookup(r, "val") == Some(SubsetData(val, labels))
    ensures unlabeled.size > 0 ==> Lookup(r, "unlabeled") == Some(SubsetData(unlabeled, labels))
  {
    AddSubsetData(AddSubsetData(AddSubsetData([], "train", train, labels), "val", val, labels), "unlabeled", unlabeled, labels)
  }

  /** The data configuration of `_infer_model`: an empty training subset and
      the dataset to predict on as the test subset. */
  function InferDataCfg(dataset: DatasetRef, labels: Value): (r: seq<Entry>)
    ensures Lookup(r, "test") == Some(SubsetData(dataset, labels))
    ensures Lookup(r, "train") == Some(Dict([Entry(OtxDatasetKey, Null), Entry(LabelsKey, labels)]))
  {
    [Entry("train", Dict([Entry(OtxDatasetKey, Null), Entry(LabelsKey, labels)])),
     Entry("test", Dict([Entry(OtxDatasetKey, Object(dataset.id)), Entry(LabelsKey, labels)]))]
  }

  /** The classes `_infer_model` gives the model: `task_adapt.final` when the
      configuration adapts the task, and the dataset's classes otherwise. */
  function InferTargetClasses(cfg: seq<Entry>, datasetClasses: Value): Result<Value>
  {
    match Lookup(cfg, TaskAdaptKey)
    case None => Ok(datasetClasses)
    case Some(Dict(adapt)) =>
      (match Lookup(adapt, FinalKey)
       case None => Err(AttributeError(FinalKey))
       case Some(final) =>
         match Len(final)
         case None => Err(TypeError("object has no len()"))
         case Some(n) => if n < 1 then Err(KeyError("target_classes is empty")) else Ok(final))
    case Some(_) => Err(AttributeError(FinalKey))
  }

  /** The classes `_train_model` gives the model: `task_adapt.final`, or an
      empty list when it is missing, or the dataset's classes. */
  function TrainTargetClasses(cfg: seq<Entry>, datasetClasses: Value): Result<Value>
  {
    match Lookup(cfg, TaskAdaptKey)
    case None => Ok(datasetClasses)
    case Some(Dict(adapt)) => Ok(Get(adapt, FinalKey, List([])))
    case Some(_) => Err(AttributeError("get"))
  }

  /** Inference refuses an empty `task_adapt.final` with a `KeyError` where
      training accepts it, and whenever inference picks classes, training
      picks the same ones. */
  lemma TargetClassesAgree(cfg: seq<Entry>, datasetClasses: Value)
    ensures InferTargetClasses(cfg, datasetClasses).Ok? ==>
      TrainTargetClasses(cfg, datasetClasses) == InferTargetClasses(cfg, datasetClasses)
    ensures InferTargetClasses(cfg, datasetClasses).Err? && InferTargetClasses(cfg, datasetClasses).error.KeyError?
      <==> SubDict(cfg, TaskAdaptKey).Some?
           && Lookup(SubDict(cfg, TaskAdaptKey).value, FinalKey).Some?
           && Len(Lookup(SubDict(cfg, TaskAdaptKey).value, FinalKey).value) == Some(0)
    ensures InferTargetClasses(cfg, datasetClasses).Err? && InferTargetClasses(cfg, datasetClasses).error.KeyError? ==>
      TrainTargetClasses(cfg, datasetClasses).Ok?
      && Len(TrainTargetClasses(cfg, datasetClasses).value) == Some(0)
  {
  }

  /** The checkpoint `_train_model` reports: the first `best_*.pth` found in
      the work directory, or `latest.pth` there. */
  function FinalCheckpoint(workDir: string, bestCheckpoints: seq<string>): (r: string)
    ensures bestCheckpoints != [] ==> r in bestCheckpoints
    ensures bestCheckpoints == [] ==>
      && |r| >= |workDir| + |LatestCheckpoint|
      && r[..|workDir|] == workDir
      && r[|r| - |LatestCheckpoint|..] == LatestCheckpoint
  {
    if bestCheckpoints != [] then bestCheckpoints[0] else JoinPath(workDir, LatestCheckpoint)
  }

  /** `os.path.join(dir, name)` for a relative `name`. */
  function JoinPath(dir: string, name: string): string
  {
    if dir == [] || dir[|dir| - 1] == '/' then dir + name else dir + "/" + name
  }

  /** The per-batch outputs one after the other. */
  function Flatten<R>(batches: seq<seq<R>>): seq<R>
    decreases |batches|
  {
    if batches == [] then [] else Flatten(batches[..|batches| - 1]) + batches[|batches| - 1]
  }

  /** One prediction with the feature vector and saliency map it is zipped with. */
  datatype Prediction<R> = Prediction(result: R, featureVector: Value, saliencyMap: Value)

  /** The inference loop of `_infer_model`: the results of each batch extend
      the predictions, while the feature-vector and saliency-map hooks, which
      fire once per forward pass, each append one `None`. The predictions are
      then zipped with both lists after their lengths are asserted equal. */
  method CollectPredictions<R>(outputs: seq<seq<R>>) returns (r: Result<seq<Prediction<R>>>)
    ensures r.Ok? <==> |Flatten(outputs)| == |outputs|
    ensures r.Err? ==> r.error.AssertionError?
    ensures r.Ok? ==>
      && |r.value| == |Flatten(outputs)|
      && forall i | 0 <= i < |r.value| :: r.value[i] == Prediction(Flatten(outputs)[i], Null, Null)
  {
    var predictions: seq<R> := [];
    var featureVectors: seq<Value> := [];
    var saliencyMaps: seq<Value> := [];
    var i := 0;
    while i < |outputs|
      invariant 0 <= i <= |outputs|
      invariant predictions == Flatten(outputs[..i])
      invariant |featureVectors| == i && forall j | 0 <= j < i :: featureVectors[j] == Null
      invariant |saliencyMaps| == i && forall j | 0 <= j < i :: saliencyMaps[j] == Null
    {
      assert outputs[..i + 1][..i] == outputs[..i];
      predictions := predictions + outputs[i];
      featureVectors := featureVectors + [Null];
      saliencyMaps := saliencyMaps + [Null];
      i := i + 1;
    }
    assert outputs[..i] == outputs;
    if |predictions| != |featureVectors| {
      return Err(AssertionError("len(eval_predictions) == len(feature_vectors)"));
    }
    if |predictions| != |saliencyMaps| {
      return Err(AssertionError("len(eval_predictions) == len(saliency_maps)"));
    }
    r := Ok(seq(|predictions|, j requires 0 <= j < |predictions| => Prediction(predictions[j], featureVectors[j], saliencyMaps[j])));
  }

  /** When every batch yields at least one result, there are at least as
      many predictions as batches, and exactly as many only when every batch
      yields exactly one. */
  lemma {:induction false} FlattenCount<R>(outputs: seq<seq<R>>)
    requires forall b | 0 <= b < |outputs| :: |outputs[b]| >= 1
    ensures |Flatten(outputs)| >= |outputs|
    ensures |Flatten(outputs)| == |outputs| <==> forall b | 0 <= b < |outputs| :: |outputs[b]| == 1
    decreases |outputs|
  {
    if outputs != [] {
      var init := outputs[..|outputs| - 1];
      assert forall b | 0 <= b < |init| :: init[b] == outputs[b];
      FlattenCount(init);
    }
  }
}
