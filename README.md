# Task-adapter logic of OpenVINO Training Extensions, in Dafny

This project models three pieces of logic in the task adapters. Each is stated in Dafny and proved.

- **Class-aware checkpoint loading for the custom Mask R-CNN detector.**
  - When a detector is built with `task_adapt`, it registers a load-state-dict pre-hook.
  - The pre-hook rewrites the four class-dependent box-head parameters of an incoming checkpoint:
    - `fc_cls.weight` and `fc_cls.bias`: one row per class;
    - `fc_reg.weight` and `fc_reg.bias`: four rows per class.
  - Each rewritten parameter is a clone of the model's own parameter.
  - Into the clone, the pre-hook copies the checkpoint rows of every matched class, and of the background class when there is one.
  - Tensors are sequences of rows of an opaque element type.
  - The mixing is an array algorithm (`MixWeights`).
  - The pre-hook is a method of the detector class that updates the checkpoint's state dict in place.
- **Configuration shaping of the video action task (mmaction backend).** This covers:
  - the search for the largest `workers_per_gpu` that picks the caching mode;
  - `configure`: run settings, the dataset type and labels of every data subset (labels go into the innermost dictionary of the nested `dataset` chain), class counts of the classification or detection head, the `samples_per_gpu` → `videos_per_gpu` rename, and `load_from`;
  - the model-optimizer options derived from the `Normalize` step and merged into `deployment.py`;
  - the override handling of `_init_task`;
  - the target-class and result rules of training and inference.

  Configurations are ordered dictionaries (module `ConfigTree`) kept as entry sequences. Reading takes the first entry with a key, which is the only one in a dictionary that Python built.
- **Decisions of the OpenVINO detection task.** This covers:
  - which inferencer `load_inferencer` builds for a task type and the tiling flags;
  - the guards of the tile-classifier wrapper;
  - when a `background` label is added to the labels that a saliency map is explained against;
  - which entries the deployment archive holds;
  - the guards and the output model of POT quantisation.

Every operation returns either its result or the Python exception it raises (`Results.Result`).

Modules:
- `Results`: options, results and the exception kinds.
- `ConfigTree`: dictionaries, lookup, assignment, `pop` and `update`.
- `MaskRcnnWeights`
- `ActionTask`
- `OpenVinoDetection`

## Model

Source paths are relative to the repository root.

| member | source | states |
|---|---|---|
| ConfigTree.LookupFirst | otx/algorithms/action/adapters/mmaction/task.py:170 | Reading a key gives the value of its first entry, and nothing exactly when no entry has the key. |
| ConfigTree.Set | otx/algorithms/action/adapters/mmaction/task.py:173 | After an assignment, the key reads as the new value and every other key reads as before. |
| ConfigTree.Remove | otx/algorithms/action/adapters/mmaction/task.py:185 | After a `pop`, the key is absent and every other key reads as before. |
| ConfigTree.Update | otx/algorithms/action/adapters/mmaction/task.py:487 | After `d.update(other)`, every key of `other` reads as `other`'s value (given `other`'s keys are distinct), and every other key reads as in `d`. |
| ConfigTree.Items | otx/algorithms/action/adapters/mmaction/task.py:93-94 | A `for` loop visits a list's items, a string's characters or a dictionary's keys, as many as `len` counts. Any other value is a TypeError. |
| ConfigTree.PairEntry | otx/algorithms/action/adapters/mmaction/task.py:487 | A key/value item must have length 2: a non-iterable item is a TypeError, and an item of another length a ValueError. |
| ConfigTree.Pairs | otx/algorithms/action/adapters/mmaction/task.py:487 | A sequence of pairs converts exactly when every item does, one entry per item, in order. Otherwise its error is that of a failing item. |
| ConfigTree.UpdatePairs | otx/algorithms/action/adapters/mmaction/task.py:487 | `dict.update` takes a dictionary's entries, or the pairs of a list. Only the empty string passes (ValueError otherwise), and a number, `None` or an opaque object is a TypeError. |
| ConfigTree.ConfigDictOf | otx/algorithms/action/adapters/mmaction/task.py:95 | `ConfigDict(v)` is empty for a falsy `v` and has the same entries as a dictionary `v`. Otherwise it converts exactly when `dict.update` would accept `v`, with the same error. |
| MaskRcnnWeights.ClassParamsDistinct | otx/mpa/modules/models/detectors/custom_maskrcnn_detector.py:49-54 | The four class parameters (stride 1 for `fc_cls`, stride 4 for `fc_reg`) have distinct names. |
| MaskRcnnWeights.Mixed | otx/mpa/modules/models/detectors/custom_maskrcnn_detector.py:63-72 | The mixed tensor has as many rows as the model's parameter. |
| MaskRcnnWeights.MatchedBlockCopied | otx/mpa/modules/models/detectors/custom_maskrcnn_detector.py:65-68 | For a model class `m` mapped to checkpoint class `c >= 0`, row `j` of block `m` is row `j` of checkpoint block `c`. |
| MaskRcnnWeights.UnmatchedBlockKept | otx/mpa/modules/models/detectors/custom_maskrcnn_detector.py:63-66 | An unmatched model class (`c < 0`) keeps the model's own rows, because the result starts as a clone. |
| MaskRcnnWeights.BackgroundBlockCopied | otx/mpa/modules/models/detectors/custom_maskrcnn_detector.py:69-72 | When the parameter has more rows than the model classes own, block `len(model_classes)` comes from checkpoint block `len(chkpt_classes)`. |
| MaskRcnnWeights.TrailingRowsKept | otx/mpa/modules/models/detectors/custom_maskrcnn_detector.py:63-72 | Rows past the class blocks and the background block keep the model's values. |
| MaskRcnnWeights.CopyBlock | otx/mpa/modules/models/detectors/custom_maskrcnn_detector.py:68 | The slice copy overwrites exactly the destination rows with the source rows; every other row is unchanged. |
| MaskRcnnWeights.MixWeights | otx/mpa/modules/models/detectors/custom_maskrcnn_detector.py:63-72 | Cloning and the loop of block copies, on an array, produce exactly `Mixed`. |
| MaskRcnnWeights.CheckpointAfter | otx/mpa/modules/models/detectors/custom_maskrcnn_detector.py:56-75 | Processing class parameters never adds or removes checkpoint entries. |
| MaskRcnnWeights.EntryUntouched | otx/mpa/modules/models/detectors/custom_maskrcnn_detector.py:56-75 | An entry named by none of the prefixed class parameters keeps its tensor. |
| MaskRcnnWeights.EntryOfParam | otx/mpa/modules/models/detectors/custom_maskrcnn_detector.py:56-75 | A listed parameter's entry ends as the mixed tensor when the model has the parameter, and as the checkpoint's own tensor otherwise. |
| MaskRcnnWeights.CheckpointStep | otx/mpa/modules/models/detectors/custom_maskrcnn_detector.py:56-75 | One iteration of the parameter loop changes only its own entry (to the mixed tensor) when it applies, and changes nothing when it is skipped. |
| MaskRcnnWeights.EntryStep | otx/mpa/modules/models/detectors/custom_maskrcnn_detector.py:56-75 | Processing one more parameter rewrites only that parameter's entry, and only when the model has the parameter. Every other entry is as it was before. |
| MaskRcnnWeights.EntryBeforeParam | otx/mpa/modules/models/detectors/custom_maskrcnn_detector.py:56-75 | Because the parameter names are distinct, the iterations before a parameter leave its checkpoint entry at the original tensor. |
| MaskRcnnWeights.HookTouchesOnlyClassParams | otx/mpa/modules/models/detectors/custom_maskrcnn_detector.py:49-75 | The pre-hook keeps the checkpoint's key set, and keeps every entry that is not one of the four prefixed class parameters. |
| MaskRcnnWeights.HookSkipsMissing | otx/mpa/modules/models/detectors/custom_maskrcnn_detector.py:56-60 | A class parameter missing from the model dict leaves its checkpoint entry unchanged. |
| MaskRcnnWeights.HookMixesPresent | otx/mpa/modules/models/detectors/custom_maskrcnn_detector.py:63-75 | A class parameter present in both dicts is replaced by the mixed tensor, which has the model parameter's row count. |
| MaskRcnnWeights.RegisteredHook | otx/mpa/modules/models/detectors/custom_maskrcnn_detector.py:26-34 | A hook is registered exactly when `task_adapt` is truthy and holds both class lists, with `dst_classes` as the model classes and `src_classes` as the checkpoint classes. A truthy `task_adapt` missing either list is a KeyError. |
| MaskRcnnWeights.CustomMaskRcnn.constructor | otx/mpa/modules/models/detectors/custom_maskrcnn_detector.py:22-34 | The detector keeps its state dict and carries the registered hook's class lists. |
| MaskRcnnWeights.CustomMaskRcnn.LoadStateDictPreHook | otx/mpa/modules/models/detectors/custom_maskrcnn_detector.py:37-75 | The checkpoint's state dict becomes `HookResult` of its old entries. The model's own state dict is unchanged. |
| MaskRcnnWeights.CustomMaskRcnn.RunPreHooks | otx/mpa/modules/models/detectors/custom_maskrcnn_detector.py:27-34 | Without a registered hook the checkpoint is unchanged. With one, it is rewritten by the hook's class lists. |
| ActionTask.MaxNumWorkers | otx/algorithms/action/adapters/mmaction/task.py:501-509 | The maximum number of workers is never negative. |
| ActionTask.SettingBelowMax | otx/algorithms/action/adapters/mmaction/task.py:501-509 | Every integer `workers_per_gpu` at any depth of nested dicts is at most the maximum. |
| ActionTask.MaxAttained | otx/algorithms/action/adapters/mmaction/task.py:501-509 | A positive maximum is one of those settings; the lemma returns where it is. |
| ActionTask.CachingModeFollowsWorkers | otx/algorithms/action/adapters/mmaction/task.py:511-520 | The caching mode is multiprocessing exactly when some `workers_per_gpu` setting is positive. The cache size is 0 without the hyperparameter. |
| ActionTask.ChainDepth | otx/algorithms/action/adapters/mmaction/task.py:174-175 | Following that many `dataset` keys reaches a dictionary without a `dataset` key. |
| ActionTask.LabelInnermost | otx/algorithms/action/adapters/mmaction/task.py:174-176 | The `while "dataset" in _cfg` descent followed by the label write computes `WithLabels`, including the exception raised when the chain hits a non-dictionary. |
| ActionTask.ReplaceInnermost | otx/algorithms/action/adapters/mmaction/task.py:174-176 | Replacing the innermost dictionary keeps the chain's length and leaves the other top-level keys alone. |
| ActionTask.WithLabelsSpec | otx/algorithms/action/adapters/mmaction/task.py:173-176 | Storing labels fails exactly when the chain fails, with the same error. Otherwise the innermost dictionary holds the labels and keeps its other keys, the chain keeps its length, and the top-level keys off the chain are kept. |
| ActionTask.ChainDepthIgnoresOtherKeys | otx/algorithms/action/adapters/mmaction/task.py:173-174 | Writing `type` (or any key other than `dataset`) does not change the chain. |
| ActionTask.PrepareSubsetSpec | otx/algorithms/action/adapters/mmaction/task.py:170-176 | One subset is prepared exactly when it is falsy, or it is a dictionary with a sound chain. A prepared subset carries the dataset type and the labels innermost. A falsy one is skipped. Other keys are kept. |
| ActionTask.SubsetsOkIff | otx/algorithms/action/adapters/mmaction/task.py:169-176 | The subset loop succeeds exactly when every listed subset can be prepared. |
| ActionTask.SubsetsPrepared | otx/algorithms/action/adapters/mmaction/task.py:169-176 | After the subset loop, every truthy subset is prepared, every falsy one is unchanged, and every unlisted key is kept. |
| ActionTask.SubsetErrorSticks | otx/algorithms/action/adapters/mmaction/task.py:169-176 | The first failing subset decides the error. |
| ActionTask.SubsetsDistinct | otx/algorithms/action/adapters/mmaction/task.py:169 | The four subset names are distinct and are neither `samples_per_gpu` nor `videos_per_gpu`. |
| ActionTask.PrepareOne | otx/algorithms/action/adapters/mmaction/task.py:170-176 | The loop body computes `PrepareSubset`. |
| ActionTask.PrepareSubsetsLoop | otx/algorithms/action/adapters/mmaction/task.py:169-176 | The subset loop over train/val/test/unlabeled computes `PrepareSubsets`. |
| ActionTask.DictAt | otx/algorithms/action/adapters/mmaction/task.py:170 | A configuration section is available exactly when it is present and is a dictionary. A missing one is an AttributeError naming it. A present one that is not a dictionary fails as its first use does: AttributeError(`get`) for `data`, TypeError for `model`. |
| ActionTask.ClassificationCount | otx/algorithms/action/adapters/mmaction/task.py:178-179 | Classification sets `cls_head.num_classes = len(labels)` and changes nothing else in the model. It fails exactly when `cls_head` is not a dictionary. |
| ActionTask.DetectionCount | otx/algorithms/action/adapters/mmaction/task.py:180-183 | Detection sets `roi_head.bbox_head.num_classes = len(labels)+1`. It sets `topk = len(labels)-1` only with fewer than 5 labels. It changes nothing else, and fails exactly when either head is not a dictionary. |
| ActionTask.RunSettingsWritten | otx/algorithms/action/adapters/mmaction/task.py:157-160 | `work_dir`, `resume`, `distributed = False` and `omnisource = False` are written, and `data`, `model` and `load_from` are kept. |
| ActionTask.BatchSizeMoved | otx/algorithms/action/adapters/mmaction/task.py:185 | `samples_per_gpu` is gone, and `videos_per_gpu` holds its value or `None`. Nothing else changes. |
| ActionTask.AssembleWritten | otx/algorithms/action/adapters/mmaction/task.py:185-192 | The final writes leave the prepared data with its batch size moved, the counted model, and `load_from` written only when a checkpoint is given. |
| ActionTask.Configure | otx/algorithms/action/adapters/mmaction/task.py:155-195 | `configure`, step by step, computes `ConfigureSpec`. |
| ActionTask.ConfigureParts | otx/algorithms/action/adapters/mmaction/task.py:155-195 | `configure` succeeds exactly when each stage does, and its result is the assembly of the stages. |
| ActionTask.ConfigureOkIff | otx/algorithms/action/adapters/mmaction/task.py:165-185 | `configure` succeeds exactly when `data` is a dictionary whose present subsets can all be prepared, and `model` has the head the task type needs. |
| ActionTask.ConfigureSettings | otx/algorithms/action/adapters/mmaction/task.py:157-192 | After `configure`, the run settings are written, the model holds the class count, and `load_from` is overwritten only when a checkpoint is set. |
| ActionTask.ConfigureData | otx/algorithms/action/adapters/mmaction/task.py:169-185 | After `configure`, every present subset has the dataset type and the labels innermost, and absent subsets are unchanged. `samples_per_gpu` has become `videos_per_gpu`. |
| ActionTask.DerivedFromNormalize | otx/algorithms/action/adapters/mmaction/task.py:468-474 | `--reverse_input_channels` is requested exactly when `to_rgb` is truthy. `--mean_values`/`--scale_values` are present exactly when `mean`/`std` are not `None`, and hold them as lists. No other argument is derived. |
| ActionTask.PlanPatchSpec | otx/algorithms/action/adapters/mmaction/task.py:451-490 | Exactly one `Normalize` step is required (otherwise AssertionError). Arguments already in `mo_options.args` win and derived ones fill in the rest. The flags before de-duplication are exactly the old and the derived ones. |
| ActionTask.Deduplicate | otx/algorithms/action/adapters/mmaction/task.py:491 | The result holds each value of the input exactly once, and nothing else. |
| ActionTask.PatchInputPreprocessing | otx/algorithms/action/adapters/mmaction/task.py:450-491 | Every failure of the plan is passed on. A list or dictionary among the flags makes `set()` raise TypeError. Otherwise the patched deployment configuration carries the merged arguments and duplicate-free flags holding every old and new flag. |
| ActionTask.InitDeployCfg | otx/algorithms/action/adapters/mmaction/task.py:443-497 | Without `deployment.py` the result is `None`. Unhashable flags raise TypeError, and a falsy `model_inputs` raises NotImplementedError. Otherwise the result is the patched configuration. |
| ActionTask.HookStepsSpec | otx/algorithms/action/adapters/mmaction/task.py:92-95 | The hooks succeed exactly when every hook converts to a `ConfigDict`. Then each hook becomes one custom-hook step, in order. Otherwise the error is that of the first hook that does not convert. |
| ActionTask.HookConversion | otx/algorithms/action/adapters/mmaction/task.py:95 | `ConfigDict(hook)` of a falsy hook (`None`, `0`, `""`, `[]`) is an empty dictionary, and of a dictionary has the same entries. A non-empty string is a ValueError, and a non-zero number a TypeError. |
| ActionTask.ConvertHooks | otx/algorithms/action/adapters/mmaction/task.py:93-95 | The loop over the custom hooks computes `HookSteps`, stopping at the first hook that does not convert. |
| ActionTask.OverrideOrder | otx/algorithms/action/adapters/mmaction/task.py:92-98 | Custom hooks are applied before the merge. The merge happens exactly when something besides `custom_hooks` remains, and it never carries `custom_hooks`. |
| ActionTask.MMActionTask.ApplyOverrides | otx/algorithms/action/adapters/mmaction/task.py:92-98 | `custom_hooks` is popped from the task's override configuration, and the returned steps are `OverrideSteps` of the old configuration. |
| ActionTask.OverridesHooksOnce | otx/algorithms/action/adapters/mmaction/task.py:92-98 | After the pop, a second application adds no hooks and merges the same remainder. |
| ActionTask.TrainDataCfg | otx/algorithms/action/adapters/mmaction/task.py:204-215 | The training data configuration has an entry for train/val/unlabeled exactly when that subset is non-empty, and no other entry. Each entry holds that subset's own dataset as `otx_dataset`, and the labels. |
| ActionTask.InferDataCfg | otx/algorithms/action/adapters/mmaction/task.py:291-302 | Inference uses an empty training subset and the given dataset as `test`, both with the labels. |
| ActionTask.TargetClassesAgree | otx/algorithms/action/adapters/mmaction/task.py:326-335 | Inference raises KeyError exactly for an empty `task_adapt.final`, where training (lines 241-244) accepts it. Whenever inference picks classes, training picks the same ones. |
| ActionTask.FinalCheckpoint | otx/algorithms/action/adapters/mmaction/task.py:277-280 | The reported checkpoint is a found `best_*.pth`, or otherwise `latest.pth` in the work directory. |
| ActionTask.CollectPredictions | otx/algorithms/action/adapters/mmaction/task.py:360-403 | Inference returns one triple per prediction exactly when the predictions are as many as the forward passes. Otherwise it is an AssertionError. Feature vectors and saliency maps are `None`. |
| ActionTask.FlattenCount | otx/algorithms/action/adapters/mmaction/task.py:384-402 | With non-empty batches, there are at least as many predictions as batches. There are exactly as many, which is when the length assertions hold, only when every batch yields one. |
| OpenVinoDetection.BaseInferencerFor | otx/algorithms/detection/adapters/openvino/task.py:403-408 | DETECTION gives the detection inferencer, INSTANCE_SEGMENTATION the mask one, ROTATED_DETECTION the rotated-rectangle one, and any other type none. The model files are passed through. |
| OpenVinoDetection.TileClassifierWrapper | otx/algorithms/detection/adapters/openvino/task.py:283-305 | A mode other than `async`/`sync` is an AssertionError. A classifier is built exactly when either file is given. Masks are tiled exactly for the mask and rotated-rectangle converters. The inner converter and model are kept. |
| OpenVinoDetection.LoadModelFilesSpec | otx/algorithms/detection/adapters/openvino/task.py:390-402 | Without a model the load is a RuntimeError. Otherwise it succeeds exactly when the threshold is stored and decodes, and both IR files are stored. It yields those files. |
| OpenVinoDetection.DecodeThreshold | otx/algorithms/detection/adapters/openvino/task.py:393-395 | The stored threshold decodes exactly when it holds a positive whole number of four-byte floats. Otherwise it is a ValueError (a partial float) or an IndexError (no float). |
| OpenVinoDetection.LoadInferencerOkIff | otx/algorithms/detection/adapters/openvino/task.py:390-434 | `load_inferencer` succeeds exactly on loadable tasks. A loadable task has a model with a decodable threshold and the IR files, a supported task type, and the tile-classifier files when tiling and the classifier are on. Without a model it is a RuntimeError. |
| OpenVinoDetection.LoadInferencerBuilds | otx/algorithms/detection/adapters/openvino/task.py:403-423 | The base inferencer follows the task type over the stored IR files, and it is wrapped exactly when tiling is enabled. |
| OpenVinoDetection.LoadInferencerTiler | otx/algorithms/detection/adapters/openvino/task.py:409-423 | The wrapper is asynchronous with the configured tile size and maximum. It tiles masks except for detection. It has a classifier (over the stored tile-classifier files) exactly when the tile classifier is enabled. |
| OpenVinoDetection.LoadInferencerRejectsUnknownType | otx/algorithms/detection/adapters/openvino/task.py:424-433 | An unsupported task type never yields an inferencer. With the model files present, it is the RuntimeError for an unknown task type. |
| OpenVinoDetection.LoadInferencerAgrees | otx/algorithms/detection/adapters/openvino/task.py:403-433 | The code as written and the corrected load agree on every supported task type. |
| OpenVinoDetection.LoadInferencerAsWrittenUnbound | otx/algorithms/detection/adapters/openvino/task.py:403-424 | As written, an unsupported type with a complete model ends in an unbound-local error. |
| OpenVinoDetection.LoadInferencerAsWrittenExample | otx/algorithms/detection/adapters/openvino/task.py:403-433 | A classification task without tiling: UnboundLocalError as written, and the RuntimeError when corrected. |
| OpenVinoDetection.SaliencyLabels | otx/algorithms/detection/adapters/openvino/task.py:467-470 | The result starts with the task's labels unchanged. It gains exactly one trailing `background` label exactly when the map has `len(labels)+1` rows. |
| OpenVinoDetection.SaliencyLabelsCoverRows | otx/algorithms/detection/adapters/openvino/task.py:467-470 | A map with one row per label, or one more, gets one label per row. |
| OpenVinoDetection.InferSaliencyLabels | otx/algorithms/detection/adapters/openvino/task.py:444-470 | `infer` explains an item exactly when saliency maps are added (not evaluating) and the item has a map, against `SaliencyLabels`. |
| OpenVinoDetection.ExplainSaliencyLabels | otx/algorithms/detection/adapters/openvino/task.py:510-525 | `explain` fails with a RuntimeError exactly when some item has no saliency map. Otherwise each item is explained against `SaliencyLabels`. |
| OpenVinoDetection.DemoEntries | otx/algorithms/detection/adapters/openvino/task.py:585-604 | One entry per demo or wrapper file, in order. The entry for `n` is `python/n`, packaging `n`. |
| OpenVinoDetection.PythonEntries | otx/algorithms/detection/adapters/openvino/task.py:585-604 | The `python/` part of the archive holds `python/model_wrappers/<f>` for each wrapper file in walk order, then the four demo files under `python/`. |
| OpenVinoDetection.DeployLayout | otx/algorithms/detection/adapters/openvino/task.py:574-604 | The archive in order: `model/model.xml` and `model/model.bin`, then the tile-classifier files when used, then `model/config.json`. After those come `python/model_wrappers/<f>` for each wrapper file in walk order, and the four demo files under `python/`. |
| OpenVinoDetection.DeployOkIff | otx/algorithms/detection/adapters/openvino/task.py:574-580 | Deploying succeeds exactly when the model holds the IR files, and the tile-classifier files when tiling and the classifier are on. Without a model it is a ValueError. |
| OpenVinoDetection.DeployEntries | otx/algorithms/detection/adapters/openvino/task.py:574-604 | The archive always holds `model/model.xml`, `model/model.bin` (the stored bytes) and `model/config.json`. It holds `model/tile_classifier.{xml,bin}` exactly when tiling and the tile classifier are both enabled. |
| OpenVinoDetection.DeployAfterLoad | otx/algorithms/detection/adapters/openvino/task.py:574-580 | Every task that loads also deploys. |
| OpenVinoDetection.PotSettingsFor | otx/algorithms/detection/adapters/openvino/task.py:644-662 | `stat_subset_size` is the smaller of the configured size and the training-subset size. `stat_requests_number` is the smaller of the configured number and the CPU count. |
| OpenVinoDetection.OptimizeRejects | otx/algorithms/detection/adapters/openvino/task.py:618-639 | A non-POT type is a ValueError, a missing model a RuntimeError, and a model already holding FakeQuantize nodes a RuntimeError. |
| OpenVinoDetection.OptimizedModel | otx/algorithms/detection/adapters/openvino/task.py:680-700 | The corrected output model of the second finding below. Lines 680-700 write only the quantised IR, threshold, label schema and configuration. The corrected model also carries over the optimised model's tile-classifier files. |
| OpenVinoDetection.OptimizedModelContents | otx/algorithms/detection/adapters/openvino/task.py:680-700 | The output model holds the quantised IR, the threshold, label schema and hyper-parameters. It is marked OPENVINO / POT / QUANTIZATION / INT8, and keeps its other files. |
| OpenVinoDetection.OptimizeKeepsLoadable | otx/algorithms/detection/adapters/openvino/task.py:608-703 | Optimising a loadable, not yet quantised task succeeds. The task stays loadable, the reloaded inferencer runs on the quantised IR, and the settings are `PotSettingsFor`. |
| OpenVinoDetection.OptimizeAsWrittenLosesTileClassifier | otx/algorithms/detection/adapters/openvino/task.py:680-703 | As written, optimising a loadable task with tiling and the tile classifier into an output model without the classifier files ends in KeyError on the reload. |
| OpenVinoDetection.OptimizeAsWrittenExample | otx/algorithms/detection/adapters/openvino/task.py:680-703 | A concrete tiled instance-segmentation task that loads: KeyError as written, success when corrected. |

## Left out

- The mmdeploy function rewriter of the detector (`custom_maskrcnn_detector.py:78-97`) is a graph rewrite in a foreign framework.
- `map_class_names` is not part of this model. The class mapping is an input with one entry per model class.
- Tensor contents, dtypes, the tensor dimensions after the first, and torch `clone`/`copy_` are not modelled.
- MaskRcnnWeights.MixWeights (and `Mixed`, the block lemmas and the hook lemmas, which share the requirement `BlocksFit`): torch's `copy_` fails only when the source block has neither the destination block's length nor a single row. A one-row source block is broadcast over the destination block, and two blocks cut equally short, or both empty, at the end of their tensors are copied. `BlocksFit` requires every copied block to lie wholly in both tensors, so it also excludes those broadcast and cut-short inputs, which torch accepts. The failing copies are excluded as well, instead of being modelled as an error.
- ActionTask.MMActionTask.ApplyOverrides: when a hook fails to convert, Python has already added the hooks before it to the recipe (`task.py:94-95`). The model returns only the error. `_init_task` reloads the recipe each time (`task.py:79`).
- The `data_cfg` merge at `task.py:162-163` (mmcv `merge_from_dict`) is not modelled. `configure` takes the recipe after that merge.
- `update_or_add_custom_hook` and the recipe's `merge_from_dict` are not modelled. `_init_task` yields the ordered steps it performs.
- `patch_adaptive_interval_training`, `patch_early_stopping`, `patch_persistent_workers`, `patch_data_pipeline` and `patch_from_hyperparams` are not part of this model.
- `get_configs_by_pairs` is not part of this model: the list of `Normalize` steps is an input.
- Reading `deployment.py` is not modelled: its contents, if the file exists, are an input.
- Nested `ConfigDict`s are modelled as values, not shared references. A dictionary reached by two paths is not modelled as changing at both.
- ActionTask.Deduplicate: states set equality and absence of duplicates, not order, because Python's `list(set(...))` order is unspecified. Values are also compared structurally, whereas Python's set merges `1` and `True`.
- ActionTask.HookConversion: keys are strings in this model. A pair whose key is a number, `None` or an opaque object, which Python would accept, is modelled as a TypeError. The same holds for ConfigTree.PairEntry.
- ConfigTree.UpdatePairs: an opaque object (a tuple of pairs, say) given as `args` or as a hook is modelled as a TypeError, though Python would read its pairs.
- An `Object` value stands for an opaque Python object. `list()` of it (the `mean`/`std` tuples of a `Normalize` step) keeps it as it is. `in`, `len()` and `for` on it (ActionTask.ChainError, ConfigTree.Len, ConfigTree.Items) are TypeErrors, so a tuple reaching those places is not modelled.
- ActionTask.PatchInputPreprocessing: only lists and dictionaries count as unhashable flags, and every opaque object as hashable.
- The `assert recipe_cfg is not None` of `configure` (`task.py:154`) is not modelled: the recipe is always a configuration here.
- ActionTask.ToList: an opaque iterable (a tuple) stands for the list of its items.
- `_update_caching_modules` hands its result to the memory-cache singleton and registers a hook. The model returns the mode and size instead.
- `hasattr` on the hyperparameters is modelled as an optional cache size.
- Evaluation-key pops, the metric, the time monitor and progress bars are not modelled.
- Model building, training, export and `glob` are not modelled. The found `best_*.pth` files are an input in `glob` order.
- Exception messages are not modelled beyond the exception kind and, for KeyError and AttributeError, the key or attribute.
- `ModelEntity` is not part of this model. `get_data` is modelled as a dictionary lookup that raises KeyError for a file that was never stored.
- The OpenVINO adapters, `Model.create_model`, annotation converters, label schemas, the value of the decoded confidence threshold (only whether it decodes is modelled) and the float tile overlap are not modelled.
- The POT pipeline is not modelled: IR load and save, `create_pipeline`, weight compression, the engine and preset names, and temporary files. Whether the loaded IR holds FakeQuantize nodes, the quantised IR files, the training-subset size and the CPU count are inputs.
- OpenVinoDetection.OptimizeAsWritten: when the reload fails, Python has already replaced the task's model by the output model. The model returns only the error.
- The contents of `config.json` in the archive are not modelled: the inferencer configuration, the label schema, and the tiling parameters with their `type` rewritten to a string (`task.py:562-569`).
- The zip bytes and `exportable_code` are not modelled. The model-wrapper files are an input in the order `os.walk` yields them.
- Per-item work in `infer` and `explain` is not modelled: predictions, annotations, representation vectors and `add_saliency_maps_to_dataset_item`.
- Progress percentages (float division), timing and `evaluate` (F-measure) are not modelled.
- OpenVinoDetection.ExplainSaliencyLabels: the items processed before an item without a saliency map have already been annotated when the RuntimeError is raised; the model returns only the error.
- `load_config` and the hyper-parameter merge are not modelled. The tiling parameters are an input.
- Python's `assert` disappears under `python -O`. The model always raises AssertionError for a bad tiling mode, a wrong number of `Normalize` steps and unequal prediction lengths.

## Findings

| source | as written | input that shows it | evidently intended | confidence | as-written member | corrected member |
|---|---|---|---|---|---|---|
| otx/algorithms/detection/adapters/openvino/task.py:403-433 | `inferencer` is bound only inside the three task-type branches. For any other task type, the tiling wrapper call (line 416) or the final `isinstance` check (line 424) reads an unbound local, so the RuntimeError at line 433 is never raised. | A CLASSIFICATION task whose model stores the threshold and both IR files, with tiling off. | An unknown task type raises the RuntimeError naming it. | high; not executed | OpenVinoDetection.LoadInferencerAsWritten, OpenVinoDetection.LoadInferencerAsWrittenExample | OpenVinoDetection.LoadInferencer, OpenVinoDetection.LoadInferencerRejectsUnknownType |
| otx/algorithms/detection/adapters/openvino/task.py:680-703 | The quantised output model receives only the IR, threshold, label schema and `config.json`. It then becomes the task's model, and `load_inferencer` runs on it with the unchanged tiling configuration, which fetches `tile_classifier.xml` when tiling and the tile classifier are on. | A tiled INSTANCE_SEGMENTATION task with the tile classifier enabled and all files stored, optimised into a fresh output model. | The tile-classifier files are carried into the output model, so the optimised task still loads (and deploys). | medium (depends on the caller passing an output model without those files); not executed | OpenVinoDetection.OptimizeAsWritten, OpenVinoDetection.OptimizeAsWrittenExample | OpenVinoDetection.Optimize, OpenVinoDetection.OptimizedModel, OpenVinoDetection.OptimizeKeepsLoadable |
