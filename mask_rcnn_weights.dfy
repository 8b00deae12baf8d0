/** Class-aware loading of checkpoint weights into the Mask R-CNN detector.

    A parameter tensor is a sequence of rows whose element type `R` is left
    opaque. The rows of a class-relevant parameter of the box head come in
    blocks of `stride` rows, one block per class; the model's classes and the
    checkpoint's classes are matched by a mapping that gives, for each model
    class, the index of the matching checkpoint class or a negative number. */
module MaskRcnnWeights {
  import opened Results

  /** A class-relevant parameter of the box head and the number of rows each class owns in it. */
  datatype ClassParam = ClassParam(name: string, stride: nat)

  /** The only parameters the pre-hook rewrites: the classifier rows (one per
      class) and the box-regression rows (four per class). */
  const ClassParams: seq<ClassParam> := [
    ClassParam("roi_head.bbox_head.fc_cls.weight", 1),
    ClassParam("roi_head.bbox_head.fc_cls.bias", 1),
    ClassParam("roi_head.bbox_head.fc_reg.weight", 4),
    ClassParam("roi_head.bbox_head.fc_reg.bias", 4)
  ]

  /** The class lists a registered pre-hook was bound to. */
  datatype ClassRemap = ClassRemap(modelClasses: seq<string>, chkptClasses: seq<string>)

  // ---------------------------------------------------------------------------
  // Mixing one parameter
  // ---------------------------------------------------------------------------

  /** The parameter has a trailing background block: more rows than the model classes own. */
  predicate HasBackground<R>(modelParam: seq<R>, model2chkpt: seq<int>, stride: nat)
  {
    |modelParam| > |model2chkpt| * stride
  }

  /** The checkpoint block that feeds model block `m`; negative when block `m`
      keeps the model's own rows. Block `|model2chkpt|` is the background block. */
  function SourceBlock(model2chkpt: seq<int>, numChkptClasses: nat, hasBackground: bool, m: nat): int
  {
    if m < |model2chkpt| then model2chkpt[m]
    else if m == |model2chkpt| && hasBackground then numChkptClasses
    else -1
  }

  /** Every block that is copied lies wholly in both tensors, so source and
      destination blocks have `stride` rows each. torch's `copy_` is more
      lenient: it broadcasts a one-row source block over the destination
      block, and it copies between two blocks cut equally short (or both
      empty) at the end of their tensors; it fails only when the source
      block has neither the destination's length nor a single row. Those
      lenient cases are outside this predicate. */
  predicate BlocksFit<R>(modelParam: seq<R>, chkptParam: seq<R>, model2chkpt: seq<int>, numChkptClasses: nat, stride: nat)
  {
    && stride > 0
    && (forall m | 0 <= m < |model2chkpt| && model2chkpt[m] >= 0 ::
          m * stride + stride <= |modelParam| && model2chkpt[m] * stride + stride <= |chkptParam|)
    && (HasBackground(modelParam, model2chkpt, stride) ==>
          |model2chkpt| * stride + stride <= |modelParam| && numChkptClasses * stride + stride <= |chkptParam|)
  }

  /** Row `i` of the mixed parameter. */
  function MixedRow<R>(modelParam: seq<R>, chkptParam: seq<R>, model2chkpt: seq<int>, numChkptClasses: nat, stride: nat, i: nat): R
    requires BlocksFit(modelParam, chkptParam, model2chkpt, numChkptClasses, stride)
    requires i < |modelParam|
  {
    var m := i / stride;
    var c := SourceBlock(model2chkpt, numChkptClasses, HasBackground(modelParam, model2chkpt, stride), m);
    if c >= 0 then
      BlockLies(i, stride, m);
      chkptParam[c * stride + i % stride]
    else
      modelParam[i]
  }

  /** The mixed parameter, row by row. */
  function Mixed<R>(modelParam: seq<R>, chkptParam: seq<R>, model2chkpt: seq<int>, numChkptClasses: nat, stride: nat): (r: seq<R>)
    requires BlocksFit(modelParam, chkptParam, model2chkpt, numChkptClasses, stride)
    ensures |r| == |modelParam|
  {
    seq(|modelParam|, i requires 0 <= i < |modelParam| => MixedRow(modelParam, chkptParam, model2chkpt, numChkptClasses, stride, i))
  }

  /** Row `i` lies in block `i / stride`, at offset `i % stride`. */
  lemma BlockLies(i: nat, stride: nat, m: nat)
    requires stride > 0 && m == i / stride
    ensures m * stride <= i < m * stride + stride
    ensures i % stride == i - m * stride
  {
  }

  /** A row of block `m` has block index `m`. */
  lemma BlockOf(i: nat, stride: nat, m: nat)
    requires stride > 0 && m * stride <= i < m * stride + stride
    ensures i / stride == m && i % stride == i - m * stride
  {
    var q := i / stride;
    BlockLies(i, stride, q);
    if q < m {
      MulMonotone(q + 1, m, stride);
    } else if q > m {
      MulMonotone(m + 1, q, stride);
    }
  }

  lemma MulMonotone(a: nat, b: nat, k: nat)
    requires a <= b
    ensures a * k <= b * k
  {
  }

  /** A model class matched to checkpoint class `c` takes checkpoint block `c`. */
  lemma MatchedBlockCopied<R>(modelParam: seq<R>, chkptParam: seq<R>, model2chkpt: seq<int>, numChkptClasses: nat, stride: nat, m: nat, j: nat)
    requires BlocksFit(modelParam, chkptParam, model2chkpt, numChkptClasses, stride)
    requires m < |model2chkpt| && model2chkpt[m] >= 0 && j < stride
    ensures m * stride + j < |modelParam| && model2chkpt[m] * stride + j < |chkptParam|
    ensures Mixed(modelParam, chkptParam, model2chkpt, numChkptClasses, stride)[m * stride + j]
            == chkptParam[model2chkpt[m] * stride + j]
  {
    BlockOf(m * stride + j, stride, m);
  }

  /** A model class without a match keeps the model's own rows. */
  lemma UnmatchedBlockKept<R>(modelParam: seq<R>, chkptParam: seq<R>, model2chkpt: seq<int>, numChkptClasses: nat, stride: nat, m: nat, j: nat)
    requires BlocksFit(modelParam, chkptParam, model2chkpt, numChkptClasses, stride)
    requires m < |model2chkpt| && model2chkpt[m] < 0 && j < stride && m * stride + j < |modelParam|
    ensures Mixed(modelParam, chkptParam, model2chkpt, numChkptClasses, stride)[m * stride + j] == modelParam[m * stride + j]
  {
    BlockOf(m * stride + j, stride, m);
  }

  /** When the parameter has more rows than the model classes own, the block
      after them (the background class) comes from the block after the
      checkpoint classes. */
  lemma BackgroundBlockCopied<R>(modelParam: seq<R>, chkptParam: seq<R>, model2chkpt: seq<int>, numChkptClasses: nat, stride: nat, j: nat)
    requires BlocksFit(modelParam, chkptParam, model2chkpt, numChkptClasses, stride)
    requires HasBackground(modelParam, model2chkpt, stride) && j < stride
    ensures |model2chkpt| * stride + j < |modelParam| && numChkptClasses * stride + j < |chkptParam|
    ensures Mixed(modelParam, chkptParam, model2chkpt, numChkptClasses, stride)[|model2chkpt| * stride + j]
            == chkptParam[numChkptClasses * stride + j]
  {
    BlockOf(|model2chkpt| * stride + j, stride, |model2chkpt|);
  }

  /** Rows past the class blocks and the background block keep the model's values. */
  lemma TrailingRowsKept<R>(modelParam: seq<R>, chkptParam: seq<R>, model2chkpt: seq<int>, numChkptClasses: nat, stride: nat, i: nat)
    requires BlocksFit(modelParam, chkptParam, model2chkpt, numChkptClasses, stride)
    requires (|model2chkpt| + 1) * stride <= i < |modelParam|
    ensures Mixed(modelParam, chkptParam, model2chkpt, numChkptClasses, stride)[i] == modelParam[i]
  {
    var m := i / stride;
    var n := |model2chkpt|;
    BlockLies(i, stride, m);
    assert (m + 1) * stride == m * stride + stride;
    if m <= n {
      MulMonotone(m + 1, n + 1, stride);
    }
    assert SourceBlock(model2chkpt, numChkptClasses, HasBackground(modelParam, model2chkpt, stride), m) == -1;
  }

  /** Copies `count` rows of `src`, starting at row `from`, over rows `dst ..` of `a`. */
  method CopyBlock<R>(a: array<R>, dst: nat, src: seq<R>, from: nat, count: nat)
    requires dst + count <= a.Length && from + count <= |src|
    modifies a
    ensures forall i | 0 <= i < a.Length ::
              a[i] == if dst <= i < dst + count then src[from + i - dst] else old(a[i])
  {
    forall k | 0 <= k < count {
      a[dst + k] := src[from + k];
    }
  }

  /** Clones the model parameter and overwrites the matched class blocks, and
      the background block when there is one, with checkpoint rows. */
  method MixWeights<R>(modelParam: seq<R>, chkptParam: seq<R>, model2chkpt: seq<int>, numChkptClasses: nat, stride: nat)
    returns (mixed: seq<R>)
    requires BlocksFit(modelParam, chkptParam, model2chkpt, numChkptClasses, stride)
    ensures mixed == Mixed(modelParam, chkptParam, model2chkpt, numChkptClasses, stride)
  {
    var a := new R[|modelParam|](i requires 0 <= i < |modelParam| => modelParam[i]);
    var hasBackground := HasBackground(modelParam, model2chkpt, stride);
    var m := 0;
    while m < |model2chkpt|
      invariant 0 <= m <= |model2chkpt| && a.Length == |modelParam|
      invariant forall i | 0 <= i < a.Length ::
                  a[i] == if i / stride < m then MixedRow(modelParam, chkptParam, model2chkpt, numChkptClasses, stride, i)
                          else modelParam[i]
    {
      var c := model2chkpt[m];
      if c >= 0 {
        CopyBlock(a, m * stride, chkptParam, c * stride, stride);
        forall i | m * stride <= i < m * stride + stride
          ensures i / stride == m && i % stride == i - m * stride
        {
          BlockOf(i, stride, m);
        }
      }
      forall i | 0 <= i < a.Length && i / stride == m
        ensures m * stride <= i < m * stride + stride
      {
        BlockLies(i, stride, m);
      }
      m := m + 1;
    }
    if a.Length > |model2chkpt| * stride {
      // background class
      var c, n := numChkptClasses, |model2chkpt|;
      CopyBlock(a, n * stride, chkptParam, c * stride, stride);
      forall i | n * stride <= i < n * stride + stride
        ensures i / stride == n && i % stride == i - n * stride
      {
        BlockOf(i, stride, n);
      }
      forall i | 0 <= i < a.Length && i / stride == n
        ensures n * stride <= i < n * stride + stride
      {
        BlockLies(i, stride, n);
      }
    }
    mixed := a[..];
  }

  // ---------------------------------------------------------------------------
  // The load-state-dict pre-hook over a whole checkpoint
  // ---------------------------------------------------------------------------

  /** The parameter is rewritten: the model has it under its plain name and the
      checkpoint under the prefixed name. */
  predicate Applies<R>(modelParams: map<string, seq<R>>, entries: map<string, seq<R>>, prefix: string, p: ClassParam)
  {
    p.name in modelParams && prefix + p.name in entries
  }

  /** Every parameter of `ps` that is rewritten has blocks that fit. */
  predicate FitsFor<R>(modelParams: map<string, seq<R>>, entries: map<string, seq<R>>, prefix: string,
                       model2chkpt: seq<int>, numChkptClasses: nat, ps: seq<ClassParam>)
  {
    forall p | p in ps && Applies(modelParams, entries, prefix, p) ::
      BlocksFit(modelParams[p.name], entries[prefix + p.name], model2chkpt, numChkptClasses, p.stride)
  }

  /** The checkpoint entry `key` after the parameters `ps` have been processed in order. */
  function EntryAfter<R>(modelParams: map<string, seq<R>>, entries: map<string, seq<R>>, prefix: string,
                         model2chkpt: seq<int>, numChkptClasses: nat, ps: seq<ClassParam>, key: string): seq<R>
    requires key in entries
    requires FitsFor(modelParams, entries, prefix, model2chkpt, numChkptClasses, ps)
    decreases |ps|
  {
    if ps == [] then entries[key]
    else
      var p := ps[|ps| - 1];
      if key == prefix + p.name && p.name in modelParams then
        Mixed(modelParams[p.name], entries[key], model2chkpt, numChkptClasses, p.stride)
      else
        EntryAfter(modelParams, entries, prefix, model2chkpt, numChkptClasses, ps[..|ps| - 1], key)
  }

  /** The checkpoint after the parameters `ps` have been processed in order. */
  function CheckpointAfter<R>(modelParams: map<string, seq<R>>, entries: map<string, seq<R>>, prefix: string,
                              model2chkpt: seq<int>, numChkptClasses: nat, ps: seq<ClassParam>): (r: map<string, seq<R>>)
    requires FitsFor(modelParams, entries, prefix, model2chkpt, numChkptClasses, ps)
    ensures r.Keys == entries.Keys
  {
    map key | key in entries :: EntryAfter(modelParams, entries, prefix, model2chkpt, numChkptClasses, ps, key)
  }

  predicate DistinctNames(ps: seq<ClassParam>)
  {
    forall i, j | 0 <= i < j < |ps| :: ps[i].name != ps[j].name
  }

  lemma ClassParamsDistinct()
    ensures DistinctNames(ClassParams)
  {
  }

  lemma PrefixInjective(prefix: string, a: string, b: string)
    requires prefix + a == prefix + b
    ensures a == b
  {
    assert a == (prefix + a)[|prefix|..];
    assert b == (prefix + b)[|prefix|..];
  }

  /** An entry whose name is none of the prefixed names of `ps` is left as it was. */
  lemma {:induction false} EntryUntouched<R>(modelParams: map<string, seq<R>>, entries: map<string, seq<R>>, prefix: string,
                                             model2chkpt: seq<int>, numChkptClasses: nat, ps: seq<ClassParam>, key: string)
    requires key in entries
    requires FitsFor(modelParams, entries, prefix, model2chkpt, numChkptClasses, ps)
    requires forall p | p in ps :: key != prefix + p.name
    ensures EntryAfter(modelParams, entries, prefix, model2chkpt, numChkptClasses, ps, key) == entries[key]
    decreases |ps|
  {
    if ps != [] {
      var init := ps[..|ps| - 1];
      assert forall p | p in init :: p in ps;
      EntryUntouched(modelParams, entries, prefix, model2chkpt, numChkptClasses, init, key);
    }
  }

  /** The entry of a listed parameter is the mixed tensor when the parameter
      applies, and the checkpoint's own tensor otherwise. */
  lemma {:induction false} EntryOfParam<R>(modelParams: map<string, seq<R>>, entries: map<string, seq<R>>, prefix: string,
                                           model2chkpt: seq<int>, numChkptClasses: nat, ps: seq<ClassParam>, k: nat)
    requires k < |ps| && DistinctNames(ps) && prefix + ps[k].name in entries
    requires FitsFor(modelParams, entries, prefix, model2chkpt, numChkptClasses, ps)
    ensures var p := ps[k];
            EntryAfter(modelParams, entries, prefix, model2chkpt, numChkptClasses, ps, prefix + p.name)
            == if p.name in modelParams
               then Mixed(modelParams[p.name], entries[prefix + p.name], model2chkpt, numChkptClasses, p.stride)
               else entries[prefix + p.name]
    decreases |ps|
  {
    var key := prefix + ps[k].name;
    var init := ps[..|ps| - 1];
    assert forall p | p in init :: p in ps;
    if k == |ps| - 1 {
      if ps[k].name !in modelParams {
        forall p | p in init ensures key != prefix + p.name {
          var j :| 0 <= j < |init| && init[j] == p;
          if key == prefix + p.name {
            PrefixInjective(prefix, ps[k].name, p.name);
          }
        }
        EntryUntouched(modelParams, entries, prefix, model2chkpt, numChkptClasses, init, key);
      }
    } else {
      var last := ps[|ps| - 1];
      if key == prefix + last.name {
        PrefixInjective(prefix, ps[k].name, last.name);
      }
      EntryOfParam(modelParams, entries, prefix, model2chkpt, numChkptClasses, init, k);
    }
  }

  /** Processing one more parameter rewrites only that parameter's entry. */
  lemma EntryStep<R>(modelParams: map<string, seq<R>>, entries: map<string, seq<R>>, prefix: string,
                     model2chkpt: seq<int>, numChkptClasses: nat, ps: seq<ClassParam>, k: nat, key: string)
    requires k < |ps| && key in entries
    requires FitsFor(modelParams, entries, prefix, model2chkpt, numChkptClasses, ps[..k + 1])
    ensures FitsFor(modelParams, entries, prefix, model2chkpt, numChkptClasses, ps[..k])
    ensures EntryAfter(modelParams, entries, prefix, model2chkpt, numChkptClasses, ps[..k + 1], key)
            == if key == prefix + ps[k].name && ps[k].name in modelParams
               then Mixed(modelParams[ps[k].name], entries[key], model2chkpt, numChkptClasses, ps[k].stride)
               else EntryAfter(modelParams, entries, prefix, model2chkpt, numChkptClasses, ps[..k], key)
  {
    var next := ps[..k + 1];
    assert next[..|next| - 1] == ps[..k] && next[|next| - 1] == ps[k];
    assert forall q | q in ps[..k] :: q in next;
  }

  /** With distinct names, the parameters before `k` leave parameter `k`'s entry alone. */
  lemma EntryBeforeParam<R>(modelParams: map<string, seq<R>>, entries: map<string, seq<R>>, prefix: string,
                            model2chkpt: seq<int>, numChkptClasses: nat, ps: seq<ClassParam>, k: nat)
    requires k < |ps| && DistinctNames(ps) && prefix + ps[k].name in entries
    requires FitsFor(modelParams, entries, prefix, model2chkpt, numChkptClasses, ps[..k])
    ensures EntryAfter(modelParams, entries, prefix, model2chkpt, numChkptClasses, ps[..k], prefix + ps[k].name)
            == entries[prefix + ps[k].name]
  {
    var key := prefix + ps[k].name;
    var init := ps[..k];
    forall q | q in init ensures key != prefix + q.name {
      var j :| 0 <= j < k && init[j] == q;
      if key == prefix + q.name {
        PrefixInjective(prefix, ps[k].name, q.name);
      }
    }
    EntryUntouched(modelParams, entries, prefix, model2chkpt, numChkptClasses, init, key);
  }

  /** Processing parameter `k` after the first `k` rewrites only its own entry,
      whose value until then is the checkpoint's original tensor. */
  lemma CheckpointStep<R>(modelParams: map<string, seq<R>>, entries: map<string, seq<R>>, prefix: string,
                          model2chkpt: seq<int>, numChkptClasses: nat, ps: seq<ClassParam>, k: nat)
    requires k < |ps| && DistinctNames(ps)
    requires FitsFor(modelParams, entries, prefix, model2chkpt, numChkptClasses, ps)
    ensures FitsFor(modelParams, entries, prefix, model2chkpt, numChkptClasses, ps[..k + 1])
    ensures var p := ps[k];
            var key := prefix + p.name;
            var before := CheckpointAfter(modelParams, entries, prefix, model2chkpt, numChkptClasses, ps[..k]);
            var after := CheckpointAfter(modelParams, entries, prefix, model2chkpt, numChkptClasses, ps[..k + 1]);
            if Applies(modelParams, entries, prefix, p) then
              && BlocksFit(modelParams[p.name], before[key], model2chkpt, numChkptClasses, p.stride)
              && after == before[key := Mixed(modelParams[p.name], before[key], model2chkpt, numChkptClasses, p.stride)]
            else
              after == before
  {
    var p := ps[k];
    var key := prefix + p.name;
    FitsPrefix(modelParams, entries, prefix, model2chkpt, numChkptClasses, ps, k);
    FitsPrefix(modelParams, entries, prefix, model2chkpt, numChkptClasses, ps, k + 1);
    var before := CheckpointAfter(modelParams, entries, prefix, model2chkpt, numChkptClasses, ps[..k]);
    var after := CheckpointAfter(modelParams, entries, prefix, model2chkpt, numChkptClasses, ps[..k + 1]);
    forall key' | key' in entries && !(key' == key && p.name in modelParams)
      ensures after[key'] == before[key']
    {
      EntryStep(modelParams, entries, prefix, model2chkpt, numChkptClasses, ps, k, key');
    }
    if Applies(modelParams, entries, prefix, p) {
      EntryBeforeParam(modelParams, entries, prefix, model2chkpt, numChkptClasses, ps, k);
      EntryStep(modelParams, entries, prefix, model2chkpt, numChkptClasses, ps, k, key);
      assert p in ps;
      MapUpdated(before, after, key, Mixed(modelParams[p.name], before[key], model2chkpt, numChkptClasses, p.stride));
    } else {
      assert after == before;
    }
  }

  /** The parameters of a prefix are among those of the whole list. */
  lemma FitsPrefix<R>(modelParams: map<string, seq<R>>, entries: map<string, seq<R>>, prefix: string,
                      model2chkpt: seq<int>, numChkptClasses: nat, ps: seq<ClassParam>, n: nat)
    requires n <= |ps|
    requires FitsFor(modelParams, entries, prefix, model2chkpt, numChkptClasses, ps)
    ensures FitsFor(modelParams, entries, prefix, model2chkpt, numChkptClasses, ps[..n])
  {
    assert forall q | q in ps[..n] :: q in ps;
  }

  /** A map that differs from `before` only at `key`, where it holds `v`, is `before[key := v]`. */
  lemma MapUpdated<K, V>(before: map<K, V>, after: map<K, V>, key: K, v: V)
    requires after.Keys == before.Keys && key in before && after[key] == v
    requires forall k | k in before && k != key :: after[k] == before[k]
    ensures after == before[key := v]
  {
  }

  /** The checkpoint as the pre-hook leaves it. */
  function HookResult<R>(modelParams: map<string, seq<R>>, entries: map<string, seq<R>>, prefix: string,
                         model2chkpt: seq<int>, numChkptClasses: nat): (r: map<string, seq<R>>)
    requires FitsFor(modelParams, entries, prefix, model2chkpt, numChkptClasses, ClassParams)
  {
    CheckpointAfter(modelParams, entries, prefix, model2chkpt, numChkptClasses, ClassParams)
  }

  /** The pre-hook neither adds nor removes checkpoint entries, and leaves every
      entry that is not one of the four prefixed class parameters unchanged. */
  lemma HookTouchesOnlyClassParams<R>(modelParams: map<string, seq<R>>, entries: map<string, seq<R>>, prefix: string,
                                      model2chkpt: seq<int>, numChkptClasses: nat, key: string)
    requires FitsFor(modelParams, entries, prefix, model2chkpt, numChkptClasses, ClassParams)
    requires key in entries && forall p | p in ClassParams :: key != prefix + p.name
    ensures HookResult(modelParams, entries, prefix, model2chkpt, numChkptClasses).Keys == entries.Keys
    ensures HookResult(modelParams, entries, prefix, model2chkpt, numChkptClasses)[key] == entries[key]
  {
    EntryUntouched(modelParams, entries, prefix, model2chkpt, numChkptClasses, ClassParams, key);
  }

  /** A class parameter the model does not have is skipped: its checkpoint entry is unchanged. */
  lemma HookSkipsMissing<R>(modelParams: map<string, seq<R>>, entries: map<string, seq<R>>, prefix: string,
                            model2chkpt: seq<int>, numChkptClasses: nat, k: nat)
    requires FitsFor(modelParams, entries, prefix, model2chkpt, numChkptClasses, ClassParams)
    requires k < |ClassParams| && ClassParams[k].name !in modelParams && prefix + ClassParams[k].name in entries
    ensures HookResult(modelParams, entries, prefix, model2chkpt, numChkptClasses)[prefix + ClassParams[k].name]
            == entries[prefix + ClassParams[k].name]
  {
    ClassParamsDistinct();
    EntryOfParam(modelParams, entries, prefix, model2chkpt, numChkptClasses, ClassParams, k);
  }

  /** A class parameter present in both dicts is replaced by the mixed tensor,
      which has as many rows as the model's parameter. */
  lemma HookMixesPresent<R>(modelParams: map<string, seq<R>>, entries: map<string, seq<R>>, prefix: string,
                            model2chkpt: seq<int>, numChkptClasses: nat, k: nat)
    requires FitsFor(modelParams, entries, prefix, model2chkpt, numChkptClasses, ClassParams)
    requires k < |ClassParams| && Applies(modelParams, entries, prefix, ClassParams[k])
    ensures var p := ClassParams[k];
            && BlocksFit(modelParams[p.name], entries[prefix + p.name], model2chkpt, numChkptClasses, p.stride)
            && HookResult(modelParams, entries, prefix, model2chkpt, numChkptClasses)[prefix + p.name]
               == Mixed(modelParams[p.name], entries[prefix + p.name], model2chkpt, numChkptClasses, p.stride)
            && |HookResult(modelParams, entries, prefix, model2chkpt, numChkptClasses)[prefix + p.name]|
               == |modelParams[p.name]|
  {
    ClassParamsDistinct();
    EntryOfParam(modelParams, entries, prefix, model2chkpt, numChkptClasses, ClassParams, k);
  }

  /** Registration of the pre-hook from the detector's `task_adapt` argument:
      none when it is absent or empty, a `KeyError` when a class list is missing. */
  function RegisteredHook(taskAdapt: Option<map<string, seq<string>>>): (r: Result<Option<ClassRemap>>)
    ensures r.Ok? && r.value.Some? <==>
              taskAdapt.Some? && "dst_classes" in taskAdapt.value && "src_classes" in taskAdapt.value
    ensures r.Ok? && r.value.Some? ==>
              r.value.value == ClassRemap(taskAdapt.value["dst_classes"], taskAdapt.value["src_classes"])
    ensures r.Err? <==> taskAdapt.Some? && taskAdapt.value != map[] &&
                        ("dst_classes" !in taskAdapt.value || "src_classes" !in taskAdapt.value)
  {
    match taskAdapt
    case None => Ok(None)
    case Some(ta) =>
      if ta == map[] then Ok(None)
      else if "dst_classes" !in ta then Err(KeyError("dst_classes"))
      else if "src_classes" !in ta then Err(KeyError("src_classes"))
      else Ok(Some(ClassRemap(ta["dst_classes"], ta["src_classes"])))
  }

  /** A state dict: parameter names to tensors. */
  class StateDict<R> {
    var entries: map<string, seq<R>>

    constructor (entries: map<string, seq<R>>)
      ensures this.entries == entries
    {
      this.entries := entries;
    }
  }

  /** The detector: its own parameters and the pre-hook registered at construction. */
  class CustomMaskRcnn<R> {
    var stateDict: map<string, seq<R>>
    var preHook: Option<ClassRemap>

    /** Successful construction only: the KeyError for a missing class list
        is carried by `RegisteredHook`, not by the constructor. */
    constructor (stateDict: map<string, seq<R>>, taskAdapt: Option<map<string, seq<string>>>)
      requires RegisteredHook(taskAdapt).Ok?
      ensures this.stateDict == stateDict
      ensures preHook == RegisteredHook(taskAdapt).value
      ensures preHook.Some? ==>
                preHook.value.modelClasses == taskAdapt.value["dst_classes"] &&
                preHook.value.chkptClasses == taskAdapt.value["src_classes"]
    {
      this.stateDict := stateDict;
      preHook := RegisteredHook(taskAdapt).value;
    }

    /** Rewrites the class parameters of `chkpt` by class matching. `model2chkpt`
        is the class mapping from model classes to checkpoint classes. */
    method LoadStateDictPreHook(modelClasses: seq<string>, chkptClasses: seq<string>, model2chkpt: seq<int>,
                                chkpt: StateDict<R>, prefix: string)
      requires |model2chkpt| == |modelClasses|
      requires FitsFor(stateDict, chkpt.entries, prefix, model2chkpt, |chkptClasses|, ClassParams)
      modifies chkpt
      ensures chkpt.entries == HookResult(stateDict, old(chkpt.entries), prefix, model2chkpt, |chkptClasses|)
      ensures stateDict == old(stateDict)
    {
      ghost var entries0 := chkpt.entries;
      ClassParamsDistinct();
      var k := 0;
      while k < |ClassParams|
        invariant 0 <= k <= |ClassParams|
        invariant FitsFor(stateDict, entries0, prefix, model2chkpt, |chkptClasses|, ClassParams[..k])
        invariant chkpt.entries == CheckpointAfter(stateDict, entries0, prefix, model2chkpt, |chkptClasses|, ClassParams[..k])
      {
        var p := ClassParams[k];
        var chkptName := prefix + p.name;
        CheckpointStep(stateDict, entries0, prefix, model2chkpt, |chkptClasses|, ClassParams, k);
        if p.name in stateDict && chkptName in chkpt.entries {
          var mixed := MixWeights(stateDict[p.name], chkpt.entries[chkptName], model2chkpt, |chkptClasses|, p.stride);
          chkpt.entries := chkpt.entries[chkptName := mixed];
        }
        k := k + 1;
      }
      assert ClassParams[..k] == ClassParams;
    }

    /** Runs the registered pre-hook, if any, on a checkpoint about to be loaded. */
    method RunPreHooks(chkpt: StateDict<R>, prefix: string, model2chkpt: seq<int>)
      requires preHook.Some? ==> |model2chkpt| == |preHook.value.modelClasses|
      requires preHook.Some? ==>
                 FitsFor(stateDict, chkpt.entries, prefix, model2chkpt, |preHook.value.chkptClasses|, ClassParams)
      modifies chkpt
      ensures preHook.None? ==> chkpt.entries == old(chkpt.entries)
      ensures preHook.Some? ==>
                chkpt.entries == HookResult(stateDict, old(chkpt.entries), prefix, model2chkpt, |preHook.value.chkptClasses|)
    {
      if preHook.Some? {
        LoadStateDictPreHook(preHook.value.modelClasses, preHook.value.chkptClasses, model2chkpt, chkpt, prefix);
      }
    }
  }
}
