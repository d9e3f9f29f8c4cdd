/** LoRA (low-rank adaptation) for the Megatron and plain-PyTorch linear layers:
    which modules are targeted (exact names and `*` wildcards over the full
    dotted name), which adapter each layer kind receives and with which
    feature sizes, the expert-layer name rule, the two plain-`nn.Linear`
    adapters (their scale, error order and initial state), and the merge of
    a trained adapter back into the base weight. */
module Lora {
  import opened Wrappers
  import opened PyOps
  import opened Matrices

  // ---------------------------------------------------------------------
  // wildcard_match
  // ---------------------------------------------------------------------

  /** One pattern character against one key character. After `*` has been
      rewritten, `.` is the one regular-expression metacharacter the model gives
      a meaning; like Python's `.` it matches anything but a newline. */
  predicate CharMatches(p: char, c: char)
  {
    if p == '.' then c != '\n' else p == c
  }

  /** The pattern, with `*` read as `(.*)`, matches the whole of `k`. */
  predicate GlobMatch(p: string, k: string)
    decreases |p| + |k|
  {
    if p == [] then k == []
    else if p[0] == '*' then GlobMatch(p[1..], k) || (k != [] && k[0] != '\n' && GlobMatch(p, k[1..]))
    else k != [] && CharMatches(p[0], k[0]) && GlobMatch(p[1..], k[1..])
  }

  function Concat(parts: seq<string>): string
  {
    if parts == [] then [] else parts[0] + Concat(parts[1..])
  }

  /** What a single pattern character may stand for: `*` any newline-free
      text, any other character exactly one key character it matches. */
  ghost predicate PieceFits(p: char, piece: string)
  {
    if p == '*' then forall i :: 0 <= i < |piece| ==> piece[i] != '\n'
    else |piece| == 1 && CharMatches(p, piece[0])
  }

  /** `k` is cut into one piece per pattern character, each fitting it: the
      meaning of an anchored glob, stated without any search order. */
  ghost predicate Decomposes(p: string, parts: seq<string>, k: string)
  {
    |parts| == |p| && Concat(parts) == k && forall i :: 0 <= i < |p| ==> PieceFits(p[i], parts[i])
  }

  ghost predicate GlobMeaning(p: string, k: string)
  {
    exists parts :: Decomposes(p, parts, k)
  }

  lemma {:induction false} GlobMatchSound(p: string, k: string)
    requires GlobMatch(p, k)
    ensures GlobMeaning(p, k)
    decreases |p| + |k|
  {
    if p == [] {
      assert Decomposes(p, [], k);
    } else if p[0] == '*' && GlobMatch(p[1..], k) {
      GlobMatchSound(p[1..], k);
      var parts :| Decomposes(p[1..], parts, k);
      StarEmptyPiece(p, parts, k);
    } else if p[0] == '*' {
      GlobMatchSound(p, k[1..]);
      var parts :| Decomposes(p, parts, k[1..]);
      StarLongerPiece(p, parts, k);
    } else {
      GlobMatchSound(p[1..], k[1..]);
      var parts :| Decomposes(p[1..], parts, k[1..]);
      assert CharMatches(p[0], k[0]);
      SingleCharPiece(p, parts, k);
    }
  }

  /** A `*` standing for nothing in front of a decomposition of the rest. */
  lemma StarEmptyPiece(p: string, parts: seq<string>, k: string)
    requires p != [] && p[0] == '*' && Decomposes(p[1..], parts, k)
    ensures Decomposes(p, [""] + parts, k)
  {
    var ps := [""] + parts;
    assert ps[1..] == parts;
    forall i | 0 <= i < |p| ensures PieceFits(p[i], ps[i]) {
      if i > 0 {
        assert p[i] == p[1..][i - 1];
      }
    }
  }

  /** A `*` piece grown by the key's first character. */
  lemma StarLongerPiece(p: string, parts: seq<string>, k: string)
    requires p != [] && p[0] == '*' && k != [] && k[0] != '\n' && Decomposes(p, parts, k[1..])
    ensures Decomposes(p, [[k[0]] + parts[0]] + parts[1..], k)
  {
    var ps := [[k[0]] + parts[0]] + parts[1..];
    assert ps[1..] == parts[1..];
    assert Concat(ps) == [k[0]] + (parts[0] + Concat(parts[1..]));
    assert k == [k[0]] + k[1..];
    forall i | 0 <= i < |p| ensures PieceFits(p[i], ps[i]) {
      if i == 0 {
        assert PieceFits(p[0], parts[0]);
        forall j | 0 <= j < |ps[0]| ensures ps[0][j] != '\n' {
          if j > 0 {
            assert ps[0][j] == parts[0][j - 1];
          }
        }
      }
    }
  }

  /** A literal pattern character standing for the key's first character. */
  lemma SingleCharPiece(p: string, parts: seq<string>, k: string)
    requires p != [] && p[0] != '*' && k != [] && CharMatches(p[0], k[0]) && Decomposes(p[1..], parts, k[1..])
    ensures Decomposes(p, [[k[0]]] + parts, k)
  {
    var ps := [[k[0]]] + parts;
    assert ps[1..] == parts;
    assert k == [k[0]] + k[1..];
    forall i | 0 <= i < |p| ensures PieceFits(p[i], ps[i]) {
      if i > 0 {
        assert p[i] == p[1..][i - 1];
      }
    }
  }

  lemma {:induction false} GlobMatchComplete(p: string, parts: seq<string>, k: string)
    requires Decomposes(p, parts, k)
    ensures GlobMatch(p, k)
    decreases |p| + |k|
  {
    if p != [] {
      assert k == parts[0] + Concat(parts[1..]);
      assert forall i :: 0 <= i < |p| - 1 ==> p[1..][i] == p[i + 1] && parts[1..][i] == parts[i + 1];
      assert PieceFits(p[0], parts[0]);
      if p[0] == '*' && parts[0] == [] {
        GlobMatchComplete(p[1..], parts[1..], k);
      } else if p[0] == '*' {
        var ps := [parts[0][1..]] + parts[1..];
        assert ps[1..] == parts[1..];
        assert k[1..] == parts[0][1..] + Concat(parts[1..]);
        forall i | 0 <= i < |p| ensures PieceFits(p[i], ps[i]) {
          if i == 0 {
            forall j | 0 <= j < |ps[0]| ensures ps[0][j] != '\n' {
              assert ps[0][j] == parts[0][j + 1];
            }
          }
        }
        assert Decomposes(p, ps, k[1..]);
        GlobMatchComplete(p, ps, k[1..]);
      } else {
        assert k[1..] == Concat(parts[1..]);
        GlobMatchComplete(p[1..], parts[1..], k[1..]);
      }
    }
  }

  /** `re.match("^" + pattern.replace("*", "(.*)") + "$", key)` succeeds on a
      present key; a missing key gives `None`. `$` matches at the end or just
      before a final newline. */
  function WildcardMatch(pattern: string, key: Option<string>): (r: Option<bool>)
    ensures r.None? <==> key.None?
    ensures key.Some? ==>
              (r.value <==> GlobMeaning(pattern, key.value)
                            || (|key.value| > 0 && key.value[|key.value| - 1] == '\n'
                                && GlobMeaning(pattern, key.value[..|key.value| - 1])))
  {
    if key.None? then None
    else
      var k := key.value;
      var whole := GlobMatch(pattern, k);
      var beforeNewline := |k| > 0 && k[|k| - 1] == '\n' && GlobMatch(pattern, k[..|k| - 1]);
      GlobMatchIff(pattern, k);
      GlobMatchIff(pattern, if |k| > 0 then k[..|k| - 1] else k);
      Some(whole || beforeNewline)
  }

  lemma GlobMatchIff(p: string, k: string)
    ensures GlobMatch(p, k) <==> GlobMeaning(p, k)
  {
    if GlobMatch(p, k) {
      GlobMatchSound(p, k);
    }
    if GlobMeaning(p, k) {
      var parts :| Decomposes(p, parts, k);
      GlobMatchComplete(p, parts, k);
    }
  }

  // ---------------------------------------------------------------------
  // The full name and the targeting test of LoRA.transform
  // ---------------------------------------------------------------------

  /** What an f-string shows for an optional string. */
  function Str(x: Option<string>): string
  {
    if x.None? then "None" else x.value
  }

  /** `f"{prefix}.{name}" if prefix else name`. */
  function FullName(prefix: Option<string>, name: Option<string>): (r: Option<string>)
    ensures r.None? <==> name.None? && (prefix.None? || prefix.value == "")
    ensures r.Some? && name.Some? ==>
              |name.value| <= |r.value| && r.value[|r.value| - |name.value|..] == name.value
    ensures prefix.Some? && prefix.value != "" ==>
              r.Some? && |prefix.value| < |r.value| && r.value[..|prefix.value| + 1] == prefix.value + "."
    ensures prefix.Some? && prefix.value != "" ==>
              |r.value| == |prefix.value| + 1 + |Str(name)| && r.value[|prefix.value| + 1..] == Str(name)
    ensures !(prefix.Some? && prefix.value != "") ==> r == name
  {
    if prefix.Some? && prefix.value != "" then Some(prefix.value + "." + Str(name)) else name
  }

  /** `any(wildcard_match(pattern, key) for pattern in patterns)`: a `None`
      result counts as false. */
  function AnyMatches(patterns: seq<string>, key: Option<string>): (b: bool)
    ensures b <==> exists i :: 0 <= i < |patterns| && WildcardMatch(patterns[i], key) == Some(true)
  {
    if patterns == [] then false
    else
      var rest := AnyMatches(patterns[1..], key);
      assert forall i :: 0 < i < |patterns| ==> patterns[i] == patterns[1..][i - 1];
      WildcardMatch(patterns[0], key) == Some(true) || rest
  }

  /** Whether `LoRA.transform` adapts the module `name` found under `prefix`. */
  function Targeted(targets: seq<string>, prefix: Option<string>, name: Option<string>): (b: bool)
    ensures b <==> (name.Some? && name.value in targets)
                   || exists i :: 0 <= i < |targets| && WildcardMatch(targets[i], FullName(prefix, name)) == Some(true)
    ensures b ==> FullName(prefix, name).Some?
  {
    (name.Some? && name.value in targets) || AnyMatches(targets, FullName(prefix, name))
  }

  const DefaultTargets: seq<string> := ["linear_qkv", "linear_proj", "linear_fc1", "linear_fc2"]

  /** With the default targets, exactly the four attention and MLP projections
      are adapted by name, whatever their prefix. */
  lemma DefaultTargetsByName(prefix: Option<string>, name: string)
    requires name in DefaultTargets
    ensures Targeted(DefaultTargets, prefix, Some(name))
    ensures FullName(prefix, Some(name)).Some?
  {
  }

  /** A module without a name and without a prefix is never adapted. */
  lemma UnnamedNeverTargeted(targets: seq<string>, prefix: Option<string>)
    requires prefix.None? || prefix.value == ""
    ensures !Targeted(targets, prefix, None)
  {
  }

  // ---------------------------------------------------------------------
  // is_expert_linear
  // ---------------------------------------------------------------------

  const ExpertStem: string := "mlp.experts.local_experts"
  const FcStem: string := ".linear_fc"

  ghost predicate AllDigits(s: string)
  {
    forall i :: 0 <= i < |s| ==> IsDigit(s[i])
  }

  /** `w` reads `X + "mlp.experts.local_experts" + c + D + ".linear_fc" + d`
      with the digit run `D` starting at `k` (and `c` the character before it). */
  ghost predicate ExpertSplitAt(w: string, k: int)
  {
    26 <= k < |w| - 11 && w[k - 26..k - 1] == ExpertStem && AllDigits(w[k..|w| - 11])
  }

  /** The text `.*mlp\.experts\.local_experts.[0-9]+\.linear_fc[1-2]` matches
      all of `w`: no character of it is a newline (`.` matches none), it ends in
      `.linear_fc1` or `.linear_fc2`, and a non-empty digit run before that
      follows the stem and one more character. */
  ghost predicate ExpertShape(w: string)
  {
    && (forall i :: 0 <= i < |w| ==> w[i] != '\n')
    && |w| >= 11 && w[|w| - 11..|w| - 1] == FcStem && (w[|w| - 1] == '1' || w[|w| - 1] == '2')
    && exists k :: ExpertSplitAt(w, k)
  }

  /** The digit-run search: `k` moves down from the last digit before
      `.linear_fc` while the characters are digits. */
  function DigitRunFrom(w: string, k: nat): (b: bool)
    requires 11 <= |w| && k < |w| - 11
    decreases k
  {
    26 <= k && IsDigit(w[k]) && (w[k - 26..k - 1] == ExpertStem || DigitRunFrom(w, k - 1))
  }

  lemma {:induction false} DigitRunFromIff(w: string, k: nat)
    requires 11 <= |w| && k < |w| - 11
    requires AllDigits(w[k + 1..|w| - 11])
    ensures DigitRunFrom(w, k) <==> exists j :: j <= k && ExpertSplitAt(w, j)
    decreases k
  {
    if k < 26 {
    } else if !IsDigit(w[k]) {
      forall j | j <= k
        ensures !ExpertSplitAt(w, j)
      {
        if 26 <= j {
          assert w[j..|w| - 11][k - j] == w[k];
        }
      }
    } else {
      var run, rest := w[k..|w| - 11], w[k + 1..|w| - 11];
      assert run == [w[k]] + rest;
      assert AllDigits(run);
      if w[k - 26..k - 1] == ExpertStem {
        assert ExpertSplitAt(w, k);
      } else {
        DigitRunFromIff(w, k - 1);
        assert !ExpertSplitAt(w, k);
      }
    }
  }

  function ExpertTail(w: string): (b: bool)
    ensures b <==> ExpertShape(w)
  {
    var shaped := '\n' !in w && |w| >= 12 && w[|w| - 11..|w| - 1] == FcStem
                  && (w[|w| - 1] == '1' || w[|w| - 1] == '2');
    if shaped then
      FramedTail(w);
      DigitRunFrom(w, |w| - 12)
    else
      UnframedTail(w);
      false
  }

  lemma FramedTail(w: string)
    requires '\n' !in w && |w| >= 12 && w[|w| - 11..|w| - 1] == FcStem
    requires w[|w| - 1] == '1' || w[|w| - 1] == '2'
    ensures DigitRunFrom(w, |w| - 12) <==> ExpertShape(w)
  {
    assert AllDigits(w[|w| - 11..|w| - 11]);
    DigitRunFromIff(w, |w| - 12);
    forall i | 0 <= i < |w| ensures w[i] != '\n' {
      assert w[i] in w;
    }
  }

  lemma UnframedTail(w: string)
    requires !('\n' !in w && |w| >= 12 && w[|w| - 11..|w| - 1] == FcStem
               && (w[|w| - 1] == '1' || w[|w| - 1] == '2'))
    ensures !ExpertShape(w)
  {
    if '\n' in w {
      var i :| 0 <= i < |w| && w[i] == '\n';
    }
  }

  /** `is_expert_linear`: `re.match` of the expert pattern followed by `$`,
      which also accepts one final newline after the match. */
  function IsExpertLinear(fqn: string): (b: bool)
    ensures b <==> ExpertShape(fqn) || (|fqn| > 0 && fqn[|fqn| - 1] == '\n' && ExpertShape(fqn[..|fqn| - 1]))
  {
    ExpertTail(fqn) || (|fqn| > 0 && fqn[|fqn| - 1] == '\n' && ExpertTail(fqn[..|fqn| - 1]))
  }

  /** Every name built as the pattern describes is an expert linear layer:
      any newline-free prefix, the stem, one more character, a digit run and
      the `.linear_fc1`/`.linear_fc2` suffix. */
  lemma ExpertNameIsExpertLinear(pre: string, c: char, digits: string, d: char)
    requires forall i :: 0 <= i < |pre| ==> pre[i] != '\n'
    requires c != '\n' && |digits| > 0 && AllDigits(digits) && (d == '1' || d == '2')
    ensures IsExpertLinear(pre + ExpertStem + [c] + digits + FcStem + [d])
  {
    var w := pre + ExpertStem + [c] + digits + FcStem + [d];
    var k := |pre| + 26;
    assert |w| == k + |digits| + 11;
    assert w[k - 26..k - 1] == ExpertStem;
    assert w[k..|w| - 11] == digits;
    assert w[|w| - 11..|w| - 1] == FcStem;
    assert ExpertSplitAt(w, k);
    forall i | 0 <= i < |w| ensures w[i] != '\n' {
      if i < |pre| {
        assert w[i] == pre[i];
      } else if k <= i < |w| - 11 {
        assert w[i] == digits[i - k];
      }
    }
  }

  // ---------------------------------------------------------------------
  // LoRA.transform: dispatch on the layer kind
  // ---------------------------------------------------------------------

  /** The layer classes `LoRA.transform` distinguishes, in the order it tests
      them; `OtherLayer` stands for every other module type. */
  datatype LayerKind =
    | TEColumnParallelLinear
    | TELayerNormColumnParallelLinear
    | TERowParallelLinear
    | ColumnParallelLinear
    | RowParallelLinear
    | PlainLinear
    | OtherLayer

  /** A layer found during the model walk. `inFeatures`/`outFeatures` are the
      per-rank `in_features`/`out_features` of a Transformer Engine layer, or
      `input_size`/`output_size` of a Megatron column/row parallel layer. The
      two `returnLayernorm…` flags are the attributes `transform` sets. */
  class Layer {
    const kind: LayerKind
    const inFeatures: int
    const outFeatures: int
    const sequenceParallel: bool
    const ubOverlapAg: bool
    var returnLayernormOutput: bool
    var returnLayernormOutputGathered: bool

    constructor (kind: LayerKind, inFeatures: int, outFeatures: int, sequenceParallel: bool, ubOverlapAg: bool)
      ensures this.kind == kind && this.inFeatures == inFeatures && this.outFeatures == outFeatures
      ensures this.sequenceParallel == sequenceParallel && this.ubOverlapAg == ubOverlapAg
      ensures !returnLayernormOutput && !returnLayernormOutputGathered
    {
      this.kind := kind;
      this.inFeatures := inFeatures;
      this.outFeatures := outFeatures;
      this.sequenceParallel := sequenceParallel;
      this.ubOverlapAg := ubOverlapAg;
      returnLayernormOutput := false;
      returnLayernormOutputGathered := false;
    }
  }

  /** The test on line 237, with Python's precedence:
      `(HAVE_TE and TEColumn) or TELayerNormColumn`. */
  predicate ColumnBranch(kind: LayerKind, haveTE: bool)
  {
    (haveTE && kind == TEColumnParallelLinear) || kind == TELayerNormColumnParallelLinear
  }

  predicate IsRowKind(kind: LayerKind)
  {
    kind == TERowParallelLinear || kind == RowParallelLinear
  }

  predicate IsTransformerEngineKind(kind: LayerKind)
  {
    kind == TEColumnParallelLinear || kind == TELayerNormColumnParallelLinear || kind == TERowParallelLinear
  }

  datatype Sizing = Sizing(inFeatures: int, outFeatures: int, inputIsParallel: bool)

  /** The full (unsharded) feature sizes of the parallel adapter for a
      tensor-parallel layer, and whether its input is already split; `None`
      for the kinds that take another path. */
  function ParallelSizing(kind: LayerKind, inFeatures: int, outFeatures: int, haveTE: bool, tpSize: int): (r: Option<Sizing>)
    ensures r.Some? <==> ColumnBranch(kind, haveTE) || (haveTE && kind == TERowParallelLinear)
                         || kind == ColumnParallelLinear || kind == RowParallelLinear
    ensures r.Some? ==> (r.value.inputIsParallel <==> IsRowKind(kind))
    // a Transformer Engine layer holds one shard: the split axis is scaled back by tp_size
    ensures r.Some? && IsTransformerEngineKind(kind) && !IsRowKind(kind) ==>
              r.value.inFeatures == inFeatures && r.value.outFeatures == outFeatures * tpSize
    ensures r.Some? && IsTransformerEngineKind(kind) && IsRowKind(kind) ==>
              r.value.inFeatures == inFeatures * tpSize && r.value.outFeatures == outFeatures
    // Megatron layers already report the full sizes
    ensures r.Some? && !IsTransformerEngineKind(kind) ==>
              r.value.inFeatures == inFeatures && r.value.outFeatures == outFeatures
  {
    if ColumnBranch(kind, haveTE) then Some(Sizing(inFeatures, outFeatures * tpSize, false))
    else if haveTE && kind == TERowParallelLinear then Some(Sizing(inFeatures * tpSize, outFeatures, true))
    else if kind == ColumnParallelLinear then Some(Sizing(inFeatures, outFeatures, false))
    else if kind == RowParallelLinear then Some(Sizing(inFeatures, outFeatures, true))
    else None
  }

  /** Without tensor parallelism every kind's adapter has the layer's own sizes. */
  lemma SizingWithoutTensorParallelism(kind: LayerKind, inFeatures: int, outFeatures: int, haveTE: bool)
    requires ParallelSizing(kind, inFeatures, outFeatures, haveTE, 1).Some?
    ensures ParallelSizing(kind, inFeatures, outFeatures, haveTE, 1).value.inFeatures == inFeatures
    ensures ParallelSizing(kind, inFeatures, outFeatures, haveTE, 1).value.outFeatures == outFeatures
  {
  }

  /** Because of the precedence on line 237 a layer-norm column layer takes the
      Transformer Engine column path even when `HAVE_TE` is false, while a
      plain Transformer Engine column layer then finds no branch. */
  lemma LayerNormColumnIgnoresHaveTE(inFeatures: int, outFeatures: int, tpSize: int)
    ensures ParallelSizing(TELayerNormColumnParallelLinear, inFeatures, outFeatures, false, tpSize)
            == Some(Sizing(inFeatures, outFeatures * tpSize, false))
    ensures ParallelSizing(TEColumnParallelLinear, inFeatures, outFeatures, false, tpSize).None?
  {
  }

  /** `'qkv' in full_name.lower()`: a plain linear layer gets the fused-QKV
      adapter exactly when its lower-cased name contains "qkv". */
  function UsesQkvAdapter(fullName: string): (b: bool)
    ensures b <==> exists i :: OccursAt("qkv", Lower(fullName), i)
  {
    ContainsIffOccurs("qkv", Lower(fullName));
    Contains("qkv", Lower(fullName))
  }

  /** The `LoRA` dataclass fields. */
  datatype LoraConfig = LoraConfig(
    targetModules: seq<string>,
    dim: int,
    alpha: int,
    dropout: real,
    dropoutPosition: string,
    loraAInitMethod: string,
    loraBInitMethod: string,
    a2aExperimental: bool)

  const DefaultConfig: LoraConfig :=
    LoraConfig(DefaultTargets, 32, 32, 0.0, "post", "xavier", "zero", false)

  /** The constructor arguments of `ParallelLinearAdapter` that `transform` chooses. */
  datatype ParallelAdapterArgs = ParallelAdapterArgs(
    inFeatures: int,
    outFeatures: int,
    dim: int,
    inputIsParallel: bool,
    columnInitMethod: string,
    rowInitMethod: string,
    dropout: real,
    dropoutPosition: string,
    alpha: int,
    isExpert: bool,
    a2aExperimental: bool)

  /** What `transform` returns: the module itself, the module wrapped in
      `AdapterParallelAdd` with a parallel adapter, or a plain-`nn.Linear`
      adapter (`forQkv` picks `LinearAdapterForQKV`); the plain adapters are
      built with the default `dropout_position`. */
  datatype Transformed =
    | Unchanged
    | WithParallelAdapter(args: ParallelAdapterArgs)
    | WithLinearAdapter(forQkv: bool, dim: int, alpha: int, dropout: real, loraAInitMethod: string)

  datatype TransformError = LayerTypeUnrecognized

  /** `LoRA.transform(m, name, prefix)`. `haveTE` is the import-time flag and
      `tpSize` the tensor-parallel world size. */
  method Transform(cfg: LoraConfig, m: Layer, name: Option<string>, prefix: Option<string>, haveTE: bool, tpSize: int)
    returns (r: Result<Transformed, TransformError>)
    modifies m
    ensures !Targeted(cfg.targetModules, prefix, name) ==> r == Success(Unchanged) && unchanged(m)
    ensures Targeted(cfg.targetModules, prefix, name) ==>
              var full := FullName(prefix, name).value;
              var sizing := ParallelSizing(m.kind, m.inFeatures, m.outFeatures, haveTE, tpSize);
              && (sizing.Some? ==>
                    r == Success(WithParallelAdapter(ParallelAdapterArgs(
                           sizing.value.inFeatures, sizing.value.outFeatures, cfg.dim, sizing.value.inputIsParallel,
                           cfg.loraAInitMethod, cfg.loraBInitMethod, cfg.dropout, cfg.dropoutPosition, cfg.alpha,
                           IsExpertLinear(full), cfg.a2aExperimental))))
              && (sizing.None? && m.kind == PlainLinear ==>
                    r == Success(WithLinearAdapter(UsesQkvAdapter(full), cfg.dim, cfg.alpha, cfg.dropout, cfg.loraAInitMethod)))
              && (sizing.None? && m.kind != PlainLinear ==> r == Failure(LayerTypeUnrecognized))
    // only the column branch touches the layer: it always asks for the layer-norm
    // output, and for the gathered output under sequence parallelism without overlap
    ensures Targeted(cfg.targetModules, prefix, name) && ColumnBranch(m.kind, haveTE) ==>
              m.returnLayernormOutput
              && m.returnLayernormOutputGathered ==
                   (old(m.returnLayernormOutputGathered) || (m.sequenceParallel && !m.ubOverlapAg))
    ensures !(Targeted(cfg.targetModules, prefix, name) && ColumnBranch(m.kind, haveTE)) ==> unchanged(m)
  {
    var full := FullName(prefix, name);
    if !Targeted(cfg.targetModules, prefix, name) {
      return Success(Unchanged);
    }
    var sizing: Sizing;
    if ColumnBranch(m.kind, haveTE) {
      sizing := Sizing(m.inFeatures, m.outFeatures * tpSize, false);
      m.returnLayernormOutput := true;
      if m.sequenceParallel && !m.ubOverlapAg {
        m.returnLayernormOutputGathered := true;
      }
    } else if haveTE && m.kind == TERowParallelLinear {
      sizing := Sizing(m.inFeatures * tpSize, m.outFeatures, true);
    } else if m.kind == ColumnParallelLinear {
      sizing := Sizing(m.inFeatures, m.outFeatures, false);
    } else if m.kind == RowParallelLinear {
      sizing := Sizing(m.inFeatures, m.outFeatures, true);
    } else if m.kind == PlainLinear {
      var forQkv := UsesQkvAdapter(full.value);
      return Success(WithLinearAdapter(forQkv, cfg.dim, cfg.alpha, cfg.dropout, cfg.loraAInitMethod));
    } else {
      return Failure(LayerTypeUnrecognized);
    }
    var args := ParallelAdapterArgs(
      sizing.inFeatures, sizing.outFeatures, cfg.dim, sizing.inputIsParallel,
      cfg.loraAInitMethod, cfg.loraBInitMethod, cfg.dropout, cfg.dropoutPosition, cfg.alpha,
      IsExpertLinear(full.value), cfg.a2aExperimental);
    return Success(WithParallelAdapter(args));
  }

  // ---------------------------------------------------------------------
  // AdapterParallelAdd.forward
  // ---------------------------------------------------------------------

  /** `AdapterParallelAdd.forward`: the wrapped layer's output plus the adapter
      applied to the layer-norm output; the bias is passed through. */
  function ParallelAddForward<B>(linearOutput: Vector, bias: B, layernormOutput: Vector, adapter: Vector -> Vector): (r: (Vector, B))
    requires |adapter(layernormOutput)| == |linearOutput|
    ensures |r.0| == |linearOutput| && r.1 == bias
    ensures forall i :: 0 <= i < |linearOutput| ==> r.0[i] - linearOutput[i] == adapter(layernormOutput)[i]
  {
    (AddV(linearOutput, adapter(layernormOutput)), bias)
  }

  /** An adapter that outputs zeros leaves the wrapped layer's result as it was. */
  lemma ParallelAddOfZeroAdapter<B>(linearOutput: Vector, bias: B, layernormOutput: Vector, adapter: Vector -> Vector)
    requires adapter(layernormOutput) == ZeroVector(|linearOutput|)
    ensures ParallelAddForward(linearOutput, bias, layernormOutput, adapter) == (linearOutput, bias)
  {
    var r := ParallelAddForward(linearOutput, bias, layernormOutput, adapter);
    assert r.0 == linearOutput;
  }

  // ---------------------------------------------------------------------
  // LinearAdapter and LinearAdapterForQKV
  // ---------------------------------------------------------------------

  /** A plain `nn.Linear`: weight `out x in`, optional bias, and the
      `requires_grad` flags that the adapters clear. */
  class Linear {
    const inFeatures: nat
    const outFeatures: nat
    var weight: Matrix
    var bias: Option<Vector>
    var weightRequiresGrad: bool
    var biasRequiresGrad: bool

    ghost predicate Valid()
      reads this
    {
      IsMatrix(weight, outFeatures, inFeatures) && (bias.Some? ==> |bias.value| == outFeatures)
    }

    constructor (inFeatures: nat, outFeatures: nat, weight: Matrix, bias: Option<Vector>)
      requires IsMatrix(weight, outFeatures, inFeatures) && (bias.Some? ==> |bias.value| == outFeatures)
      ensures Valid()
      ensures this.inFeatures == inFeatures && this.outFeatures == outFeatures
      ensures this.weight == weight && this.bias == bias
      ensures weightRequiresGrad && biasRequiresGrad
    {
      this.inFeatures := inFeatures;
      this.outFeatures := outFeatures;
      this.weight := weight;
      this.bias := bias;
      weightRequiresGrad := true;
      biasRequiresGrad := true;
    }

    /** `nn.Linear.forward` on one input row: `W x + b`. */
    function Forward(x: Vector): (y: Vector)
      reads this
      requires Valid() && |x| == inFeatures
      ensures |y| == outFeatures
      ensures bias.None? ==> y == Apply(weight, x)
      ensures bias.Some? ==> forall i :: 0 <= i < outFeatures ==> y[i] == Apply(weight, x)[i] + bias.value[i]
    {
      var wx := Apply(weight, x);
      if bias.Some? then AddV(wx, bias.value) else wx
    }
  }

  /** The errors the adapter constructors raise, in the order they can occur:
      `alpha / dim` (line 65), `torch.zeros` with a negative size, `nn.Dropout`
      with `p` outside [0, 1], and the `dropout_position` assertion. */
  datatype AdapterError = ZeroDivision | NegativeDimension | InvalidDropoutProbability | InvalidDropoutPosition

  datatype LinearAdapter = LinearAdapter(
    dim: nat,
    scale: real,
    loraA: Matrix,
    loraB: Matrix,
    dropout: real,
    dropoutPosition: string)

  /** The adapter's weights have the shapes `in x dim` and `dim x out`. */
  ghost predicate LinearAdapterShaped(ad: LinearAdapter, inFeatures: nat, outFeatures: nat)
  {
    IsMatrix(ad.loraA, inFeatures, ad.dim) && IsMatrix(ad.loraB, ad.dim, outFeatures)
  }

  /** Which validation fails first, if any, for the given arguments. */
  function ConstructionError(dim: int, dropout: real, dropoutPosition: string): (e: Option<AdapterError>)
    ensures e.None? <==> dim > 0 && 0.0 <= dropout <= 1.0 && (dropoutPosition == "pre" || dropoutPosition == "post")
    ensures dim == 0 ==> e == Some(ZeroDivision)
  {
    if dim == 0 then Some(ZeroDivision)
    else if dim < 0 then Some(NegativeDimension)
    else if !(0.0 <= dropout <= 1.0) then Some(InvalidDropoutProbability)
    else if !(dropoutPosition == "pre" || dropoutPosition == "post") then Some(InvalidDropoutPosition)
    else None
  }

  /** The initial `lora_a`: filled by `uniform_` when the method is 'xavier',
      otherwise by `kaiming_uniform_`; the drawn values are parameters. */
  function InitialA(inFeatures: nat, dim: nat, loraAInitMethod: string,
                    uniformDraw: (nat, nat) -> real, kaimingDraw: (nat, nat) -> real): (a: Matrix)
    ensures IsMatrix(a, inFeatures, dim)
  {
    if loraAInitMethod == "xavier" then Build(inFeatures, dim, uniformDraw) else Build(inFeatures, dim, kaimingDraw)
  }

  /** Freezes the original layer's weight and bias. */
  method Freeze(orig: Linear)
    modifies orig
    ensures !orig.weightRequiresGrad
    ensures orig.bias.Some? ==> !orig.biasRequiresGrad
    ensures orig.bias.None? ==> orig.biasRequiresGrad == old(orig.biasRequiresGrad)
    ensures orig.weight == old(orig.weight) && orig.bias == old(orig.bias)
  {
    orig.weightRequiresGrad := false;
    if orig.bias.Some? {
      orig.biasRequiresGrad := false;
    }
  }

  /** `LinearAdapter(orig_linear, dim, alpha, dropout, dropout_position,
      lora_A_init_method)`. The original layer is frozen before the later
      checks, so it stays frozen when one of them fails. */
  method NewLinearAdapter(orig: Linear, dim: int, alpha: int, dropout: real, dropoutPosition: string,
                          loraAInitMethod: string, uniformDraw: (nat, nat) -> real, kaimingDraw: (nat, nat) -> real)
    returns (r: Result<LinearAdapter, AdapterError>)
    modifies orig
    ensures r.Failure? <==> ConstructionError(dim, dropout, dropoutPosition).Some?
    ensures r.Failure? ==> r.error == ConstructionError(dim, dropout, dropoutPosition).value
    ensures dim == 0 ==> unchanged(orig)
    ensures dim != 0 ==> !orig.weightRequiresGrad && (orig.bias.Some? ==> !orig.biasRequiresGrad)
                         && (orig.bias.None? ==> orig.biasRequiresGrad == old(orig.biasRequiresGrad))
                         && orig.weight == old(orig.weight) && orig.bias == old(orig.bias)
    ensures r.Success? ==>
              r.value == LinearAdapter(dim, alpha as real / dim as real,
                                       InitialA(orig.inFeatures, dim, loraAInitMethod, uniformDraw, kaimingDraw),
                                       Zeros(dim, orig.outFeatures), dropout, dropoutPosition)
  {
    if dim == 0 {
      return Failure(ZeroDivision);
    }
    var scale := alpha as real / dim as real;
    Freeze(orig);
    if dim < 0 {
      return Failure(NegativeDimension);
    }
    var loraA := InitialA(orig.inFeatures, dim, loraAInitMethod, uniformDraw, kaimingDraw);
    var loraB := Zeros(dim, orig.outFeatures);
    if !(0.0 <= dropout <= 1.0) {
      return Failure(InvalidDropoutProbability);
    }
    if !(dropoutPosition == "pre" || dropoutPosition == "post") {
      return Failure(InvalidDropoutPosition);
    }
    return Success(LinearAdapter(dim, scale, loraA, loraB, dropout, dropoutPosition));
  }

  /** `LinearAdapter.forward(x)`, given `res`, the original layer's output on
      `x`, and `drop`, the dropout in effect (applied before the low-rank path
      or after it). */
  function LinearAdapterForward(res: Vector, ad: LinearAdapter, drop: Vector -> Vector, x: Vector): (y: Vector)
    requires LinearAdapterShaped(ad, |x|, |res|)
    requires forall v :: |drop(v)| == |v|
    ensures |y| == |res|
  {
    var x' := if ad.dropoutPosition == "pre" then drop(x) else x;
    var lora := ScaleV(ad.scale, VecMat(VecMat(x', ad.loraA, ad.dim), ad.loraB, |res|));
    var lora' := if ad.dropoutPosition == "post" then drop(lora) else lora;
    AddV(res, lora')
  }

  /** A freshly built `LinearAdapter` (zero `lora_b`) reproduces the original
      layer, whichever dropout is in effect, provided dropout keeps zeros at zero
      when it is applied after the low-rank path. */
  lemma FreshLinearAdapterKeepsOutput(res: Vector, ad: LinearAdapter, drop: Vector -> Vector, x: Vector)
    requires LinearAdapterShaped(ad, |x|, |res|)
    requires forall v :: |drop(v)| == |v|
    requires ad.loraB == Zeros(ad.dim, |res|)
    requires ad.dropoutPosition == "post" ==> drop(ZeroVector(|res|)) == ZeroVector(|res|)
    ensures LinearAdapterForward(res, ad, drop, x) == res
  {
    var x' := if ad.dropoutPosition == "pre" then drop(x) else x;
    var mid := VecMat(x', ad.loraA, ad.dim);
    VecMatZero(mid, ad.dim, |res|);
    assert ScaleV(ad.scale, ZeroVector(|res|)) == ZeroVector(|res|);
    assert AddV(res, ZeroVector(|res|)) == res;
  }

  /** `LinearAdapterForQKV`: three low-rank branches, one each for query, key and
      value. Each `lora_a[k]` is an `nn.Linear(in, dim)` (weight `dim x in`) and
      each `lora_b[k]` an `nn.Linear(dim, out // 3)` (weight `out//3 x dim`). */
  datatype QkvAdapter = QkvAdapter(
    dim: nat,
    scale: real,
    branchWidth: nat,
    loraA: seq<Matrix>,
    loraB: seq<Matrix>,
    dropout: real,
    dropoutPosition: string)

  ghost predicate QkvAdapterShaped(ad: QkvAdapter, inFeatures: nat)
  {
    |ad.loraA| == 3 && |ad.loraB| == 3
    && (forall k :: 0 <= k < 3 ==> IsMatrix(ad.loraA[k], ad.dim, inFeatures))
    && (forall k :: 0 <= k < 3 ==> IsMatrix(ad.loraB[k], ad.branchWidth, ad.dim))
  }

  /** The three `lora_a` weights: drawn by `nn.Linear`'s default initialiser,
      then redrawn by `uniform_` when the method is 'xavier' and by
      `kaiming_uniform_` otherwise; the final draws are parameters. */
  function InitialQkvA(inFeatures: nat, dim: nat, loraAInitMethod: string,
                       uniformDraw: (nat, nat, nat) -> real, kaimingDraw: (nat, nat, nat) -> real): (a: seq<Matrix>)
    ensures |a| == 3 && forall k :: 0 <= k < 3 ==> IsMatrix(a[k], dim, inFeatures)
  {
    seq(3, k requires 0 <= k < 3 =>
      if loraAInitMethod == "xavier" then Build(dim, inFeatures, (i: nat, j: nat) => uniformDraw(k, i, j))
      else Build(dim, inFeatures, (i: nat, j: nat) => kaimingDraw(k, i, j)))
  }

  /** `LinearAdapterForQKV(...)` as written: `lora_b` keeps `nn.Linear`'s
      default (random) initialisation, whose draws are `defaultDraw`. */
  method NewQkvAdapter(orig: Linear, dim: int, alpha: int, dropout: real, dropoutPosition: string,
                       loraAInitMethod: string, uniformDraw: (nat, nat, nat) -> real,
                       kaimingDraw: (nat, nat, nat) -> real, defaultDraw: (nat, nat, nat) -> real)
    returns (r: Result<QkvAdapter, AdapterError>)
    modifies orig
    ensures r.Failure? <==> ConstructionError(dim, dropout, dropoutPosition).Some?
    ensures r.Failure? ==> r.error == ConstructionError(dim, dropout, dropoutPosition).value
    ensures dim == 0 ==> unchanged(orig)
    ensures dim != 0 ==> !orig.weightRequiresGrad && (orig.bias.Some? ==> !orig.biasRequiresGrad)
                         && (orig.bias.None? ==> orig.biasRequiresGrad == old(orig.biasRequiresGrad))
                         && orig.weight == old(orig.weight) && orig.bias == old(orig.bias)
    ensures r.Success? ==>
              r.value == QkvAdapter(dim, alpha as real / dim as real, orig.outFeatures / 3,
                                    InitialQkvA(orig.inFeatures, dim, loraAInitMethod, uniformDraw, kaimingDraw),
                                    seq(3, k requires 0 <= k < 3 =>
                                      Build(orig.outFeatures / 3, dim, (i: nat, j: nat) => defaultDraw(k, i, j))),
                                    dropout, dropoutPosition)
  {
    if dim == 0 {
      return Failure(ZeroDivision);
    }
    var scale := alpha as real / dim as real;
    Freeze(orig);
    if dim < 0 {
      return Failure(NegativeDimension);
    }
    var width := orig.outFeatures / 3;
    var loraA := InitialQkvA(orig.inFeatures, dim, loraAInitMethod, uniformDraw, kaimingDraw);
    var loraB := seq(3, k requires 0 <= k < 3 => Build(width, dim, (i: nat, j: nat) => defaultDraw(k, i, j)));
    if !(0.0 <= dropout <= 1.0) {
      return Failure(InvalidDropoutProbability);
    }
    if !(dropoutPosition == "pre" || dropoutPosition == "post") {
      return Failure(InvalidDropoutPosition);
    }
    return Success(QkvAdapter(dim, scale, width, loraA, loraB, dropout, dropoutPosition));
  }

  /** The same constructor with `lora_b` started at zero, as `LinearAdapter`
      and the LoRA method itself do. */
  method NewQkvAdapterZeroB(orig: Linear, dim: int, alpha: int, dropout: real, dropoutPosition: string,
                            loraAInitMethod: string, uniformDraw: (nat, nat, nat) -> real,
                            kaimingDraw: (nat, nat, nat) -> real)
    returns (r: Result<QkvAdapter, AdapterError>)
    modifies orig
    ensures r.Failure? <==> ConstructionError(dim, dropout, dropoutPosition).Some?
    ensures r.Failure? ==> r.error == ConstructionError(dim, dropout, dropoutPosition).value
    ensures dim == 0 ==> unchanged(orig)
    ensures dim != 0 ==> !orig.weightRequiresGrad && (orig.bias.Some? ==> !orig.biasRequiresGrad)
                         && (orig.bias.None? ==> orig.biasRequiresGrad == old(orig.biasRequiresGrad))
                         && orig.weight == old(orig.weight) && orig.bias == old(orig.bias)
    ensures r.Success? ==>
              r.value == QkvAdapter(dim, alpha as real / dim as real, orig.outFeatures / 3,
                                    InitialQkvA(orig.inFeatures, dim, loraAInitMethod, uniformDraw, kaimingDraw),
                                    seq(3, _ => Zeros(orig.outFeatures / 3, dim)), dropout, dropoutPosition)
  {
    if dim == 0 {
      return Failure(ZeroDivision);
    }
    var scale := alpha as real / dim as real;
    Freeze(orig);
    if dim < 0 {
      return Failure(NegativeDimension);
    }
    var width := orig.outFeatures / 3;
    var loraA := InitialQkvA(orig.inFeatures, dim, loraAInitMethod, uniformDraw, kaimingDraw);
    var loraB := seq(3, _ => Zeros(width, dim));
    if !(0.0 <= dropout <= 1.0) {
      return Failure(InvalidDropoutProbability);
    }
    if !(dropoutPosition == "pre" || dropoutPosition == "post") {
      return Failure(InvalidDropoutPosition);
    }
    return Success(QkvAdapter(dim, scale, width, loraA, loraB, dropout, dropoutPosition));
  }

  /** One branch `lora_b[k](lora_a[k](x)) * scale`. */
  function QkvBranch(ad: QkvAdapter, k: nat, x: Vector): (y: Vector)
    requires QkvAdapterShaped(ad, |x|) && k < 3
    ensures |y| == ad.branchWidth
  {
    ScaleV(ad.scale, Apply(ad.loraB[k], Apply(ad.loraA[k], x)))
  }

  /** `LinearAdapterForQKV.forward(x)`, given the original layer's output `res`
      (whose width must be three branch widths for the sum to be defined). */
  function QkvForward(res: Vector, ad: QkvAdapter, drop: Vector -> Vector, x: Vector): (y: Vector)
    requires QkvAdapterShaped(ad, |x|) && |res| == 3 * ad.branchWidth
    requires forall v :: |drop(v)| == |v|
    ensures |y| == |res|
    // the low-rank part is the three branch outputs side by side
    ensures ad.dropoutPosition != "post" ==>
              var x' := if ad.dropoutPosition == "pre" then drop(x) else x;
              forall k, j :: 0 <= k < 3 && 0 <= j < ad.branchWidth ==>
                y[k * ad.branchWidth + j] == res[k * ad.branchWidth + j] + QkvBranch(ad, k, x')[j]
    // with dropout after the branches, it is applied to their concatenation
    ensures ad.dropoutPosition == "post" ==>
              var lora := QkvBranch(ad, 0, x) + QkvBranch(ad, 1, x) + QkvBranch(ad, 2, x);
              |drop(lora)| == |res| && forall i :: 0 <= i < |res| ==> y[i] == res[i] + drop(lora)[i]
  {
    var x' := if ad.dropoutPosition == "pre" then drop(x) else x;
    var lora := QkvBranch(ad, 0, x') + QkvBranch(ad, 1, x') + QkvBranch(ad, 2, x');
    var lora' := if ad.dropoutPosition == "post" then drop(lora) else lora;
    BranchesSideBySide(ad, x', lora);
    AddV(res, lora')
  }

  /** Entry `j` of block `k` of the concatenated branches is entry `j` of branch `k`. */
  lemma BranchesSideBySide(ad: QkvAdapter, x: Vector, lora: Vector)
    requires QkvAdapterShaped(ad, |x|)
    requires lora == QkvBranch(ad, 0, x) + QkvBranch(ad, 1, x) + QkvBranch(ad, 2, x)
    ensures forall k, j :: 0 <= k < 3 && 0 <= j < ad.branchWidth ==>
              lora[k * ad.branchWidth + j] == QkvBranch(ad, k, x)[j]
  {
    var w := ad.branchWidth;
    forall k, j | 0 <= k < 3 && 0 <= j < w
      ensures lora[k * w + j] == QkvBranch(ad, k, x)[j]
    {
      if k == 1 {
        assert k * w + j == w + j;
      } else if k == 2 {
        assert k * w + j == 2 * w + j;
      }
    }
  }

  /** With every `lora_b[k]` zero the QKV adapter reproduces the original layer. */
  lemma ZeroBQkvAdapterKeepsOutput(res: Vector, ad: QkvAdapter, drop: Vector -> Vector, x: Vector)
    requires QkvAdapterShaped(ad, |x|) && |res| == 3 * ad.branchWidth
    requires forall v :: |drop(v)| == |v|
    requires forall k :: 0 <= k < 3 ==> ad.loraB[k] == Zeros(ad.branchWidth, ad.dim)
    requires ad.dropoutPosition == "post" ==> drop(ZeroVector(|res|)) == ZeroVector(|res|)
    ensures QkvForward(res, ad, drop, x) == res
  {
    var x' := if ad.dropoutPosition == "pre" then drop(x) else x;
    forall k | 0 <= k < 3 ensures QkvBranch(ad, k, x') == ZeroVector(ad.branchWidth) {
      ApplyZero(ad.branchWidth, Apply(ad.loraA[k], x'));
      assert ScaleV(ad.scale, ZeroVector(ad.branchWidth)) == ZeroVector(ad.branchWidth);
    }
    var w := ad.branchWidth;
    assert ZeroVector(w) + ZeroVector(w) + ZeroVector(w) == ZeroVector(|res|);
    assert AddV(res, ZeroVector(|res|)) == res;
  }

  /** A one-by-one `Build` holds its single draw. */
  lemma BuildOneByOne(draw: (nat, nat) -> real)
    ensures Build(1, 1, draw) == [[draw(0, 0)]]
  {
    assert Build(1, 1, draw)[0] == [draw(0, 0)];
  }

  /** Both `lora_a` initialisations give rank-one, one-input matrices of 0.5
      when every draw is 0.5. */
  lemma InitialQkvAAtHalf(loraAInitMethod: string, draw: (nat, nat, nat) -> real)
    requires forall k: nat, i: nat, j: nat :: draw(k, i, j) == 0.5
    ensures InitialQkvA(1, 1, loraAInitMethod, draw, draw) == seq(3, _ => [[0.5]])
  {
    var a := InitialQkvA(1, 1, loraAInitMethod, draw, draw);
    forall k | 0 <= k < 3
      ensures a[k] == [[0.5]]
    {
      BuildOneByOne((i: nat, j: nat) => draw(k, i, j));
    }
  }

  /** The default `lora_b` initialisation with every draw 0.5. */
  lemma DefaultQkvBAtHalf(draw: (nat, nat, nat) -> real)
    requires forall k: nat, i: nat, j: nat :: draw(k, i, j) == 0.5
    ensures seq(3, k requires 0 <= k < 3 => Build(3 / 3, 1, (i: nat, j: nat) => draw(k, i, j)))
            == seq(3, _ => [[0.5]])
  {
    var b := seq(3, k requires 0 <= k < 3 => Build(3 / 3, 1, (i: nat, j: nat) => draw(k, i, j)));
    forall k | 0 <= k < 3
      ensures b[k] == [[0.5]]
    {
      BuildOneByOne((i: nat, j: nat) => draw(k, i, j));
    }
  }

  /** The forward pass of the rank-one adapter whose matrices are all 0.5. */
  lemma HalfQkvAdapterForward(x: Vector, ad: QkvAdapter)
    requires x == [1.0]
    requires ad == QkvAdapter(1, 1.0, 1, seq(3, _ => [[0.5]]), seq(3, _ => [[0.5]]), 0.0, "post")
    ensures QkvForward([0.0, 0.0, 0.0], ad, v => v, x) == [0.25, 0.25, 0.25]
  {
    assert Apply([[0.5]], [1.0]) == [0.5];
    assert Apply([[0.5]], [0.5]) == [0.25];
    assert QkvBranch(ad, 0, x) == [0.25];
    assert QkvBranch(ad, 1, x) == [0.25];
    assert QkvBranch(ad, 2, x) == [0.25];
  }

  /** With `lora_b` left at its default initialisation, a freshly built QKV
      adapter can change the layer's output. `ad` is the adapter `NewQkvAdapter`
      promises for one input, three outputs, rank one, `alpha` one, no dropout
      and every draw 0.5; with a zero original output the result is
      [0.25, 0.25, 0.25]. */
  lemma FreshQkvAdapterCanChangeOutput(res: Vector, x: Vector, loraAInitMethod: string,
                                       draw: (nat, nat, nat) -> real, ad: QkvAdapter)
    requires res == [0.0, 0.0, 0.0] && x == [1.0]
    requires forall k: nat, i: nat, j: nat :: draw(k, i, j) == 0.5
    requires ad == QkvAdapter(1, 1 as real / 1 as real, 3 / 3,
                              InitialQkvA(1, 1, loraAInitMethod, draw, draw),
                              seq(3, k requires 0 <= k < 3 => Build(3 / 3, 1, (i: nat, j: nat) => draw(k, i, j))),
                              0.0, "post")
    ensures QkvForward(res, ad, v => v, x) == [0.25, 0.25, 0.25]
    ensures QkvForward(res, ad, v => v, x) != res
  {
    InitialQkvAAtHalf(loraAInitMethod, draw);
    DefaultQkvBAtHalf(draw);
    HalfQkvAdapterForward(x, ad);
  }

  // ---------------------------------------------------------------------
  // LoRAMerge.transform
  // ---------------------------------------------------------------------

  /** The weights of a trained parallel adapter: `linear_in` (`dim x in`) and
      `linear_out` (`out x dim`), with its `alpha` and `dim`. */
  datatype ParallelAdapter = ParallelAdapter(alpha: int, dim: int, linearIn: Matrix, linearOut: Matrix)

  /** A module met by the merge walk: an `AdapterParallelAdd` around a base
      layer, or anything else. */
  datatype Module = AdapterParallelAdd(toWrap: Linear, adapter: ParallelAdapter) | OtherModule

  /** The layer's weight and an adapter of rank `dim >= 0` have the shapes the
      product `linear_out @ linear_in` and the sum need. */
  ghost predicate ShapesAgree(w: Matrix, ad: ParallelAdapter, outFeatures: nat, inFeatures: nat)
  {
    ad.dim >= 0 && IsMatrix(w, outFeatures, inFeatures)
    && IsMatrix(ad.linearOut, outFeatures, ad.dim) && IsMatrix(ad.linearIn, ad.dim, inFeatures)
  }

  /** Shapes agree and `alpha / dim` does not divide by zero. */
  ghost predicate MergeShaped(w: Matrix, ad: ParallelAdapter, outFeatures: nat, inFeatures: nat)
  {
    ad.dim > 0 && ShapesAgree(w, ad, outFeatures, inFeatures)
  }

  /** `base + alpha / dim * linear_out @ linear_in`, evaluated left to right:
      the scale multiplies `linear_out` before the product. */
  function MergedWeight(w: Matrix, ad: ParallelAdapter, outFeatures: nat, inFeatures: nat): (m: Matrix)
    requires MergeShaped(w, ad, outFeatures, inFeatures)
    ensures IsMatrix(m, outFeatures, inFeatures)
  {
    var c := ad.alpha as real / ad.dim as real;
    Add(w, MatMul(Scale(c, ad.linearOut), ad.linearIn, outFeatures, ad.dim, inFeatures), outFeatures, inFeatures)
  }

  /** The merged layer computes what the layer and its low-rank path computed
      together: `W' x = W x + (alpha/dim) * linear_out (linear_in x)`. */
  lemma MergedWeightComputesAdaptedOutput(w: Matrix, ad: ParallelAdapter, outFeatures: nat, inFeatures: nat, x: Vector)
    requires MergeShaped(w, ad, outFeatures, inFeatures) && |x| == inFeatures
    ensures Apply(MergedWeight(w, ad, outFeatures, inFeatures), x)
            == AddV(Apply(w, x), ScaleV(ad.alpha as real / ad.dim as real, Apply(ad.linearOut, Apply(ad.linearIn, x))))
  {
    var c := ad.alpha as real / ad.dim as real;
    var scaled := Scale(c, ad.linearOut);
    var low := MatMul(scaled, ad.linearIn, outFeatures, ad.dim, inFeatures);
    ApplyAdd(w, low, outFeatures, x);
    ApplyMatMul(scaled, ad.linearIn, outFeatures, ad.dim, inFeatures, x);
    ApplyScale(c, ad.linearOut, Apply(ad.linearIn, x));
  }

  /** `LoRAMerge.transform(m)`: modules other than `AdapterParallelAdd` come
      back untouched; otherwise the wrapped layer's weight is overwritten in
      place with the merged weight. An adapter of rank zero makes `alpha / dim`
      raise before anything is written. */
  method Merge(m: Module) returns (r: Result<Module, AdapterError>)
    requires m.AdapterParallelAdd? ==>
               m.toWrap.Valid() && ShapesAgree(m.toWrap.weight, m.adapter, m.toWrap.outFeatures, m.toWrap.inFeatures)
    modifies if m.AdapterParallelAdd? then {m.toWrap} else {}
    ensures r.Failure? <==> m.AdapterParallelAdd? && m.adapter.dim == 0
    ensures r.Failure? ==> r.error == ZeroDivision && unchanged(m.toWrap)
    ensures r.Success? ==> r.value == m
    ensures r.Success? && m.AdapterParallelAdd? ==>
              m.toWrap.weight == MergedWeight(old(m.toWrap.weight), m.adapter, m.toWrap.outFeatures, m.toWrap.inFeatures)
              && m.toWrap.bias == old(m.toWrap.bias)
              && m.toWrap.weightRequiresGrad == old(m.toWrap.weightRequiresGrad)
              && m.toWrap.biasRequiresGrad == old(m.toWrap.biasRequiresGrad)
              && m.toWrap.Valid()
  {
    if m.OtherModule? {
      return Success(m);
    }
    if m.adapter.dim == 0 {
      return Failure(ZeroDivision);
    }
    var base := m.toWrap;
    base.weight := MergedWeight(base.weight, m.adapter, base.outFeatures, base.inFeatures);
    return Success(m);
  }
}
