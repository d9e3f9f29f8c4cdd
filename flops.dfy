/** The FLOPs measurement callback: closed-form model FLOPs per model family,
    model-name resolution by substring, and TFLOPs per second per GPU from the
    logged step times. Arithmetic is exact over `real`; Python's float rounding
    is not modelled. */
module Flops {
  import opened Wrappers
  import opened PyOps

  /** The six families of `model_flops_map`, in its order. */
  datatype Family = Gpt3 | Llama2 | Llama3 | Nemotron | Mixtral | Bert

  const FamilyKeys: seq<string> := ["gpt3", "llama2", "llama3", "nemotron", "mixtral", "bert"]

  function KeyOf(f: Family): string
  {
    match f
    case Gpt3 => "gpt3"
    case Llama2 => "llama2"
    case Llama3 => "llama3"
    case Nemotron => "nemotron"
    case Mixtral => "mixtral"
    case Bert => "bert"
  }

  /** The family a model name selects in `model_flops_map`, if any. */
  function FamilyOf(name: Option<string>): (f: Option<Family>)
    ensures f.Some? <==> name.Some? && name.value in FamilyKeys
    ensures f.Some? ==> name == Some(KeyOf(f.value))
  {
    if name.None? then None
    else if name.value == "gpt3" then Some(Gpt3)
    else if name.value == "llama2" then Some(Llama2)
    else if name.value == "llama3" then Some(Llama3)
    else if name.value == "nemotron" then Some(Nemotron)
    else if name.value == "mixtral" then Some(Mixtral)
    else if name.value == "bert" then Some(Bert)
    else None
  }

  /** The first key at index `i` or later, in list order, that occurs in `m`. */
  function FirstMatch(keys: seq<string>, m: string, i: nat): (r: Option<string>)
    ensures r.None? <==> forall j :: i <= j < |keys| ==> !Contains(keys[j], m)
    ensures r.Some? ==> exists j :: i <= j < |keys| && keys[j] == r.value && Contains(keys[j], m)
                                    && forall l :: i <= l < j ==> !Contains(keys[l], m)
    decreases |keys| - i
  {
    if i >= |keys| then None
    else if Contains(keys[i], m) then Some(keys[i])
    else FirstMatch(keys, m, i + 1)
  }

  /** The search stops at the first index whose key occurs. */
  lemma {:induction false} FirstMatchAt(keys: seq<string>, m: string, i: nat, idx: nat)
    requires i <= idx < |keys| && Contains(keys[idx], m)
    requires forall j :: i <= j < idx ==> !Contains(keys[j], m)
    ensures FirstMatch(keys, m, i) == Some(keys[idx])
    decreases idx - i
  {
    if i < idx {
      FirstMatchAt(keys, m, i + 1, idx);
    }
  }

  /** `self.model` after the matching step of `eval_model_flops`: the first
      family key that is a substring of the name, or the name unchanged when
      none is. */
  function ResolveModelName(model: Option<string>): (r: Option<string>)
    ensures model.None? ==> r.None?
    ensures model.Some? && (exists i :: 0 <= i < |FamilyKeys| && Contains(FamilyKeys[i], model.value)) ==>
              r.Some? && r.value in FamilyKeys && Contains(r.value, model.value)
    ensures model.Some? && (forall i :: 0 <= i < |FamilyKeys| ==> !Contains(FamilyKeys[i], model.value)) ==>
              r == model
    // the key chosen is the first, in the map's order, that occurs in the name
    ensures model.Some? && (exists i :: 0 <= i < |FamilyKeys| && Contains(FamilyKeys[i], model.value)) ==>
              exists i :: 0 <= i < |FamilyKeys| && FamilyKeys[i] == r.value
                          && forall j :: 0 <= j < i ==> !Contains(FamilyKeys[j], model.value)
  {
    if model.None? then None
    else
      var m := FirstMatch(FamilyKeys, model.value, 0);
      if m.Some? then m else model
  }

  /** A key that no earlier key occurs in selects itself. */
  lemma KeyResolvesAt(idx: nat, k: string)
    requires idx < |FamilyKeys| && k == FamilyKeys[idx]
    requires forall j :: 0 <= j < idx ==> !Contains(FamilyKeys[j], FamilyKeys[idx])
    ensures ResolveModelName(Some(k)) == Some(k)
  {
    assert Contains(k, k) by {
      assert k[..|k|] == k;
    }
    FirstMatchAt(FamilyKeys, k, 0, idx);
  }

  lemma EarlierKeysAbsentLlama2()
    ensures forall j :: 0 <= j < 1 ==> !Contains(FamilyKeys[j], FamilyKeys[1])
  {
    NotContainedWithoutFirstChar("gpt3", "llama2");
  }

  lemma EarlierKeysAbsentLlama3()
    ensures forall j :: 0 <= j < 2 ==> !Contains(FamilyKeys[j], FamilyKeys[2])
  {
    NotContainedWithoutFirstChar("gpt3", "llama3");
    NotContainedWhenNotShorter("llama2", "llama3");
  }

  lemma EarlierKeysAbsentNemotron()
    ensures forall j :: 0 <= j < 3 ==> !Contains(FamilyKeys[j], FamilyKeys[3])
  {
    NotContainedWithoutFirstChar("gpt3", "nemotron");
    NotContainedWithoutFirstChar("llama2", "nemotron");
    NotContainedWithoutFirstChar("llama3", "nemotron");
  }

  lemma EarlierKeysAbsentMixtral()
    ensures forall j :: 0 <= j < 4 ==> !Contains(FamilyKeys[j], FamilyKeys[4])
  {
    NotContainedWithoutFirstChar("gpt3", "mixtral");
    NotContainedWithoutFirstChar("llama2", "mixtral");
    NotContainedWithoutFirstChar("llama3", "mixtral");
    NotContainedWhenNotShorter("nemotron", "mixtral");
  }

  lemma EarlierKeysAbsentBert()
    ensures forall j :: 0 <= j < 5 ==> !Contains(FamilyKeys[j], FamilyKeys[5])
  {
    NotContainedWhenNotShorter("gpt3", "bert");
    NotContainedWhenNotShorter("llama2", "bert");
    NotContainedWhenNotShorter("llama3", "bert");
    NotContainedWhenNotShorter("nemotron", "bert");
    NotContainedWhenNotShorter("mixtral", "bert");
  }

  /** Each key selects itself: no earlier key is a substring of a later one. */
  lemma KeysResolveToThemselves(f: Family)
    ensures ResolveModelName(Some(KeyOf(f))) == Some(KeyOf(f))
  {
    var k := KeyOf(f);
    match f
    case Gpt3 => KeyResolvesAt(0, k);
    case Llama2 => EarlierKeysAbsentLlama2(); KeyResolvesAt(1, k);
    case Llama3 => EarlierKeysAbsentLlama3(); KeyResolvesAt(2, k);
    case Nemotron => EarlierKeysAbsentNemotron(); KeyResolvesAt(3, k);
    case Mixtral => EarlierKeysAbsentMixtral(); KeyResolvesAt(4, k);
    case Bert => EarlierKeysAbsentBert(); KeyResolvesAt(5, k);
  }

  /** Resolving is idempotent, so a second `eval_model_flops` on the same
      callback selects the same family as the first. */
  lemma ResolveModelNameIdempotent(model: Option<string>)
    ensures ResolveModelName(ResolveModelName(model)) == ResolveModelName(model)
  {
    var r := ResolveModelName(model);
    if r.Some? && r.value in FamilyKeys {
      var f := FamilyOf(r).value;
      KeysResolveToThemselves(f);
    } else if r.Some? {
      assert r == model;
    }
  }

  /** The model hyperparameters the formulas read. */
  datatype Dims = Dims(
    gbs: int,
    seqLen: int,
    hidden: int,
    layers: int,
    ffnHidden: int,
    heads: int,
    queryGroups: int,
    topk: int)

  /** No formula of family `f` divides by zero. */
  predicate DivisorsNonZero(f: Family, d: Dims)
  {
    f == Gpt3 || (d.hidden != 0 && d.layers != 0 && (f != Bert ==> d.heads != 0))
  }

  /** Every hyperparameter is non-negative, as in any real configuration. */
  predicate NonNegDims(d: Dims)
  {
    d.gbs >= 0 && d.seqLen >= 0 && d.hidden >= 0 && d.layers >= 0 && d.ffnHidden >= 0
    && d.heads >= 0 && d.queryGroups >= 0 && d.topk >= 0
  }

  function Q(n: int, m: int): real
    requires m != 0
  {
    n as real / m as real
  }

  lemma QNonNeg(n: int, m: int)
    requires n >= 0 && m > 0
    ensures Q(n, m) >= 0.0
  {
  }

  /** `n/m - k/m == (n - k)/m`. */
  lemma QSub(n: int, k: int, m: int)
    requires m != 0
    ensures Q(n, m) - Q(k, m) == Q(n - k, m)
  {
  }

  /** The shared bracket of the decoder formulas, with the FFN coefficient as a
      parameter: 12 + 12 qg/heads + c ffn/h + 12 s/h + 6 V/(L h). */
  function DecoderBracket(d: Dims, ffnTerm: int, vocab: int): real
    requires d.heads != 0 && d.hidden != 0 && d.layers != 0
  {
    12.0 + Q(12 * d.queryGroups, d.heads) + Q(ffnTerm, d.hidden) + Q(12 * d.seqLen, d.hidden)
    + Q(6 * vocab, d.layers * d.hidden)
  }

  lemma DecoderBracketAtLeastTwelve(d: Dims, ffnTerm: int, vocab: int)
    requires d.heads != 0 && d.hidden != 0 && d.layers != 0
    requires NonNegDims(d) && ffnTerm >= 0 && vocab >= 0
    ensures DecoderBracket(d, ffnTerm, vocab) >= 12.0
  {
    QNonNeg(12 * d.queryGroups, d.heads); QNonNeg(ffnTerm, d.hidden); QNonNeg(12 * d.seqLen, d.hidden);
    NonNegMul(d.layers, d.hidden); QNonNeg(6 * vocab, d.layers * d.hidden);
  }

  /** The `_bert` bracket 1 + s/(6 h) + V/(12 h L). */
  function BertBracket(d: Dims, vocab: int): real
    requires d.hidden != 0 && d.layers != 0
  {
    1.0 + Q(d.seqLen, 6 * d.hidden) + Q(vocab, 12 * d.hidden * d.layers)
  }

  lemma BertBracketAtLeastOne(d: Dims, vocab: int)
    requires d.hidden != 0 && d.layers != 0
    requires NonNegDims(d) && vocab >= 0
    ensures BertBracket(d, vocab) >= 1.0
  {
    NonNegMul(6, d.hidden); QNonNeg(d.seqLen, 6 * d.hidden);
    NonNegMul(12 * d.hidden, d.layers); QNonNeg(vocab, 12 * d.hidden * d.layers);
  }

  /** The decoder formulas: g s L h^2 times the bracket. */
  function DecoderFlops(d: Dims, ffnTerm: int, vocab: int): (r: real)
    requires d.heads != 0 && d.hidden != 0 && d.layers != 0
    ensures NonNegDims(d) && ffnTerm >= 0 && vocab >= 0 ==> r >= 0.0
    ensures d.gbs == 0 || d.seqLen == 0 ==> r == 0.0
  {
    DecoderProductFacts(d);
    if NonNegDims(d) && ffnTerm >= 0 && vocab >= 0 then
      DecoderBracketAtLeastTwelve(d, ffnTerm, vocab);
      NonNegRealMul(DecoderProduct(d) as real, DecoderBracket(d, ffnTerm, vocab));
      DecoderProduct(d) as real * DecoderBracket(d, ffnTerm, vocab)
    else
      DecoderProduct(d) as real * DecoderBracket(d, ffnTerm, vocab)
  }

  /** The decoder product g s L h^2. */
  function DecoderProduct(d: Dims): int
  {
    d.gbs * d.seqLen * d.layers * d.hidden * d.hidden
  }

  lemma DecoderProductFacts(d: Dims)
    ensures NonNegDims(d) ==> DecoderProduct(d) >= 0
    ensures d.gbs == 0 || d.seqLen == 0 ==> DecoderProduct(d) == 0
  {
    if NonNegDims(d) {
      NonNegMul(d.gbs, d.seqLen); NonNegMul(d.gbs * d.seqLen, d.layers);
      NonNegMul(d.gbs * d.seqLen * d.layers, d.hidden); NonNegMul(d.gbs * d.seqLen * d.layers * d.hidden, d.hidden);
    }
  }

  lemma NonNegMul(a: int, b: int)
    requires a >= 0 && b >= 0
    ensures a * b >= 0
  {
  }

  /** The `_gpt3` count: (24 g s h^2 + 4 g s^2 h) (3 L) + 6 g s h V. */
  function Gpt3Count(g: int, s: int, h: int, l: int, vocab: int): (r: int)
    ensures g >= 0 && s >= 0 && h >= 0 && l >= 0 && vocab >= 0 ==> r >= 0
    ensures g == 0 || s == 0 ==> r == 0
  {
    Gpt3ProductFacts(g, s, h, l, vocab);
    (24 * g * s * h * h + 4 * g * s * s * h) * (3 * l) + 6 * g * s * h * vocab
  }

  /** The sign and zero facts of the `_gpt3` polynomial. */
  lemma Gpt3ProductFacts(g: int, s: int, h: int, l: int, vocab: int)
    ensures g >= 0 && s >= 0 && h >= 0 && l >= 0 && vocab >= 0 ==>
              (24 * g * s * h * h + 4 * g * s * s * h) * (3 * l) + 6 * g * s * h * vocab >= 0
    ensures g == 0 || s == 0 ==> (24 * g * s * h * h + 4 * g * s * s * h) * (3 * l) + 6 * g * s * h * vocab == 0
  {
    if g >= 0 && s >= 0 && h >= 0 && l >= 0 && vocab >= 0 {
      NonNegMul(24 * g, s); NonNegMul(24 * g * s, h); NonNegMul(24 * g * s * h, h);
      NonNegMul(4 * g, s); NonNegMul(4 * g * s, s); NonNegMul(4 * g * s * s, h);
      NonNegMul(24 * g * s * h * h + 4 * g * s * s * h, 3 * l);
      NonNegMul(6 * g, s); NonNegMul(6 * g * s, h); NonNegMul(6 * g * s * h, vocab);
    }
  }

  /** Model FLOPs of family `f` (`_gpt3` … `_bert`) with vocabulary size `vocab`. */
  function ModelFlopsOf(f: Family, d: Dims, vocab: int): real
    requires DivisorsNonZero(f, d)
  {
    var g, s, h, l := d.gbs, d.seqLen, d.hidden, d.layers;
    match f
    case Gpt3 =>
      Gpt3Count(g, s, h, l, vocab) as real
    case Llama2 =>
      DecoderFlops(d, 18 * d.ffnHidden, vocab)
    case Llama3 =>
      DecoderFlops(d, 18 * d.ffnHidden, vocab)
    case Nemotron =>
      DecoderFlops(d, 12 * d.ffnHidden, vocab)
    case Mixtral =>
      DecoderFlops(d, 18 * d.topk * d.ffnHidden, vocab)
    case Bert =>
      BertProduct(d) as real * BertBracket(d, vocab)
  }

  /** The `_bert` product 72 g L s h^2. */
  function BertProduct(d: Dims): int
  {
    72 * d.gbs * d.layers * d.seqLen * d.hidden * d.hidden
  }

  lemma BertProductFacts(d: Dims)
    ensures NonNegDims(d) ==> BertProduct(d) >= 0
    ensures d.gbs == 0 || d.seqLen == 0 ==> BertProduct(d) == 0
  {
    var g, s, h, l := d.gbs, d.seqLen, d.hidden, d.layers;
    if NonNegDims(d) {
      NonNegMul(72, g); NonNegMul(72 * g, l); NonNegMul(72 * g * l, s); NonNegMul(72 * g * l * s, h);
      NonNegMul(72 * g * l * s * h, h);
    }
  }

  /** Every family's count is non-negative on non-negative sizes, and an empty
      batch or sequence costs nothing. */
  lemma ModelFlopsOfNonNegative(f: Family, d: Dims, vocab: int)
    requires DivisorsNonZero(f, d)
    ensures NonNegDims(d) && vocab >= 0 ==> ModelFlopsOf(f, d, vocab) >= 0.0
    ensures d.gbs == 0 || d.seqLen == 0 ==> ModelFlopsOf(f, d, vocab) == 0.0
  {
    if f == Gpt3 {
      assert ModelFlopsOf(f, d, vocab) == Gpt3Count(d.gbs, d.seqLen, d.hidden, d.layers, vocab) as real;
    } else if f == Bert {
      assert ModelFlopsOf(f, d, vocab) == BertProduct(d) as real * BertBracket(d, vocab);
      BertProductFacts(d);
      if NonNegDims(d) && vocab >= 0 {
        BertBracketAtLeastOne(d, vocab);
        NonNegRealMul(BertProduct(d) as real, BertBracket(d, vocab));
      }
    } else {
      var c := if f == Nemotron then 12 * d.ffnHidden else if f == Mixtral then 18 * d.topk * d.ffnHidden
               else 18 * d.ffnHidden;
      assert ModelFlopsOf(f, d, vocab) == DecoderFlops(d, c, vocab);
      if NonNegDims(d) {
        NonNegMul(18 * d.topk, d.ffnHidden);
        assert c >= 0;
      }
    }
  }

  lemma NonNegRealMul(x: real, y: real)
    requires x >= 0.0 && y >= 0.0
    ensures x * y >= 0.0
  {
  }

  /** `_llama2` and `_llama3` agree whenever their vocabulary sizes do. */
  lemma Llama2MatchesLlama3(d: Dims, vocab: int)
    requires DivisorsNonZero(Llama2, d)
    ensures ModelFlopsOf(Llama2, d, vocab) == ModelFlopsOf(Llama3, d, vocab)
  {
  }

  /** With one expert per token `_mixtral` is the Llama formula. */
  lemma MixtralTopOneIsLlama(d: Dims, vocab: int)
    requires DivisorsNonZero(Mixtral, d) && d.topk == 1
    ensures ModelFlopsOf(Mixtral, d, vocab) == ModelFlopsOf(Llama2, d, vocab)
  {
    assert 18 * d.topk * d.ffnHidden == 18 * d.ffnHidden;
  }

  /** `_nemotron` uses FFN coefficient 12 instead of 18: it is the Llama count
      less 6 g s L h ffn. */
  lemma NemotronIsLlamaWithSmallerFfn(d: Dims, vocab: int)
    requires DivisorsNonZero(Nemotron, d)
    ensures ModelFlopsOf(Llama2, d, vocab) - ModelFlopsOf(Nemotron, d, vocab)
            == 6.0 * (d.gbs * d.seqLen * d.layers * d.hidden) as real * d.ffnHidden as real
  {
    var p := DecoderProduct(d);
    var b18, b12 := DecoderBracket(d, 18 * d.ffnHidden, vocab), DecoderBracket(d, 12 * d.ffnHidden, vocab);
    assert ModelFlopsOf(Llama2, d, vocab) == DecoderFlops(d, 18 * d.ffnHidden, vocab);
    assert ModelFlopsOf(Nemotron, d, vocab) == DecoderFlops(d, 12 * d.ffnHidden, vocab);
    assert DecoderFlops(d, 18 * d.ffnHidden, vocab) == p as real * b18;
    assert DecoderFlops(d, 12 * d.ffnHidden, vocab) == p as real * b12;
    QSub(18 * d.ffnHidden, 12 * d.ffnHidden, d.hidden);
    ProductOfBracketDifference(p, b18, b12, d.gbs * d.seqLen * d.layers * d.hidden, d.hidden, d.ffnHidden);
  }

  /** `(a h) b18 - (a h) b12 == 6 a f` when the brackets differ by `6 f / h`. */
  lemma ProductOfBracketDifference(p: int, b18: real, b12: real, a: int, h: int, f: int)
    requires h != 0 && p == a * h && b18 - b12 == Q(6 * f, h)
    ensures p as real * b18 - p as real * b12 == 6.0 * a as real * f as real
  {
    SubFactor(p as real, b18, b12);
    CancelQ(a, 6 * f, h);
    assert (a * (6 * f)) as real == 6.0 * a as real * f as real by {
      assert a * (6 * f) == 6 * (a * f);
      assert (a * f) as real == a as real * f as real;
    }
  }

  /** `x a - x b == x (a - b)`. */
  lemma SubFactor(x: real, a: real, b: real)
    ensures x * a - x * b == x * (a - b)
  {
  }

  /** `_gpt3` in the same shape as the decoder formulas:
      g s L h^2 (72 + 12 s/h + 6 V/(L h)). */
  lemma Gpt3InDecoderShape(d: Dims, vocab: int)
    requires d.hidden != 0 && d.layers != 0
    ensures ModelFlopsOf(Gpt3, d, vocab)
            == (d.gbs * d.seqLen * d.layers * d.hidden * d.hidden) as real
               * (72.0 + Q(12 * d.seqLen, d.hidden) + Q(6 * vocab, d.layers * d.hidden))
  {
    var g, s, h, l := d.gbs, d.seqLen, d.hidden, d.layers;
    var p := (g * s * l * h * h) as real;
    Gpt3CountExpanded(g, s, h, l, vocab);
    CancelQ(g * s * l * h, 12 * s, h);
    Gpt3SeqMonomial(g, s, h, l);
    Gpt3VocabMonomial(g, s, h, l);
    CancelQ(g * s * h, 6 * vocab, l * h);
    Gpt3VocabTerm(g, s, h, vocab);
  }

  /** `(a m) * (n / m) == a n`. */
  lemma CancelQ(a: int, n: int, m: int)
    requires m != 0
    ensures (a * m) as real * Q(n, m) == (a * n) as real
  {
    assert (a * m) as real == a as real * m as real;
    assert (a * n) as real == a as real * n as real;
  }

  lemma Gpt3CountExpanded(g: int, s: int, h: int, l: int, vocab: int)
    ensures Gpt3Count(g, s, h, l, vocab) == 72 * (g * s * l * h * h) + 12 * g * s * s * l * h + 6 * g * s * h * vocab
  {
    assert (24 * g * s * h * h) * (3 * l) == 72 * (g * s * l * h * h);
    assert (4 * g * s * s * h) * (3 * l) == 12 * g * s * s * l * h;
  }

  lemma Gpt3SeqMonomial(g: int, s: int, h: int, l: int)
    ensures (g * s * l * h) * (12 * s) == 12 * g * s * s * l * h
  {
  }

  lemma Gpt3VocabMonomial(g: int, s: int, h: int, l: int)
    ensures g * s * l * h * h == (g * s * h) * (l * h)
  {
  }

  lemma Gpt3VocabTerm(g: int, s: int, h: int, vocab: int)
    ensures (g * s * h) * (6 * vocab) == 6 * g * s * h * vocab
  {
  }

  /** The bracket of every formula is independent of the batch size, hence: */
  function PerSample(d: Dims): Dims
  {
    d.(gbs := 1)
  }

  /** A product `g * rest` read as a real, with the bracket `b` multiplied on. */
  lemma ScaleByBatch(g: int, rest: int, b: real)
    ensures (g * rest) as real * b == g as real * (rest as real * b)
  {
    assert (g * rest) as real == g as real * rest as real;
  }

  lemma LinearGpt3(d: Dims, vocab: int)
    ensures ModelFlopsOf(Gpt3, d, vocab) == d.gbs as real * ModelFlopsOf(Gpt3, PerSample(d), vocab)
  {
    var g := d.gbs;
    var c := Gpt3Count(1, d.seqLen, d.hidden, d.layers, vocab);
    assert ModelFlopsOf(Gpt3, d, vocab) == Gpt3Count(g, d.seqLen, d.hidden, d.layers, vocab) as real;
    assert ModelFlopsOf(Gpt3, PerSample(d), vocab) == c as real;
    Gpt3CountLinear(g, d.seqLen, d.hidden, d.layers, vocab);
    assert (g * c) as real == g as real * c as real;
  }

  lemma Gpt3CountLinear(g: int, s: int, h: int, l: int, vocab: int)
    ensures Gpt3Count(g, s, h, l, vocab) == g * Gpt3Count(1, s, h, l, vocab)
  {
    var x, y, z := 24 * 1 * s * h * h, 4 * 1 * s * s * h, 6 * 1 * s * h * vocab;
    assert 24 * g * s * h * h == g * x by {
      MulAssoc(g, 24, s); MulAssoc(g, 24 * s, h); MulAssoc(g, 24 * s * h, h);
    }
    assert 4 * g * s * s * h == g * y by {
      MulAssoc(g, 4, s); MulAssoc(g, 4 * s, s); MulAssoc(g, 4 * s * s, h);
    }
    assert 6 * g * s * h * vocab == g * z by {
      MulAssoc(g, 6, s); MulAssoc(g, 6 * s, h); MulAssoc(g, 6 * s * h, vocab);
    }
    MulAssoc(g, x + y, 3 * l);
  }

  /** `(g a) b == g (a b)` and `a g == g a`. */
  lemma MulAssoc(g: int, a: int, b: int)
    ensures (g * a) * b == g * (a * b) && a * g == g * a
  {
  }

  lemma LinearBert(d: Dims, vocab: int)
    requires DivisorsNonZero(Bert, d)
    ensures ModelFlopsOf(Bert, d, vocab) == d.gbs as real * ModelFlopsOf(Bert, PerSample(d), vocab)
  {
    var p := PerSample(d);
    var b := BertBracket(d, vocab);
    assert b == BertBracket(p, vocab);
    assert ModelFlopsOf(Bert, d, vocab) == BertProduct(d) as real * b;
    assert ModelFlopsOf(Bert, p, vocab) == BertProduct(p) as real * b;
    BertProductLinear(d);
    ScaleByBatch(d.gbs, BertProduct(p), b);
  }

  lemma BertProductLinear(d: Dims)
    ensures BertProduct(d) == d.gbs * BertProduct(PerSample(d))
  {
    var g, s, h, l := d.gbs, d.seqLen, d.hidden, d.layers;
    MulAssoc(g, 72, l); MulAssoc(g, 72 * l, s); MulAssoc(g, 72 * l * s, h); MulAssoc(g, 72 * l * s * h, h);
    assert BertProduct(PerSample(d)) == 72 * l * s * h * h;
  }

  /** The decoder formulas share `g s L h^2 * bracket`, the bracket not reading `g`. */
  lemma LinearDecoder(d: Dims, ffnTerm: int, vocab: int)
    requires d.heads != 0 && d.hidden != 0 && d.layers != 0
    ensures DecoderFlops(d, ffnTerm, vocab) == d.gbs as real * DecoderFlops(PerSample(d), ffnTerm, vocab)
  {
    var p := PerSample(d);
    var b := DecoderBracket(d, ffnTerm, vocab);
    assert b == DecoderBracket(p, ffnTerm, vocab);
    DecoderProductLinear(d);
    ScaleByBatch(d.gbs, DecoderProduct(p), b);
  }

  lemma DecoderProductLinear(d: Dims)
    ensures DecoderProduct(d) == d.gbs * DecoderProduct(PerSample(d))
  {
    var g, s, h, l := d.gbs, d.seqLen, d.hidden, d.layers;
    MulAssoc(g, s, l); MulAssoc(g, s * l, h); MulAssoc(g, s * l * h, h);
    assert DecoderProduct(PerSample(d)) == s * l * h * h;
  }

  /** The four decoder families, each with its FFN coefficient. */
  lemma LinearDecoderFamily(f: Family, d: Dims, vocab: int)
    requires (f == Llama2 || f == Llama3 || f == Nemotron || f == Mixtral) && DivisorsNonZero(f, d)
    ensures ModelFlopsOf(f, d, vocab) == d.gbs as real * ModelFlopsOf(f, PerSample(d), vocab)
  {
    var c := if f == Nemotron then 12 * d.ffnHidden else if f == Mixtral then 18 * d.topk * d.ffnHidden
             else 18 * d.ffnHidden;
    assert ModelFlopsOf(f, d, vocab) == DecoderFlops(d, c, vocab);
    assert ModelFlopsOf(f, PerSample(d), vocab) == DecoderFlops(PerSample(d), c, vocab);
    LinearDecoder(d, c, vocab);
  }

  /** Every formula is linear in the global batch size. */
  lemma LinearInBatchSize(f: Family, d: Dims, vocab: int)
    requires DivisorsNonZero(f, d)
    ensures ModelFlopsOf(f, d, vocab) == d.gbs as real * ModelFlopsOf(f, PerSample(d), vocab)
  {
    if f == Gpt3 {
      LinearGpt3(d, vocab);
    } else if f == Bert {
      LinearBert(d, vocab);
    } else {
      LinearDecoderFamily(f, d, vocab);
    }
  }

  /** What `eval_model_flops` raises. */
  datatype FlopsError = UnknownModel | ZeroDivision | NoStepTimes | ZeroStepTime

  /** `eval_model_flops` on an already resolved name: total FLOPs and FLOPs per
      GPU, with `worldSize` the distributed world size when torch.distributed
      is initialised. */
  function ModelFlops(name: Option<string>, d: Dims, vocab: Family -> int, worldSize: Option<int>)
    : (r: Result<(real, real), FlopsError>)
    requires worldSize.Some? ==> worldSize.value > 0
    ensures r == Failure(UnknownModel) <==> FamilyOf(name).None?
    ensures FamilyOf(name).Some? ==> (r.Success? <==> DivisorsNonZero(FamilyOf(name).value, d))
    ensures r.Failure? && FamilyOf(name).Some? ==> r.error == ZeroDivision
    ensures r.Success? ==> var f := FamilyOf(name).value;
              DivisorsNonZero(f, d) && r.value.0 == ModelFlopsOf(f, d, vocab(f))
    ensures r.Success? ==> SharedOverDevices(r.value.1, r.value.0, worldSize)
  {
    var fam := FamilyOf(name);
    if fam.None? then Failure(UnknownModel)
    else if !DivisorsNonZero(fam.value, d) then Failure(ZeroDivision)
    else
      Success(OverDevices(ModelFlopsOf(fam.value, d, vocab(fam.value)), worldSize))
  }

  /** The world size when torch.distributed is initialised, else 1. */
  function Devices(worldSize: Option<int>): (n: real)
    requires worldSize.Some? ==> worldSize.value > 0
    ensures n > 0.0
  {
    if worldSize.Some? then worldSize.value as real else 1.0
  }

  /** `perGpu` is `total` shared out evenly over the devices. */
  predicate SharedOverDevices(perGpu: real, total: real, worldSize: Option<int>)
    requires worldSize.Some? ==> worldSize.value > 0
  {
    perGpu * Devices(worldSize) == total
  }

  /** `(model_flops, model_flops / world_size)`. */
  function OverDevices(total: real, worldSize: Option<int>): (r: (real, real))
    requires worldSize.Some? ==> worldSize.value > 0
    ensures r.0 == total && SharedOverDevices(r.1, total, worldSize)
  {
    DivideThenMultiply(total, Devices(worldSize));
    (total, total / Devices(worldSize))
  }

  /** A step time as logged: a single number or a list of them. */
  datatype StepTime = ScalarTime(t: real) | TimeList(ts: seq<real>)

  function Sum(xs: seq<real>): real
  {
    if xs == [] then 0.0 else xs[0] + Sum(xs[1..])
  }

  /** `if not isinstance(t, list): t = [t]`. */
  function StepTimes(st: StepTime): (ts: seq<real>)
    ensures st.ScalarTime? ==> ts == [st.t]
    ensures st.TimeList? ==> ts == st.ts
  {
    if st.ScalarTime? then [st.t] else st.ts
  }

  /** `np.mean(arr[len(arr) // 2:])`: the mean of the second half, where the
      slice is empty only when there are no times at all. */
  function SecondHalfMean(ts: seq<real>): (m: Option<real>)
    ensures m.None? <==> ts == []
  {
    var tail := ts[|ts| / 2..];
    if tail == [] then None else Some(Sum(tail) / |tail| as real)
  }

  /** `flops_per_gpu / (1e12 * mean)`, with the two cases numpy answers with
      NaN or infinity made errors. */
  function TflopsPerSecPerGpu(flopsPerGpu: real, st: StepTime): (r: Result<real, FlopsError>)
    ensures r == Failure(NoStepTimes) <==> StepTimes(st) == []
    ensures StepTimes(st) != [] ==> (r.Success? <==> SecondHalfMean(StepTimes(st)).value != 0.0)
    ensures StepTimes(st) != [] && r.Failure? ==> r.error == ZeroStepTime
    ensures r.Success? ==> var m := SecondHalfMean(StepTimes(st)).value;
              m != 0.0 && r.value * (1000000000000.0 * m) == flopsPerGpu
  {
    var m := SecondHalfMean(StepTimes(st));
    if m.None? then Failure(NoStepTimes)
    else if m.value == 0.0 then Failure(ZeroStepTime)
    else
      var denom := 1000000000000.0 * m.value;
      DivideThenMultiply(flopsPerGpu, denom);
      Success(flopsPerGpu / denom)
  }

  lemma DivideThenMultiply(a: real, x: real)
    requires x != 0.0
    ensures (a / x) * x == a
  {
  }

  lemma {:induction false} SumOfConstant(xs: seq<real>, t: real)
    requires forall i :: 0 <= i < |xs| ==> xs[i] == t
    ensures Sum(xs) == |xs| as real * t
  {
    if xs != [] {
      SumOfConstant(xs[1..], t);
    }
  }

  /** When the second half of the run steps at a steady `t`, the result is the
      per-GPU FLOPs over `1e12 t`, whatever the warm-up steps took. */
  lemma SteadyStepTime(flopsPerGpu: real, ts: seq<real>, t: real)
    requires |ts| > 0 && t != 0.0
    requires forall i :: |ts| / 2 <= i < |ts| ==> ts[i] == t
    ensures TflopsPerSecPerGpu(flopsPerGpu, TimeList(ts)) == Success(flopsPerGpu / (1000000000000.0 * t))
  {
    var tail := ts[|ts| / 2..];
    assert forall i :: 0 <= i < |tail| ==> tail[i] == ts[|ts| / 2 + i];
    SumOfConstant(tail, t);
    assert tail != [];
    var m := Sum(tail) / |tail| as real;
    assert m == t by { MeanOfConstant(Sum(tail), |tail| as real, t); }
    assert SecondHalfMean(ts) == Some(t);
  }

  lemma MeanOfConstant(s: real, n: real, t: real)
    requires n > 0.0 && s == n * t
    ensures s / n == t
  {
  }

  /** A scalar step time is the one-element list. */
  lemma ScalarStepTime(flopsPerGpu: real, t: real)
    requires t != 0.0
    ensures TflopsPerSecPerGpu(flopsPerGpu, ScalarTime(t)) == Success(flopsPerGpu / (1000000000000.0 * t))
  {
    SteadyStepTime(flopsPerGpu, [t], t);
  }

  /** The model part of the callback configuration. */
  datatype ModelConfig = ModelConfig(
    seqLength: int,
    hiddenSize: int,
    numLayers: int,
    ffnHiddenSize: int,
    numAttentionHeads: int,
    moeRouterTopk: int,
    numQueryGroups: Option<int>)

  class FlopsMeasurementCallback {
    var model: Option<string>
    const gbs: int
    const encSeqLen: int
    const hs: int
    const layers: int
    const ffnHs: int
    const attentionHeads: int
    const moeRouterTopk: int
    const queryGroups: int
    var logDir: Option<string>

    /** `__init__`: copies the hyperparameters, defaults `query_groups` to the
        number of attention heads, and lower-cases the model name. */
    constructor (cfg: ModelConfig, globalBatchSize: int, modelName: Option<string>)
      ensures gbs == globalBatchSize && encSeqLen == cfg.seqLength && hs == cfg.hiddenSize
      ensures layers == cfg.numLayers && ffnHs == cfg.ffnHiddenSize
      ensures attentionHeads == cfg.numAttentionHeads && moeRouterTopk == cfg.moeRouterTopk
      ensures queryGroups == (if cfg.numQueryGroups.None? then cfg.numAttentionHeads else cfg.numQueryGroups.value)
      ensures model == (if modelName.Some? then Some(Lower(modelName.value)) else None)
      ensures logDir.None?
    {
      model := modelName;
      gbs := globalBatchSize;
      encSeqLen := cfg.seqLength;
      hs := cfg.hiddenSize;
      layers := cfg.numLayers;
      ffnHs := cfg.ffnHiddenSize;
      attentionHeads := cfg.numAttentionHeads;
      moeRouterTopk := cfg.moeRouterTopk;
      var qg := cfg.numQueryGroups;
      if qg.None? {
        queryGroups := cfg.numAttentionHeads;
      } else {
        queryGroups := qg.value;
      }
      new;
      model := if model.Some? then Some(Lower(model.value)) else model;
      logDir := None;
    }

    function ModelDims(): Dims
      reads this
    {
      Dims(gbs, encSeqLen, hs, layers, ffnHs, attentionHeads, queryGroups, moeRouterTopk)
    }

    /** `eval_model_flops`: resolves `self.model` in place, then evaluates the
        selected formula. */
    method EvalModelFlops(vocab: Family -> int, worldSize: Option<int>) returns (r: Result<(real, real), FlopsError>)
      requires worldSize.Some? ==> worldSize.value > 0
      modifies this
      ensures model == ResolveModelName(old(model))
      ensures logDir == old(logDir)
      ensures r == ModelFlops(model, ModelDims(), vocab, worldSize)
    {
      if model.Some? {
        var matches := FirstMatch(FamilyKeys, model.value, 0);
        model := if matches.Some? then matches else model;
      }
      r := ModelFlops(model, ModelDims(), vocab, worldSize);
    }

    /** `eval_tflops_per_sec_per_gpu`: the model FLOPs come first, so an
        unknown model fails before the step times are looked at. */
    method EvalTflopsPerSecPerGpu(st: StepTime, vocab: Family -> int, worldSize: Option<int>)
      returns (r: Result<real, FlopsError>)
      requires worldSize.Some? ==> worldSize.value > 0
      modifies this
      ensures model == ResolveModelName(old(model))
      ensures logDir == old(logDir)
      ensures var flops := ModelFlops(model, ModelDims(), vocab, worldSize);
              r == if flops.Failure? then Failure(flops.error) else TflopsPerSecPerGpu(flops.value.1, st)
    {
      var flops := EvalModelFlops(vocab, worldSize);
      if flops.Failure? {
        return Failure(flops.error);
      }
      r := TflopsPerSecPerGpu(flops.value.1, st);
    }
  }
}
