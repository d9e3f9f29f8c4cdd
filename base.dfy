/** Bookkeeping rules of the Llama cross-attention model
    (nemo/collections/vlm/llama/model/base.py): the fusion schedule that picks
    the decoder layers receiving cross-attention, the virtual-pipeline check,
    the batch keys each pipeline stage moves to the device, the parsing of the
    intermediate-layer list and the inputs `compute_vision_tokens_masks` builds
    before the vision encoder runs. */
module LlamaBase {
  import opened Wrappers
  import opened PyOps
  import opened LlamaVision

  // ---------------------------------------------------------------------------
  // Python list slicing used by _init_fusion_schedule
  // ---------------------------------------------------------------------------

  /** `list(range(n))`. */
  function Range(n: int): (r: seq<int>)
    ensures |r| == if n > 0 then n else 0
    ensures forall i :: 0 <= i < |r| ==> r[i] == i
  {
    if n <= 0 then [] else Range(n - 1) + [n - 1]
  }

  /** `s[::-1]`. */
  function Reverse<T>(s: seq<T>): (r: seq<T>)
    ensures |r| == |s|
    ensures forall i :: 0 <= i < |s| ==> r[i] == s[|s| - 1 - i]
  {
    if s == [] then [] else [s[|s| - 1]] + Reverse(s[..|s| - 1])
  }

  /** `s[::k]` for a positive step: the elements at 0, k, 2k, ... */
  function EveryKth<T>(s: seq<T>, k: nat): (r: seq<T>)
    requires k > 0
    ensures |r| <= |s|
    ensures |s| > 0 ==> |r| > 0 && r[0] == s[0]
    decreases |s|
  {
    if |s| == 0 then [] else [s[0]] + EveryKth(s[if k < |s| then k else |s|..], k)
  }

  /** `s[::k]` for a non-zero step; a negative step walks from the end. */
  function Step<T>(s: seq<T>, k: int): seq<T>
    requires k != 0
  {
    if k > 0 then EveryKth(s, k) else EveryKth(Reverse(s), -k)
  }

  // ---------------------------------------------------------------------------
  // _init_fusion_schedule
  // ---------------------------------------------------------------------------

  datatype FusionError =
    | DivisionByZero   // `len(llama_layers) / num_layers` with no cross-attention layers
    | ZeroSliceStep    // `[::0]`: no decoder layers, so the stride is 0

  /** `_init_fusion_schedule`: with `k = ceil(numLayers / m)`, every `k`-th
      layer counted back from the last, at most `m` of them, in increasing order. */
  function FusionSchedule(numLayers: int, m: int): (r: Result<seq<int>, FusionError>)
    ensures m == 0 ==> r == Failure(DivisionByZero)
    ensures m != 0 && numLayers <= 0 ==> r == Failure(ZeroSliceStep)
  {
    var layers := Range(numLayers);
    if m == 0 then Failure(DivisionByZero)
    else
      var k := CeilDiv(|layers|, m);
      if k == 0 then Failure(ZeroSliceStep)
      else Success(Reverse(Slice(Step(Reverse(layers), k), 0, m)))
  }

  /** `a, a - 1, ..., 0`. */
  function Descending(a: int): (r: seq<int>)
    ensures |r| == if a >= 0 then a + 1 else 0
    ensures forall i :: 0 <= i < |r| ==> r[i] == a - i
  {
    seq(if a >= 0 then a + 1 else 0, i requires 0 <= i <= a => a - i)
  }

  /** Each element of `r` is the previous one plus `d`. */
  ghost predicate SteppedBy(r: seq<int>, d: int)
  {
    forall i, j :: 0 <= i && j == i + 1 && j < |r| ==> r[j] == r[i] + d
  }

  /** `a, a - k, a - 2k, ...` down to the last value that is not negative. */
  function Countdown(a: int, k: nat): (r: seq<int>)
    requires k > 0
    ensures |r| > 0 <==> a >= 0
    ensures a >= 0 ==> r[0] == a
    ensures forall i :: 0 <= i < |r| ==> 0 <= r[i] <= a
    ensures SteppedBy(r, -(k as int))
    ensures forall i, j :: 0 <= i < j < |r| ==> r[i] > r[j]
    decreases if a >= 0 then a + 1 else 0
  {
    if a < 0 then [] else [a] + Countdown(a - k, k)
  }

  /** Dropping the first `k` values of `a, a - 1, ..., 0` leaves the list from `a - k`. */
  lemma DescendingDrop(a: int, k: nat)
    requires a >= 0 && k > 0
    ensures var d := Descending(a); d[if k < |d| then k else |d|..] == Descending(a - k)
  {
    var d := Descending(a);
    var j := if k < |d| then k else |d|;
    var rest := Descending(a - k);
    forall i | 0 <= i < |rest|
      ensures d[j..][i] == rest[i]
    {
      assert d[j..][i] == d[j + i];
    }
  }

  /** Stepping through the descending layer list picks out the countdown. */
  lemma {:induction false} EveryKthOfDescending(a: int, k: nat)
    requires k > 0
    ensures EveryKth(Descending(a), k) == Countdown(a, k)
    decreases if a >= 0 then a + 1 else 0
  {
    if a >= 0 {
      DescendingDrop(a, k);
      EveryKthOfDescending(a - k, k);
      DescendingStep(a, k, Descending(a), Countdown(a - k, k));
      CountdownUnfold(a, k);
    }
  }

  lemma DescendingStep(a: int, k: nat, d: seq<int>, tail: seq<int>)
    requires a >= 0 && k > 0 && d == Descending(a)
    requires d[if k < |d| then k else |d|..] == Descending(a - k)
    requires EveryKth(Descending(a - k), k) == tail
    ensures EveryKth(d, k) == [a] + tail
  {
    EveryKthUnfold(d, k, Descending(a - k));
  }

  lemma EveryKthUnfold<T>(s: seq<T>, k: nat, rest: seq<T>)
    requires k > 0 && |s| > 0 && s[if k < |s| then k else |s|..] == rest
    ensures EveryKth(s, k) == [s[0]] + EveryKth(rest, k)
  {
  }

  lemma CountdownUnfold(a: int, k: nat)
    requires a >= 0 && k > 0
    ensures Countdown(a, k) == [a] + Countdown(a - k, k)
  {
  }

  lemma CeilDivPositive(a: int, b: int)
    requires a > 0 && b > 0
    ensures CeilDiv(a, b) > 0
  {
  }

  /** For positive sizes the schedule is the reversed first `m` values of the
      countdown from the last layer by the stride. */
  lemma ScheduleIsCountdown(numLayers: int, m: int)
    requires numLayers > 0 && m > 0
    ensures CeilDiv(numLayers, m) > 0
    ensures FusionSchedule(numLayers, m) ==
            Success(Reverse(Slice(Countdown(numLayers - 1, CeilDiv(numLayers, m)), 0, m)))
  {
    var k := CeilDiv(numLayers, m);
    CeilDivPositive(numLayers, m);
    assert Reverse(Range(numLayers)) == Descending(numLayers - 1);
    EveryKthOfDescending(numLayers - 1, k);
  }

  /** `r` is a schedule of at most `m` of the layers `0 .. last`, ending at
      `last` and spaced by `k`. */
  ghost predicate SpreadSchedule(r: seq<int>, last: int, k: int, m: int)
  {
    && 0 < |r| <= m
    && r[|r| - 1] == last
    && (forall i :: 0 <= i < |r| ==> 0 <= r[i] <= last)
    && SteppedBy(r, k)
    && (forall i, j :: 0 <= i < j < |r| ==> r[i] < r[j])
  }

  /** The first `m` values of a countdown form a countdown prefix. */
  lemma CountdownPrefix(a: int, k: nat, m: int)
    requires a >= 0 && k > 0 && m > 0
    ensures var t := Slice(Countdown(a, k), 0, m);
            && |t| == (if m < |Countdown(a, k)| then m else |Countdown(a, k)|)
            && 0 < |t| <= m && t[0] == a
            && (forall i :: 0 <= i < |t| ==> 0 <= t[i] <= a)
            && SteppedBy(t, -(k as int))
            && (forall i, j :: 0 <= i < j < |t| ==> t[i] > t[j])
  {
    var c := Countdown(a, k);
    assert Slice(c, 0, m) == c[..if m < |c| then m else |c|];
  }

  lemma ReverseOfCountdownPrefix(t: seq<int>, a: int, k: nat, m: int)
    requires 0 < |t| <= m && t[0] == a
    requires forall i :: 0 <= i < |t| ==> 0 <= t[i] <= a
    requires SteppedBy(t, -(k as int))
    requires forall i, j :: 0 <= i < j < |t| ==> t[i] > t[j]
    ensures SpreadSchedule(Reverse(t), a, k, m) && |Reverse(t)| == |t|
  {
    var r := Reverse(t);
    forall i, j | 0 <= i && j == i + 1 && j < |r|
      ensures r[j] == r[i] + k
    {
      assert r[i] == t[|t| - 1 - i] && r[j] == t[|t| - 2 - i];
    }
  }

  lemma ReversedCountdownPrefix(a: int, k: nat, m: int, r: seq<int>)
    requires a >= 0 && k > 0 && m > 0 && r == Reverse(Slice(Countdown(a, k), 0, m))
    ensures SpreadSchedule(r, a, k, m)
    ensures |r| == if m < |Countdown(a, k)| then m else |Countdown(a, k)|
  {
    CountdownPrefix(a, k, m);
    ReverseOfCountdownPrefix(Slice(Countdown(a, k), 0, m), a, k, m);
  }

  /** For positive sizes the schedule is non-empty, has at most `m` layers, all
      existing, ends at the last layer, is evenly spaced by the stride
      `k = ceil(numLayers / m)` and strictly increasing. */
  lemma FusionScheduleSpread(numLayers: int, m: int)
    requires numLayers > 0 && m > 0
    ensures CeilDiv(numLayers, m) > 0
    ensures FusionSchedule(numLayers, m).Success?
    ensures SpreadSchedule(FusionSchedule(numLayers, m).value, numLayers - 1, CeilDiv(numLayers, m), m)
  {
    ScheduleIsCountdown(numLayers, m);
    ReversedCountdownPrefix(numLayers - 1, CeilDiv(numLayers, m), m, FusionSchedule(numLayers, m).value);
  }

  lemma CountdownFrom31By4()
    ensures |Countdown(31, 4)| == 8
  {
    assert Countdown(3, 4) == [3];
    assert Countdown(11, 4) == [11, 7, 3];
    assert Countdown(19, 4) == [19, 15, 11, 7, 3];
    assert Countdown(31, 4) == [31, 27, 23, 19, 15, 11, 7, 3];
  }

  lemma EightStepsOfFour(r: seq<int>)
    requires |r| == 8 && r[7] == 31
    requires SteppedBy(r, 4)
    ensures r == [3, 7, 11, 15, 19, 23, 27, 31]
  {
    assert r[6] == 27 && r[5] == 23 && r[4] == 19 && r[3] == 15;
    assert r[2] == 11 && r[1] == 7 && r[0] == 3;
  }

  /** A 32-layer decoder with 8 cross-attention layers fuses every fourth layer,
      starting from layer 3. */
  lemma DefaultFusionSchedule(numLayers: int, m: int)
    requires numLayers == 32 && m == 8
    ensures FusionSchedule(numLayers, m) == Success([3, 7, 11, 15, 19, 23, 27, 31])
  {
    ScheduleIsCountdown(numLayers, m);
    assert CeilDiv(32, 8) == 4;
    CountdownFrom31By4();
    var r := Reverse(Slice(Countdown(31, 4), 0, 8));
    ReversedCountdownPrefix(31, 4, 8, r);
    EightStepsOfFour(r);
  }

  // ---------------------------------------------------------------------------
  // configure_model: the virtual-pipeline assertion
  // ---------------------------------------------------------------------------

  datatype PipelineError =
    | PipelineDivisionByZero  // `num_layers // p_size` with p_size == 0
    | UnevenModelChunks       // the assertion fails

  /** The check run when virtual pipelining is on (a size that is neither None
      nor 0): the layers of a pipeline stage split into `vp_size` chunks. */
  function VirtualPipelineCheck(numLayers: int, pSize: int, vpSize: Option<int>): (r: Option<PipelineError>)
    ensures vpSize.None? || vpSize.value == 0 ==> r.None?
    ensures vpSize.Some? && vpSize.value != 0 && pSize == 0 ==> r == Some(PipelineDivisionByZero)
  {
    if vpSize.None? || vpSize.value == 0 then None
    else if pSize == 0 then Some(PipelineDivisionByZero)
    else if FloorMod(FloorDiv(numLayers, pSize), vpSize.value) == 0 then None
    else Some(UnevenModelChunks)
  }

  lemma MultipleBelow(b: int, x: int)
    requires b > 0 && 0 <= b * x < b
    ensures x == 0
  {
  }

  lemma FloorModOfMultiple(c: int, b: int)
    requires b > 0
    ensures FloorMod(c * b, b) == 0
  {
    var d := FloorDiv(c * b, b);
    assert FloorMod(c * b, b) == b * (c - d);
    MultipleBelow(b, c - d);
  }

  /** With positive sizes the check passes exactly when the per-stage layer count
      is a multiple of the virtual-pipeline size. */
  lemma VirtualPipelineCheckIff(numLayers: int, pSize: int, vpSize: int)
    requires pSize > 0 && vpSize > 0
    ensures VirtualPipelineCheck(numLayers, pSize, Some(vpSize)).None? <==>
            exists c :: FloorDiv(numLayers, pSize) == c * vpSize
  {
    var q := FloorDiv(numLayers, pSize);
    if VirtualPipelineCheck(numLayers, pSize, Some(vpSize)).None? {
      assert q == FloorDiv(q, vpSize) * vpSize;
    } else {
      forall c | q == c * vpSize
        ensures false
      {
        FloorModOfMultiple(c, vpSize);
      }
    }
  }

  // ---------------------------------------------------------------------------
  // llama_data_step
  // ---------------------------------------------------------------------------

  /** A batch value: a tensor (its contents abstract, with the device it is on)
      or any other object. */
  datatype Value = Tensor(data: int, onDevice: bool) | NonTensor(data: int)

  /** What the data loader yields: a dict, a tuple, or any other object. */
  datatype RawBatch = Dict(entries: map<string, Value>) | Tuple(items: seq<RawBatch>) | OtherObject

  const AlwaysRequired: set<string> := {"attention_mask", "tokens"}
  const FirstStageKeys: set<string> := {"batch_images", "batch_masks", "total_len", "position_ids"}
  const LastStageKeys: set<string> := {"labels", "loss_mask"}

  /** The keys a pipeline stage needs: the text inputs always, the image inputs
      on the first stage, the loss inputs on the last. */
  function RequiredKeySet(firstStage: bool, lastStage: bool): (keys: set<string>)
    ensures AlwaysRequired <= keys
    ensures FirstStageKeys <= keys <==> firstStage
    ensures LastStageKeys <= keys <==> lastStage
    ensures forall k :: k in keys <==>
              k in AlwaysRequired || (firstStage && k in FirstStageKeys) || (lastStage && k in LastStageKeys)
    ensures |keys| == 2 + (if firstStage then 4 else 0) + (if lastStage then 2 else 0)
  {
    StageKeySetsApart();
    StageKeySetSizes();
    var first := if firstStage then FirstStageKeys else {};
    var last := if lastStage then LastStageKeys else {};
    DisjointUnionSize(AlwaysRequired, first);
    DisjointUnionSize(AlwaysRequired + first, last);
    AlwaysRequired + first + last
  }

  lemma StageKeySetsApart()
    ensures AlwaysRequired !! FirstStageKeys && AlwaysRequired !! LastStageKeys
    ensures FirstStageKeys !! LastStageKeys
  {
  }

  lemma StageKeySetSizes()
    ensures |AlwaysRequired| == 2 && |FirstStageKeys| == 4 && |LastStageKeys| == 2
  {
  }

  lemma DisjointUnionSize<T>(a: set<T>, b: set<T>)
    requires a !! b
    ensures |a + b| == |a| + |b|
  {
  }

  /** The key set grown with `update` stage by stage. */
  method RequiredKeys(firstStage: bool, lastStage: bool) returns (keys: set<string>)
    ensures keys == RequiredKeySet(firstStage, lastStage)
  {
    keys := {};
    keys := keys + {"attention_mask", "tokens"};
    if firstStage {
      keys := keys + {"batch_images", "batch_masks", "total_len", "position_ids"};
    }
    if lastStage {
      keys := keys + {"labels", "loss_mask"};
    }
  }

  /** A 3-tuple is unwrapped to its first element; anything else is kept. */
  function Unwrap(batch: RawBatch): (b: RawBatch)
    ensures batch.Tuple? && |batch.items| == 3 ==> b == batch.items[0]
    ensures !(batch.Tuple? && |batch.items| == 3) ==> b == batch
  {
    if batch.Tuple? && |batch.items| == 3 then batch.items[0] else batch
  }

  /** The dict comprehension: required tensors are moved to the device; other
      keys and non-tensor values pass through unchanged. */
  function MoveRequired(entries: map<string, Value>, required: set<string>): (moved: map<string, Value>)
    ensures moved.Keys == entries.Keys
    ensures forall k :: k in entries && k in required && entries[k].Tensor? ==>
              moved[k] == Tensor(entries[k].data, true)
    ensures forall k :: k in entries && !(k in required && entries[k].Tensor?) ==> moved[k] == entries[k]
  {
    map k | k in entries :: if k in required && entries[k].Tensor? then Tensor(entries[k].data, true) else entries[k]
  }

  /** After the move every required tensor is on the device, and a value changes
      only in its device. */
  lemma MoveRequiredPlacesRequired(entries: map<string, Value>, required: set<string>)
    ensures var moved := MoveRequired(entries, required);
            && (forall k :: k in moved && k in required && moved[k].Tensor? ==> moved[k].onDevice)
            && (forall k :: k in moved ==> moved[k].data == entries[k].data && moved[k].Tensor? == entries[k].Tensor?)
  {
  }

  datatype DataStepError = NotAMapping  // `.items()` on a batch that is not a dict

  /** `llama_data_step` on the batch the iterator yields; the context-parallel
      slicing is a call outside this file, a parameter here. */
  method DataStep(batch: RawBatch, firstStage: bool, lastStage: bool,
                  contextParallelSlice: map<string, Value> -> map<string, Value>)
    returns (r: Result<map<string, Value>, DataStepError>)
    ensures !Unwrap(batch).Dict? ==> r == Failure(NotAMapping)
    ensures Unwrap(batch).Dict? ==>
              r == Success(contextParallelSlice(MoveRequired(Unwrap(batch).entries, RequiredKeySet(firstStage, lastStage))))
  {
    var b := batch;
    if batch.Tuple? && |batch.items| == 3 {
      b := batch.items[0];
    }
    var required := RequiredKeys(firstStage, lastStage);
    if !b.Dict? {
      return Failure(NotAMapping);
    }
    var moved := MoveRequired(b.entries, required);
    return Success(contextParallelSlice(moved));
  }

  // ---------------------------------------------------------------------------
  // CrossAttentionVisionModel.__init__: the intermediate-layer list
  // ---------------------------------------------------------------------------

  /** `s.split(sep)` for a one-character separator. */
  function Split(s: string, sep: char): (parts: seq<string>)
    ensures |parts| >= 1
    ensures forall i :: 0 <= i < |parts| ==> sep !in parts[i]
  {
    if |s| == 0 then [""]
    else
      var rest := Split(s[1..], sep);
      if s[0] == sep then [""] + rest
      else
        assert forall i :: 1 <= i < |rest| ==> rest[1..][i - 1] == rest[i];
        [[s[0]] + rest[0]] + rest[1..]
  }

  /** `sep.join(parts)`. */
  function Join(parts: seq<string>, sep: char): string
    requires |parts| >= 1
  {
    if |parts| == 1 then parts[0] else parts[0] + [sep] + Join(parts[1..], sep)
  }

  /** Splitting then joining gives the string back. */
  lemma {:induction false} JoinSplit(s: string, sep: char)
    ensures Join(Split(s, sep), sep) == s
  {
    if |s| > 0 {
      JoinSplit(s[1..], sep);
      var rest := Split(s[1..], sep);
      if s[0] != sep {
        if |rest| > 1 {
          assert Join(rest, sep) == rest[0] + [sep] + Join(rest[1..], sep);
        }
      }
    }
  }

  lemma {:induction false} SplitPrefix(p: string, tail: string, sep: char)
    requires sep !in p
    ensures Split(p + [sep] + tail, sep) == [p] + Split(tail, sep)
    ensures Split(p, sep) == [p]
    decreases |p|
  {
    if |p| > 0 {
      SplitPrefix(p[1..], tail, sep);
      assert (p + [sep] + tail)[1..] == p[1..] + [sep] + tail;
      assert [p[0]] + p[1..] == p;
    } else {
      assert p + [sep] + tail == [sep] + tail;
    }
  }

  /** Joining pieces free of the separator, then splitting, gives the pieces back. */
  lemma {:induction false} SplitJoin(parts: seq<string>, sep: char)
    requires |parts| >= 1
    requires forall i :: 0 <= i < |parts| ==> sep !in parts[i]
    ensures Split(Join(parts, sep), sep) == parts
  {
    if |parts| == 1 {
      SplitPrefix(parts[0], "", sep);
    } else {
      SplitJoin(parts[1..], sep);
      SplitPrefix(parts[0], Join(parts[1..], sep), sep);
    }
  }

  /** The whitespace `int()` strips (ASCII). */
  predicate IsSpace(c: char)
  {
    c == ' ' || c == '\t' || c == '\n' || c == '\r' || c == '\U{B}' || c == '\U{C}'
  }

  function StripSpaces(s: string): (t: string)
    ensures |t| <= |s|
    ensures |s| > 0 && !IsSpace(s[0]) && !IsSpace(s[|s| - 1]) ==> t == s
    decreases |s|
  {
    if |s| > 0 && IsSpace(s[0]) then StripSpaces(s[1..])
    else if |s| > 0 && IsSpace(s[|s| - 1]) then StripSpaces(s[..|s| - 1])
    else s
  }

  /** Decimal digits, with single underscores allowed between digits. */
  predicate WellFormedDigits(s: string)
  {
    && |s| > 0 && IsDigit(s[0]) && IsDigit(s[|s| - 1])
    && (forall i :: 0 <= i < |s| ==> IsDigit(s[i]) || s[i] == '_')
    && (forall i :: 0 <= i < |s| - 1 ==> !(s[i] == '_' && s[i + 1] == '_'))
  }

  /** The value of the digits of `s`, underscores skipped. */
  function DigitsValue(s: string): nat
  {
    if s == [] then 0
    else if s[|s| - 1] == '_' then DigitsValue(s[..|s| - 1])
    else DigitsValue(s[..|s| - 1]) * 10 + (if IsDigit(s[|s| - 1]) then s[|s| - 1] as int - '0' as int else 0)
  }

  /** Python's `int(s)` in base 10: optional surrounding whitespace, an optional
      sign, then digits; anything else raises `ValueError` (None here). */
  function ParseInt(s: string): (r: Option<int>)
    ensures r.Some? ==> |StripSpaces(s)| > 0
  {
    var t := StripSpaces(s);
    if |t| > 0 && (t[0] == '+' || t[0] == '-') then
      if WellFormedDigits(t[1..]) then
        var v: int := DigitsValue(t[1..]);
        Some(if t[0] == '-' then -v else v)
      else None
    else if WellFormedDigits(t) then Some(DigitsValue(t))
    else None
  }

  function DigitChar(d: nat): (c: char)
    requires d < 10
    ensures IsDigit(c) && c as int - '0' as int == d
  {
    ('0' as int + d) as char
  }

  /** `str(n)` for a natural number. */
  function FormatNat(n: nat): (s: string)
    ensures |s| > 0 && forall i :: 0 <= i < |s| ==> IsDigit(s[i])
  {
    if n < 10 then [DigitChar(n)] else FormatNat(n / 10) + [DigitChar(n % 10)]
  }

  /** `str(x)` for an integer. */
  function FormatInt(x: int): string
  {
    if x < 0 then "-" + FormatNat(-x) else FormatNat(x)
  }

  lemma {:induction false} FormatNatValue(n: nat)
    ensures WellFormedDigits(FormatNat(n)) && DigitsValue(FormatNat(n)) == n
  {
    if n >= 10 {
      FormatNatValue(n / 10);
      var s := FormatNat(n);
      assert s[..|s| - 1] == FormatNat(n / 10);
    }
  }

  /** `int(str(x)) == x`, and `str(x)` holds no comma. */
  lemma FormatIntParses(x: int)
    ensures ParseInt(FormatInt(x)) == Some(x)
    ensures ',' !in FormatInt(x)
  {
    var n := if x < 0 then -x else x;
    FormatNatValue(n);
    var d := FormatNat(n);
    assert IsDigit(d[0]) && IsDigit(d[|d| - 1]);
    if x < 0 {
      NegativeDigitsParse(FormatInt(x), d, n);
    } else {
      DigitsParse(FormatInt(x), n);
    }
  }

  lemma DigitsParse(s: string, n: nat)
    requires WellFormedDigits(s) && DigitsValue(s) == n
    requires forall j :: 0 <= j < |s| ==> IsDigit(s[j])
    ensures ParseInt(s) == Some(n) && ',' !in s
  {
    assert StripSpaces(s) == s;
    CommaFree(s);
  }

  lemma NegativeDigitsParse(s: string, d: string, n: nat)
    requires s == "-" + d && WellFormedDigits(d) && DigitsValue(d) == n
    requires forall j :: 0 <= j < |d| ==> IsDigit(d[j])
    ensures ParseInt(s) == Some(-(n as int)) && ',' !in s
  {
    assert s[1..] == d && s[0] == '-' && s[|s| - 1] == d[|d| - 1];
    assert !IsSpace(s[0]) && !IsSpace(s[|s| - 1]);
    assert StripSpaces(s) == s;
    SignedParse(s, d, n);
    CommaFree(d);
    assert s == ['-'] + d;
  }

  lemma SignedParse(s: string, d: string, n: nat)
    requires StripSpaces(s) == s && |s| > 0 && s[0] == '-' && s[1..] == d
    requires WellFormedDigits(d) && DigitsValue(d) == n
    ensures ParseInt(s) == Some(-(n as int))
  {
    var t := StripSpaces(s);
    assert |t| > 0 && t[0] == '-' && t[1..] == d;
  }

  lemma CommaFree(s: string)
    requires forall j :: 0 <= j < |s| ==> IsDigit(s[j])
    ensures ',' !in s
  {
  }

  datatype ParseError = InvalidLiteral(piece: string)  // `ValueError` from `int()`

  /** `[int(l) for l in pieces]`, failing at the first piece that is not an integer. */
  function ParseAll(pieces: seq<string>): (r: Result<seq<int>, ParseError>)
    ensures r.Success? <==> forall i :: 0 <= i < |pieces| ==> ParseInt(pieces[i]).Some?
    ensures r.Success? ==> |r.value| == |pieces|
    ensures r.Success? ==> forall i :: 0 <= i < |pieces| ==> Some(r.value[i]) == ParseInt(pieces[i])
    ensures r.Failure? ==> exists i :: 0 <= i < |pieces| && ParseInt(pieces[i]).None? && r.error == InvalidLiteral(pieces[i])
  {
    if pieces == [] then Success([])
    else
      match ParseInt(pieces[0])
      case None => Failure(InvalidLiteral(pieces[0]))
      case Some(v) =>
        var rest := ParseAll(pieces[1..]);
        assert forall i :: 1 <= i < |pieces| ==> pieces[1..][i - 1] == pieces[i];
        if rest.Failure? then Failure(rest.error) else Success([v] + rest.value)
  }

  /** `[int(l) for l in s.split(",")]`. */
  function ParseIndexList(s: string): Result<seq<int>, ParseError>
  {
    ParseAll(Split(s, ','))
  }

  /** The width of the encoder output: 1280 features, one more block of 1280
      per intermediate layer when a list is configured. */
  function VisionInputDim(returnIntermediate: Option<string>): (r: Result<int, ParseError>)
    ensures returnIntermediate.None? ==> r == Success(1280)
    ensures returnIntermediate.Some? && ParseIndexList(returnIntermediate.value).Success? ==>
              r == Success((|ParseIndexList(returnIntermediate.value).value| + 1) * 1280)
    ensures returnIntermediate.Some? && ParseIndexList(returnIntermediate.value).Failure? ==> r.Failure?
  {
    if returnIntermediate.None? then Success(1280)
    else
      var layers :- ParseIndexList(returnIntermediate.value);
      Success((|layers| + 1) * 1280)
  }

  /** The configured string. */
  const DefaultIntermediates: string := "3,7,15,23,30"

  /** `[str(x) for x in xs]`. */
  function FormatAll(xs: seq<int>): (r: seq<string>)
    ensures |r| == |xs| && forall i :: 0 <= i < |xs| ==> r[i] == FormatInt(xs[i])
  {
    if xs == [] then [] else [FormatInt(xs[0])] + FormatAll(xs[1..])
  }

  /** The list written out joined by commas parses back to itself. */
  lemma ParseIndexListOfFormatted(xs: seq<int>)
    requires |xs| >= 1
    ensures ParseIndexList(Join(FormatAll(xs), ',')) == Success(xs)
  {
    var pieces := FormatAll(xs);
    PiecesParse(xs, pieces);
    SplitJoin(pieces, ',');
    ParseAllOfPieces(xs, pieces);
  }

  lemma PiecesParse(xs: seq<int>, pieces: seq<string>)
    requires pieces == FormatAll(xs)
    ensures forall i :: 0 <= i < |pieces| ==> ',' !in pieces[i] && ParseInt(pieces[i]) == Some(xs[i])
  {
    forall i | 0 <= i < |pieces|
      ensures ',' !in pieces[i] && ParseInt(pieces[i]) == Some(xs[i])
    {
      FormatIntParses(xs[i]);
    }
  }

  lemma ParseAllOfPieces(xs: seq<int>, pieces: seq<string>)
    requires |pieces| == |xs|
    requires forall i :: 0 <= i < |pieces| ==> ParseInt(pieces[i]) == Some(xs[i])
    ensures ParseAll(pieces) == Success(xs)
  {
    var r := ParseAll(pieces);
    assert r.Success?;
    assert r.value == xs;
  }

  /** "3,7,15,23,30" parses to the five layers 3, 7, 15, 23, 30. */
  lemma DefaultIntermediatesParse()
    ensures ParseIndexList(DefaultIntermediates) == Success([3, 7, 15, 23, 30])
  {
    var xs := [3, 7, 15, 23, 30];
    var pieces := ["3", "7", "15", "23", "30"];
    DefaultFormatted(xs, pieces);
    DefaultJoined(pieces);
    ParseIndexListOfFormatted(xs);
  }

  lemma DefaultFormatted(xs: seq<int>, pieces: seq<string>)
    requires xs == [3, 7, 15, 23, 30] && pieces == ["3", "7", "15", "23", "30"]
    ensures FormatAll(xs) == pieces
  {
    var r := FormatAll(xs);
    assert r[0] == FormatInt(3) && r[1] == FormatInt(7) && r[2] == FormatInt(15);
    assert r[3] == FormatInt(23) && r[4] == FormatInt(30);
    OneDigit(3, pieces[0]);
    OneDigit(7, pieces[1]);
    TwoDigits(15, pieces[2]);
    TwoDigits(23, pieces[3]);
    TwoDigits(30, pieces[4]);
  }

  lemma OneDigit(n: nat, s: string)
    requires n < 10 && s == [('0' as int + n) as char]
    ensures FormatInt(n) == s
  {
  }

  lemma TwoDigits(n: nat, s: string)
    requires 10 <= n < 100 && s == [('0' as int + n / 10) as char, ('0' as int + n % 10) as char]
    ensures FormatInt(n) == s
  {
    assert FormatNat(n / 10) == [DigitChar(n / 10)];
  }

  lemma DefaultJoined(pieces: seq<string>)
    requires pieces == ["3", "7", "15", "23", "30"]
    ensures Join(pieces, ',') == DefaultIntermediates
  {
    assert pieces[3..][1..] == pieces[4..] && pieces[2..][1..] == pieces[3..];
    assert pieces[1..][1..] == pieces[2..];
    assert Join(pieces[4..], ',') == "30";
    assert Join(pieces[3..], ',') == "23,30";
    assert Join(pieces[2..], ',') == "15,23,30";
    assert Join(pieces[1..], ',') == "7,15,23,30";
  }

  /** So the encoder output has (5 + 1) * 1280 = 7680 features, and an encoder
      with at least 31 layers captures the inputs of exactly those layers. */
  lemma DefaultIntermediateLayers(returnIntermediate: string, numEncoderLayers: nat)
    requires returnIntermediate == DefaultIntermediates && numEncoderLayers >= 31
    ensures VisionInputDim(Some(returnIntermediate)) == Success(7680)
    ensures CapturedLayers([3, 7, 15, 23, 30], numEncoderLayers) == [3, 7, 15, 23, 30]
  {
    DefaultVisionInputDim(returnIntermediate);
    DefaultLayersCaptured([3, 7, 15, 23, 30], numEncoderLayers);
  }

  lemma DefaultVisionInputDim(returnIntermediate: string)
    requires returnIntermediate == DefaultIntermediates
    ensures VisionInputDim(Some(returnIntermediate)) == Success(7680)
  {
    DefaultIntermediatesParse();
  }

  lemma DefaultLayersCaptured(xs: seq<int>, numEncoderLayers: nat)
    requires xs == [3, 7, 15, 23, 30] && numEncoderLayers >= 31
    ensures CapturedLayers(xs, numEncoderLayers) == xs
  {
    FiveIncreasing(xs, 3, 7, 15, 23, 30);
    assert forall i :: 0 <= i < |xs| ==> 0 <= xs[i] <= 30;
    CapturedExactlyRequested(xs, numEncoderLayers);
  }

  lemma FiveIncreasing(s: seq<int>, a: int, b: int, c: int, d: int, e: int)
    requires s == [a, b, c, d, e] && a < b < c < d < e
    ensures StrictlyIncreasing(s)
  {
    forall i, j | 0 <= i < j < |s|
      ensures s[i] < s[j]
    {
      assert s[0] == a && s[1] == b && s[2] == c && s[3] == d && s[4] == e;
    }
  }

  // ---------------------------------------------------------------------------
  // compute_vision_tokens_masks: the inputs built before the encoder runs
  // ---------------------------------------------------------------------------

  /** `aspect_ratios = torch.ones(bsz, max_num_images, 2)`, then row `i` gets the
      ratios of sample `i`'s images. */
  method AspectRatios(ratios: seq<seq<(int, int)>>, maxNumImages: nat) returns (a: array3<int>)
    requires forall i :: 0 <= i < |ratios| ==> |ratios[i]| <= maxNumImages
    ensures fresh(a) && a.Length0 == |ratios| && a.Length1 == maxNumImages && a.Length2 == 2
    ensures forall i, j, c :: 0 <= i < |ratios| && 0 <= j < maxNumImages && 0 <= c < 2 ==>
              a[i, j, c] == if j < |ratios[i]| then (if c == 0 then ratios[i][j].0 else ratios[i][j].1) else 1
  {
    a := new int[|ratios|, maxNumImages, 2]((_, _, _) => 1);
    var i := 0;
    while i < |ratios|
      invariant 0 <= i <= |ratios|
      invariant forall i', j, c :: 0 <= i' < |ratios| && 0 <= j < maxNumImages && 0 <= c < 2 ==>
                  a[i', j, c] == if i' < i && j < |ratios[i']| then (if c == 0 then ratios[i'][j].0 else ratios[i'][j].1) else 1
    {
      var row := ratios[i];
      if |row| > 0 {
        forall j, c | 0 <= j < |row| && 0 <= c < 2 {
          a[i, j, c] := if c == 0 then row[j].0 else row[j].1;
        }
      }
      i := i + 1;
    }
  }

  datatype VisionBatchError =
    | LengthMismatch             // "Images and masks must have the same length"
    | NoSamples                  // `max()` over an empty batch
    | StackFailed(e: StackError)
    | PadFailed(p: PadError)

  /** What the method hands on: whether the encoder is skipped, the chunk counts,
      the aspect ratios and stacked chunks (absent when skipped) and the padded
      cross-attention masks. */
  datatype VisionInputs<T> = VisionInputs(
    skipVisionEncoder: bool,
    numChunks: seq<seq<int>>,
    aspectRatios: Option<array3<int>>,
    stacked: Option<array3<T>>,
    paddedMasks: array4<MaskCell>)

  lemma VisitedAreElements(allMasks: seq<seq<array<int>>>, allNumChunks: seq<seq<int>>)
    ensures VisitedElements(allMasks, allNumChunks) <= Elements(allMasks)
  {
    forall a | a in VisitedElements(allMasks, allNumChunks)
      ensures a in Elements(allMasks)
    {
      var b, m :| 0 <= b < |allMasks| && 0 <= m < |allMasks[b]| && Visited(allMasks, allNumChunks, b, m) && a == allMasks[b][m];
      assert a in allMasks[b];
    }
  }

  /** Every image's chunks fit the `maxNumChunks` slots of `_stack_images`
      (at most that many, or one chunk that broadcasts). */
  predicate ChunksFit<I, T>(batchImages: seq<seq<I>>, imageTransform: I -> (seq<T>, (int, int)), maxNumChunks: nat)
  {
    forall i, j :: 0 <= i < |batchImages| && 0 <= j < |batchImages[i]| ==>
      |imageTransform(batchImages[i][j]).0| <= maxNumChunks || |imageTransform(batchImages[i][j]).0| == 1
  }

  /** `a` holds chunk `k` of image `j` of sample `i` at `[i, j, k]` and `zero`
      in every other slot. */
  ghost predicate StackedAs<I, T>(a: array3<T>, batchImages: seq<seq<I>>, imageTransform: I -> (seq<T>, (int, int)),
                                  zero: T, maxNumChunks: nat)
    reads a
  {
    && |batchImages| > 0
    && a.Length0 == |batchImages| && a.Length1 == MaxLen(batchImages) && a.Length2 == maxNumChunks
    && forall i, j, k :: 0 <= i < a.Length0 && 0 <= j < a.Length1 && 0 <= k < a.Length2 ==>
         a[i, j, k] == if j < |batchImages[i]| && k < |imageTransform(batchImages[i][j]).0|
                       then imageTransform(batchImages[i][j]).0[k] else zero
  }

  /** `_stack_images` accepts the transformed batch exactly when its chunks fit:
      every image index is below the largest image count by definition. */
  lemma FitsIffChunksFit<I, T>(batchImages: seq<seq<I>>, imageTransform: I -> (seq<T>, (int, int)), maxNumChunks: nat)
    requires |batchImages| > 0
    ensures Fits(ChunksOf(TransformAll(batchImages, imageTransform)), maxNumChunks, MaxLen(batchImages))
            <==> ChunksFit(batchImages, imageTransform, maxNumChunks)
  {
    var chunks := ChunksOf(TransformAll(batchImages, imageTransform));
    var n := MaxLen(batchImages);
    if ChunksFit(batchImages, imageTransform, maxNumChunks) {
      forall i | 0 <= i < |chunks|
        ensures SampleFits(chunks[i], maxNumChunks, n)
      {
        forall j | 0 <= j < |chunks[i]|
          ensures j < n && (|chunks[i][j]| <= maxNumChunks || |chunks[i][j]| == 1)
        {
          assert chunks[i][j] == imageTransform(batchImages[i][j]).0;
        }
      }
    } else {
      var i, j :| 0 <= i < |batchImages| && 0 <= j < |batchImages[i]| &&
                  !(|imageTransform(batchImages[i][j]).0| <= maxNumChunks || |imageTransform(batchImages[i][j]).0| == 1);
      assert chunks[i][j] == imageTransform(batchImages[i][j]).0;
      assert !SampleFits(chunks[i], maxNumChunks, n);
    }
  }

  /** The placement `_stack_images` promises, read back through the transform. */
  lemma StackedPlacement<I, T>(a: array3<T>, batchImages: seq<seq<I>>, imageTransform: I -> (seq<T>, (int, int)),
                               zero: T, maxNumChunks: nat)
    requires |batchImages| > 0
    requires a.Length0 == |batchImages| && a.Length1 == MaxLen(batchImages) && a.Length2 == maxNumChunks
    requires var chunks := ChunksOf(TransformAll(batchImages, imageTransform));
             forall i, j, k :: 0 <= i < |chunks| && 0 <= j < MaxLen(batchImages) && 0 <= k < maxNumChunks ==>
               a[i, j, k] == if j < |chunks[i]| && k < |chunks[i][j]| then chunks[i][j][k] else zero
    ensures StackedAs(a, batchImages, imageTransform, zero, maxNumChunks)
  {
    var chunks := ChunksOf(TransformAll(batchImages, imageTransform));
    assert forall i, j :: 0 <= i < |chunks| && 0 <= j < |chunks[i]| ==>
             chunks[i][j] == imageTransform(batchImages[i][j]).0;
  }

  /** The chunk counts, aspect ratios and stacked chunks of a batch with at
      least one image. */
  method EncoderInputs<I, T>(batchImages: seq<seq<I>>, maxNumChunks: nat,
                             imageTransform: I -> (seq<T>, (int, int)), zero: T)
    returns (r: Result<(seq<seq<int>>, array3<int>, array3<T>), StackError>)
    requires |batchImages| > 0 && MaxLen(batchImages) > 0
    ensures r.Failure? <==> !ChunksFit(batchImages, imageTransform, maxNumChunks)
    ensures r.Failure? ==> r.error == DoesNotFit
    ensures r.Success? ==> fresh(r.value.1) && fresh(r.value.2)
    ensures r.Success? ==> StackedAs(r.value.2, batchImages, imageTransform, zero, maxNumChunks)
    ensures r.Success? ==>
              && |r.value.0| == |batchImages|
              && (forall i :: 0 <= i < |batchImages| ==> |r.value.0[i]| == |batchImages[i]|)
              && (forall i, j :: 0 <= i < |batchImages| && 0 <= j < |batchImages[i]| ==>
                    r.value.0[i][j] == |imageTransform(batchImages[i][j]).0|)
              && var a := r.value.1;
                 && a.Length0 == |batchImages| && a.Length1 == MaxLen(batchImages) && a.Length2 == 2
                 && forall i, j, c :: 0 <= i < |batchImages| && 0 <= j < MaxLen(batchImages) && 0 <= c < 2 ==>
                      a[i, j, c] == if j < |batchImages[i]| then
                                      (if c == 0 then imageTransform(batchImages[i][j]).1.0
                                       else imageTransform(batchImages[i][j]).1.1)
                                    else 1
  {
    var maxNumImages := MaxLen(batchImages);
    var bsz := |batchImages|;
    var transformed: seq<seq<(seq<T>, (int, int))>> := TransformAll(batchImages, imageTransform);
    var chunks := ChunksOf(transformed);
    var ratios := RatiosOf(transformed);
    var a := AspectRatios(ratios, maxNumImages);
    var s := StackImages(chunks, zero, maxNumChunks, maxNumImages);
    FitsIffChunksFit(batchImages, imageTransform, maxNumChunks);
    if s.Failure? {
      return Failure(s.error);
    }
    StackedPlacement(s.value.chunks, batchImages, imageTransform, zero, maxNumChunks);
    r := Success((s.value.numChunks, a, s.value.chunks));
    forall i, j | 0 <= i < |batchImages| && 0 <= j < |batchImages[i]|
      ensures r.value.0[i][j] == |imageTransform(batchImages[i][j]).0|
    {
      assert chunks[i][j] == transformed[i][j].0;
    }
  }

  /** The transform applied to every image of every sample. */
  function TransformAll<I, T>(batchImages: seq<seq<I>>, imageTransform: I -> (seq<T>, (int, int)))
    : (t: seq<seq<(seq<T>, (int, int))>>)
    ensures |t| == |batchImages| && forall i :: 0 <= i < |t| ==> |t[i]| == |batchImages[i]|
    ensures forall i, j :: 0 <= i < |t| && 0 <= j < |t[i]| ==> t[i][j] == imageTransform(batchImages[i][j])
  {
    seq(|batchImages|, i requires 0 <= i < |batchImages| =>
      seq(|batchImages[i]|, j requires 0 <= j < |batchImages[i]| => imageTransform(batchImages[i][j])))
  }

  /** The chunks of every transformed image. */
  function ChunksOf<T>(transformed: seq<seq<(seq<T>, (int, int))>>): (c: seq<seq<seq<T>>>)
    ensures |c| == |transformed| && forall i :: 0 <= i < |c| ==> |c[i]| == |transformed[i]|
    ensures forall i, j :: 0 <= i < |c| && 0 <= j < |c[i]| ==> c[i][j] == transformed[i][j].0
  {
    seq(|transformed|, i requires 0 <= i < |transformed| =>
      seq(|transformed[i]|, j requires 0 <= j < |transformed[i]| => transformed[i][j].0))
  }

  /** The aspect ratio of every transformed image. */
  function RatiosOf<T>(transformed: seq<seq<(seq<T>, (int, int))>>): (r: seq<seq<(int, int)>>)
    ensures |r| == |transformed| && forall i :: 0 <= i < |r| ==> |r[i]| == |transformed[i]|
    ensures forall i, j :: 0 <= i < |r| && 0 <= j < |r[i]| ==> r[i][j] == transformed[i][j].1
  {
    seq(|transformed|, i requires 0 <= i < |transformed| =>
      seq(|transformed[i]|, j requires 0 <= j < |transformed[i]| => transformed[i][j].1))
  }

  /** `compute_vision_tokens_masks` up to the encoder call: the length check, the
      no-image default of `max_num_chunks` chunks per sample, the aspect ratios,
      the stacked chunks and the padded masks. `imageTransform` (outside this
      file) gives an image's chunks and its aspect ratio. */
  method ComputeVisionInputs<I, T>(batchImages: seq<seq<I>>, batchMasks: seq<seq<array<int>>>,
                                   totalLen: int, maxNumChunks: nat,
                                   imageTransform: I -> (seq<T>, (int, int)), zero: T)
    returns (r: Result<VisionInputs<T>, VisionBatchError>)
    modifies Elements(batchMasks)
    ensures |batchImages| != |batchMasks| ==> r == Failure(LengthMismatch)
    ensures |batchImages| == |batchMasks| == 0 ==> r == Failure(NoSamples)
    ensures r.Success? ==> |batchImages| == |batchMasks| > 0
    ensures r.Success? && MaxLen(batchImages) == 0 ==>
              && r.value.skipVisionEncoder
              && r.value.numChunks == seq(|batchImages|, _ => [maxNumChunks])
              && r.value.aspectRatios.None? && r.value.stacked.None?
    ensures r.Success? && MaxLen(batchImages) > 0 ==>
              && !r.value.skipVisionEncoder
              && r.value.aspectRatios.Some? && r.value.stacked.Some?
              && |r.value.numChunks| == |batchImages|
              && (forall i :: 0 <= i < |batchImages| ==> |r.value.numChunks[i]| == |batchImages[i]|)
              && (forall i, j :: 0 <= i < |batchImages| && 0 <= j < |batchImages[i]| ==>
                    r.value.numChunks[i][j] == |imageTransform(batchImages[i][j]).0|)
              && var a := r.value.aspectRatios.value;
                 && a.Length0 == |batchImages| && a.Length1 == MaxLen(batchImages) && a.Length2 == 2
                 && forall i, j, c :: 0 <= i < |batchImages| && 0 <= j < MaxLen(batchImages) && 0 <= c < 2 ==>
                      a[i, j, c] == if j < |batchImages[i]| then
                                      (if c == 0 then imageTransform(batchImages[i][j]).1.0
                                       else imageTransform(batchImages[i][j]).1.1)
                                    else 1
    ensures r.Success? <==> |batchImages| == |batchMasks| > 0 && totalLen >= 0
                            && (MaxLen(batchImages) > 0 ==> ChunksFit(batchImages, imageTransform, maxNumChunks))
    ensures r.Failure? && |batchImages| == |batchMasks| > 0 ==>
              r.error == if MaxLen(batchImages) > 0 && !ChunksFit(batchImages, imageTransform, maxNumChunks)
                         then StackFailed(DoesNotFit) else PadFailed(NegativeSize)
    ensures r.Failure? ==> forall a :: a in Elements(batchMasks) ==> a[..] == old(a[..])
    ensures r.Success? && MaxLen(batchImages) > 0 ==>
              && fresh(r.value.aspectRatios.value) && fresh(r.value.stacked.value)
              && StackedAs(r.value.stacked.value, batchImages, imageTransform, zero, maxNumChunks)
    ensures r.Success? ==>
              && fresh(r.value.paddedMasks)
              && r.value.paddedMasks.Length0 == |batchMasks| && r.value.paddedMasks.Length1 == totalLen
              && r.value.paddedMasks.Length2 == MaxLen(batchMasks) && r.value.paddedMasks.Length3 == maxNumChunks
    ensures r.Success? ==>
              var g := r.value.paddedMasks;
              forall b, t, m, c :: 0 <= b < g.Length0 && 0 <= t < g.Length1 && 0 <= m < g.Length2 && 0 <= c < g.Length3 ==>
                g[b, t, m, c] ==
                  if OpenCell(old(Snapshot(batchMasks)), r.value.numChunks, totalLen, maxNumChunks, b, t, m, c)
                  then Zero else NegInf
    ensures r.Success? ==> forall b, m :: Visited(batchMasks, r.value.numChunks, b, m) ==>
              && batchMasks[b][m][0] == old(batchMasks[b][m][0])
              && batchMasks[b][m][1] == ClampEnd(old(batchMasks[b][m][1]), totalLen)
    ensures r.Success? ==> forall a :: a in Elements(batchMasks) && a !in VisitedElements(batchMasks, r.value.numChunks) ==>
              a[..] == old(a[..])
  {
    if |batchImages| != |batchMasks| {
      return Failure(LengthMismatch);
    }
    if |batchImages| == 0 {
      return Failure(NoSamples);
    }
    var maxNumImages := MaxLen(batchImages);
    var bsz := |batchImages|;
    var numChunks: seq<seq<int>>;
    var aspect: Option<array3<int>> := None;
    var stacked: Option<array3<T>> := None;
    var skip := false;
    if maxNumImages == 0 {
      numChunks := seq(bsz, _ => [maxNumChunks]);
      skip := true;
    } else {
      var e := EncoderInputs(batchImages, maxNumChunks, imageTransform, zero);
      if e.Failure? {
        return Failure(StackFailed(e.error));
      }
      numChunks := e.value.0;
      aspect := Some(e.value.1);
      stacked := Some(e.value.2);
    }
    VisitedAreElements(batchMasks, numChunks);
    var padded := PadMasks(batchMasks, numChunks, totalLen, maxNumChunks);
    if padded.Failure? {
      return Failure(PadFailed(padded.error));
    }
    r := Success(VisionInputs(skip, numChunks, aspect, stacked, padded.value));
  }
}
