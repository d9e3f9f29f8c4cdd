/** The cross-attention mask rules of the Llama vision model
    (nemo/collections/vlm/llama/model/vision.py): the spans an image token may
    attend over, the padded mask grid built from them, the mask of fully blocked
    text rows, the stacking of image chunks, the capture of intermediate layer
    inputs and the patch-grid arithmetic of the vision encoder. */
module LlamaVision {
  import opened Wrappers
  import opened PyOps

  // ---------------------------------------------------------------------------
  // create_vision_mask_tensor
  // ---------------------------------------------------------------------------

  /** One `[start, end)` row of the vision mask tensor. */
  datatype Span = Span(start: int, end: int)

  /** The positions `p >= from` at which `tokens[p] == id`, in increasing order
      (what `(tokens == id).nonzero()` yields for the suffix). */
  function OccurrencesFrom(tokens: seq<int>, id: int, from: nat): (locs: seq<nat>)
    ensures forall k :: 0 <= k < |locs| ==> from <= locs[k] < |tokens| && tokens[locs[k]] == id
    ensures forall k, l :: 0 <= k < l < |locs| ==> locs[k] < locs[l]
    ensures forall p :: from <= p < |tokens| && tokens[p] == id ==> p in locs
    decreases |tokens| - from
  {
    if from >= |tokens| then []
    else if tokens[from] == id then [from] + OccurrencesFrom(tokens, id, from + 1)
    else OccurrencesFrom(tokens, id, from + 1)
  }

  function Occurrences(tokens: seq<int>, id: int): seq<nat>
  {
    OccurrencesFrom(tokens, id, 0)
  }

  /** The end the reversed merging pass gives span `k`, in terms of the sorted
      image-token positions `locs` and the sequence length `len`: the last span
      ends at `len`; a span whose image token is immediately followed by the next
      image token takes the end of the following span; any other span ends at the
      next image token. */
  function MergedEnd(locs: seq<nat>, len: nat, k: nat): int
    requires k < |locs|
    decreases |locs| - k
  {
    if k == |locs| - 1 then len
    else if locs[k] + 1 == locs[k + 1] then MergedEnd(locs, len, k + 1)
    else locs[k + 1]
  }

  /** The image-token positions, collected by one scan of the tokens. */
  method VisionTokenLocations(tokens: seq<int>, visionTokenId: int) returns (locs: seq<nat>)
    ensures locs == Occurrences(tokens, visionTokenId)
  {
    locs := [];
    var p: nat := 0;
    while p < |tokens|
      invariant p <= |tokens|
      invariant locs + OccurrencesFrom(tokens, visionTokenId, p) == Occurrences(tokens, visionTokenId)
    {
      OccurrencesFromStep(tokens, visionTokenId, p);
      if tokens[p] == visionTokenId {
        AppendAssoc(locs, p, OccurrencesFrom(tokens, visionTokenId, p + 1));
        locs := locs + [p];
      }
      p := p + 1;
    }
    assert locs + [] == locs;
  }

  lemma OccurrencesFromStep(tokens: seq<int>, id: int, p: nat)
    requires p < |tokens|
    ensures OccurrencesFrom(tokens, id, p)
            == (if tokens[p] == id then [p] else []) + OccurrencesFrom(tokens, id, p + 1)
  {
  }

  lemma AppendAssoc(xs: seq<nat>, x: nat, ys: seq<nat>)
    ensures xs + ([x] + ys) == (xs + [x]) + ys
  {
  }

  /** The end span `k` has before merging: the next image token, or `len` for
      the last one. */
  function RawEnd(locs: seq<nat>, len: nat, k: nat): int
    requires k < |locs|
  {
    if k == |locs| - 1 then len else locs[k + 1]
  }

  /** The unmerged spans: from each image token to the next, the last to `len`. */
  method RawSpans(locs: seq<nat>, len: nat) returns (masks: seq<Span>)
    requires |locs| > 0
    ensures |masks| == |locs|
    ensures forall k :: 0 <= k < |locs| ==> masks[k] == Span(locs[k], RawEnd(locs, len, k))
  {
    var n := |locs|;
    if n == 1 {
      return [Span(locs[0], len)];
    }
    masks := [];
    var i := 0;
    while i < n - 1
      invariant 0 <= i <= n - 1
      invariant |masks| == i
      invariant forall j :: 0 <= j < i ==> masks[j] == Span(locs[j], locs[j + 1])
    {
      masks := masks + [Span(locs[i], locs[i + 1])];
      i := i + 1;
    }
    // the last vision token attends to all subsequent text
    masks := masks + [Span(locs[n - 1], len)];
  }

  /** The reversed pass: a span of length one takes the end of the span after it. */
  method MergeAdjacent(locs: seq<nat>, len: nat, raw: seq<Span>) returns (masks: seq<Span>)
    requires |raw| == |locs| > 0
    requires forall k :: 0 <= k < |locs| ==> raw[k] == Span(locs[k], RawEnd(locs, len, k))
    ensures |masks| == |locs|
    ensures forall k :: 0 <= k < |locs| ==> masks[k] == Span(locs[k], MergedEnd(locs, len, k))
  {
    var n := |locs|;
    masks := raw;
    var lastEnd := masks[n - 1].end;
    var j := n;
    while j > 0
      invariant 0 <= j <= n && |masks| == n
      invariant forall k :: 0 <= k < j ==> masks[k] == raw[k]
      invariant forall k :: j <= k < n ==> masks[k] == Span(locs[k], MergedEnd(locs, len, k))
      invariant lastEnd == if j == n then len else MergedEnd(locs, len, j)
    {
      j := j - 1;
      if masks[j].start == masks[j].end - 1 {
        masks := masks[j := Span(masks[j].start, lastEnd)];
      }
      lastEnd := masks[j].end;
    }
  }

  /** `create_vision_mask_tensor`: one span per image token, starting at it; runs
      of adjacent image tokens share one end; no image token gives no span. */
  method CreateVisionMask(tokens: seq<int>, visionTokenId: int) returns (masks: seq<Span>)
    ensures |masks| == |Occurrences(tokens, visionTokenId)|
    ensures |masks| == 0 <==> forall p :: 0 <= p < |tokens| ==> tokens[p] != visionTokenId
    ensures forall i :: 0 <= i < |masks| ==>
              masks[i] == Span(Occurrences(tokens, visionTokenId)[i],
                               MergedEnd(Occurrences(tokens, visionTokenId), |tokens|, i))
  {
    var locs := VisionTokenLocations(tokens, visionTokenId);
    if |locs| == 0 {
      return [];
    }
    assert tokens[locs[0]] == visionTokenId;
    var raw := RawSpans(locs, |tokens|);
    masks := MergeAdjacent(locs, |tokens|, raw);
  }

  /** Every span is non-empty and lies within the token sequence. */
  lemma {:induction false} MergedEndBounds(locs: seq<nat>, len: nat, k: nat)
    requires forall i :: 0 <= i < |locs| ==> locs[i] < len
    requires forall i, j :: 0 <= i < j < |locs| ==> locs[i] < locs[j]
    requires k < |locs|
    ensures locs[k] < MergedEnd(locs, len, k) <= len
    decreases |locs| - k
  {
    if k < |locs| - 1 && locs[k] + 1 == locs[k + 1] {
      MergedEndBounds(locs, len, k + 1);
    }
  }

  /** Position `q` begins a run of image tokens: it is an image token and the
      token before it is not. */
  ghost predicate RunStart(tokens: seq<int>, id: int, q: int)
  {
    0 < q < |tokens| && tokens[q] == id && tokens[q - 1] != id
  }

  /** Between two consecutive image tokens, and after the last one, there is no
      image token. */
  lemma NoImageTokenBetween(tokens: seq<int>, id: int, k: nat, q: int)
    requires k < |Occurrences(tokens, id)|
    requires Occurrences(tokens, id)[k] < q < |tokens|
    requires k + 1 < |Occurrences(tokens, id)| ==> q < Occurrences(tokens, id)[k + 1]
    ensures tokens[q] != id
  {
  }

  /** What a span covers, stated on the tokens alone: span `k` runs from its image
      token to the first later position that begins a new run of image tokens, or
      to the end of the sequence when there is none. So inside a span every image
      token is preceded by an image token (the span holds one run of images, then
      text). */
  lemma {:induction false} MergedEndIsNextRunStart(tokens: seq<int>, id: int, k: nat)
    requires k < |Occurrences(tokens, id)|
    ensures var locs := Occurrences(tokens, id); var e := MergedEnd(locs, |tokens|, k);
            && (e == |tokens| || RunStart(tokens, id, e))
            && forall q :: locs[k] < q < e ==> !RunStart(tokens, id, q)
    decreases |Occurrences(tokens, id)| - k
  {
    var locs := Occurrences(tokens, id);
    var e := MergedEnd(locs, |tokens|, k);
    if k == |locs| - 1 {
      forall q | locs[k] < q < e
        ensures !RunStart(tokens, id, q)
      {
        NoImageTokenBetween(tokens, id, k, q);
      }
    } else if locs[k] + 1 == locs[k + 1] {
      MergedEndIsNextRunStart(tokens, id, k + 1);
      forall q | locs[k] < q < e
        ensures !RunStart(tokens, id, q)
      {
        if q == locs[k + 1] {
          assert tokens[q - 1] == id;
        }
      }
    } else {
      assert e == locs[k + 1];
      assert locs[k] < e - 1;
      NoImageTokenBetween(tokens, id, k, e - 1);
      forall q | locs[k] < q < e
        ensures !RunStart(tokens, id, q)
      {
        NoImageTokenBetween(tokens, id, k, q);
      }

    }
  }

  // ---------------------------------------------------------------------------
  // _pad_masks
  // ---------------------------------------------------------------------------

  /** A cell of the padded mask: the dtype's most negative value (the "blocked"
      sentinel the grid starts filled with) or 0.0 (attend). */
  datatype MaskCell = NegInf | Zero

  datatype PadError =
    | EmptyBatch    // `max()` of an empty sequence
    | NegativeSize  // `torch.full` with a negative dimension

  /** `max(len(m) for m in rows)`. */
  function MaxLen<T>(rows: seq<seq<T>>): (r: nat)
    requires |rows| > 0
    ensures forall i :: 0 <= i < |rows| ==> |rows[i]| <= r
    ensures exists i :: 0 <= i < |rows| && |rows[i]| == r
  {
    if |rows| == 1 then |rows[0]|
    else
      var rest := MaxLen(rows[1..]);
      assert forall i :: 1 <= i < |rows| ==> rows[1..][i - 1] == rows[i];
      if |rows[0]| >= rest then |rows[0]| else rest
  }

  /** The end a length-2 mask element holds after `_pad_masks` rewrote it:
      clamped to `totalLen`, with -1 meaning `totalLen`. */
  function ClampEnd(e: int, totalLen: int): (r: int)
  {
    var m := if e < totalLen then e else totalLen;
    if m == -1 then totalLen else m
  }

  /** Rewriting an end twice is the same as once. */
  lemma ClampEndIdempotent(e: int, totalLen: nat)
    ensures ClampEnd(ClampEnd(e, totalLen), totalLen) == ClampEnd(e, totalLen)
  {
  }

  ghost function SnapshotRow(row: seq<array<int>>): (r: seq<seq<int>>)
    reads row
    ensures |r| == |row|
    ensures forall m :: 0 <= m < |row| ==> r[m] == row[m][..]
  {
    if row == [] then [] else [row[0][..]] + SnapshotRow(row[1..])
  }

  /** Every mask element of the batch. */
  ghost function Elements(allMasks: seq<seq<array<int>>>): set<array<int>>
  {
    set b, a | 0 <= b < |allMasks| && a in allMasks[b] :: a
  }

  /** The contents of the caller's mask elements. */
  ghost function Snapshot(allMasks: seq<seq<array<int>>>): (r: seq<seq<seq<int>>>)
    reads Elements(allMasks)
    ensures |r| == |allMasks|
    ensures forall b :: 0 <= b < |allMasks| ==> r[b] == SnapshotRow(allMasks[b])
  {
    if allMasks == [] then []
    else
      assert forall a :: a in allMasks[0] ==> a in Elements(allMasks);
      assert Elements(allMasks[1..]) <= Elements(allMasks) by {
        forall a | a in Elements(allMasks[1..])
          ensures a in Elements(allMasks)
        {
          var b :| 0 <= b < |allMasks[1..]| && a in allMasks[1..][b];
          assert a in allMasks[b + 1];
        }
      }
      [SnapshotRow(allMasks[0])] + Snapshot(allMasks[1..])
  }

  /** The (sample, media) pairs the two nested `zip` loops reach whose element
      has length 2. */
  predicate Visited(allMasks: seq<seq<array<int>>>, allNumChunks: seq<seq<int>>, b: int, m: int)
  {
    0 <= b < |allMasks| && b < |allNumChunks| &&
    0 <= m < |allMasks[b]| && m < |allNumChunks[b]| && allMasks[b][m].Length == 2
  }

  ghost function VisitedElements(allMasks: seq<seq<array<int>>>, allNumChunks: seq<seq<int>>): set<array<int>>
  {
    set b, m | 0 <= b < |allMasks| && 0 <= m < |allMasks[b]| && Visited(allMasks, allNumChunks, b, m)
      :: allMasks[b][m]
  }

  /** Whether cell `[b, t, m, c]` of the padded grid is 0: sample `b`'s media
      `m` is reached by the loops, its element has length 2, `t` lies in the
      Python slice `start:ClampEnd(end)` of the text axis and `c` in the slice
      `:num_chunks` of the chunk axis. */
  ghost predicate OpenCell(masks: seq<seq<seq<int>>>, numChunks: seq<seq<int>>,
                           totalLen: nat, maxNumChunks: nat, b: int, t: int, m: int, c: int)
  {
    0 <= b < |masks| && b < |numChunks| && 0 <= m < |masks[b]| && m < |numChunks[b]| &&
    |masks[b][m]| == 2 &&
    SliceBound(masks[b][m][0], totalLen) <= t < SliceBound(ClampEnd(masks[b][m][1], totalLen), totalLen) &&
    0 <= c < SliceBound(numChunks[b][m], maxNumChunks)
  }

  /** The loops have handled pair `(b, m)` once they are at pair `(idx, mi)`. */
  predicate Before(b: int, m: int, idx: int, mi: int)
  {
    b < idx || (b == idx && m < mi)
  }

  /** The grid holds 0 exactly in the open cells of the pairs handled so far. */
  ghost predicate GridState(out: array4<MaskCell>, masks: seq<seq<seq<int>>>, numChunks: seq<seq<int>>,
                            idx: int, mi: int)
    reads out
  {
    forall b, t, m, c :: 0 <= b < out.Length0 && 0 <= t < out.Length1 && 0 <= m < out.Length2 && 0 <= c < out.Length3 ==>
      out[b, t, m, c] ==
        if Before(b, m, idx, mi) && OpenCell(masks, numChunks, out.Length1, out.Length3, b, t, m, c)
        then Zero else NegInf
  }

  /** The reached elements keep their start; their end is the original one or its
      rewritten value, and the rewritten value once handled. */
  ghost predicate ElementState(allMasks: seq<seq<array<int>>>, allNumChunks: seq<seq<int>>,
                               masks: seq<seq<seq<int>>>, totalLen: nat, idx: int, mi: int)
    reads VisitedElements(allMasks, allNumChunks)
  {
    && |masks| == |allMasks|
    && (forall b :: 0 <= b < |allMasks| ==> |masks[b]| == |allMasks[b]|)
    && (forall b, m :: 0 <= b < |allMasks| && 0 <= m < |allMasks[b]| ==> |masks[b][m]| == allMasks[b][m].Length)
    && forall b, m :: Visited(allMasks, allNumChunks, b, m) ==>
         && allMasks[b][m][0] == masks[b][m][0]
         && (allMasks[b][m][1] == masks[b][m][1] || allMasks[b][m][1] == ClampEnd(masks[b][m][1], totalLen))
         && (Before(b, m, idx, mi) ==> allMasks[b][m][1] == ClampEnd(masks[b][m][1], totalLen))
  }

  /** `elem[1] = min(elem[1], total_len)`, then -1 becomes `total_len`. */
  method ClampElementEnd(elem: array<int>, totalLen: int)
    requires elem.Length == 2
    modifies elem
    ensures elem[0] == old(elem[0]) && elem[1] == ClampEnd(old(elem[1]), totalLen)
  {
    elem[1] := if elem[1] < totalLen then elem[1] else totalLen;
    if elem[1] == -1 {
      elem[1] := totalLen;
    }
  }

  /** `fill_(0)` on the slice `[b, lo:hi, m, :n]`. */
  method OpenSpan(out: array4<MaskCell>, b: nat, m: nat, lo: int, hi: int, n: int)
    requires b < out.Length0 && m < out.Length2
    modifies out
    ensures forall b', t, m', c :: 0 <= b' < out.Length0 && 0 <= t < out.Length1 && 0 <= m' < out.Length2 && 0 <= c < out.Length3 ==>
              out[b', t, m', c] ==
                if b' == b && m' == m && SliceBound(lo, out.Length1) <= t < SliceBound(hi, out.Length1) &&
                   c < SliceBound(n, out.Length3)
                then Zero else old(out[b', t, m', c])
  {
    var l, h, k := SliceBound(lo, out.Length1), SliceBound(hi, out.Length1), SliceBound(n, out.Length3);
    forall t, c | l <= t < h && 0 <= c < k {
      out[b, t, m, c] := Zero;
    }
  }

  /** One step of the inner loop: rewrite the element's end, then open its cells. */
  method PadElement(out: array4<MaskCell>, allMasks: seq<seq<array<int>>>, allNumChunks: seq<seq<int>>,
                    ghost masks: seq<seq<seq<int>>>, idx: nat, mi: nat)
    requires Visited(allMasks, allNumChunks, idx, mi)
    requires idx < out.Length0 && mi < out.Length2
    requires GridState(out, masks, allNumChunks, idx, mi)
    requires ElementState(allMasks, allNumChunks, masks, out.Length1, idx, mi)
    modifies out, allMasks[idx][mi]
    ensures GridState(out, masks, allNumChunks, idx, mi + 1)
    ensures ElementState(allMasks, allNumChunks, masks, out.Length1, idx, mi + 1)
  {
    var elem := allMasks[idx][mi];
    ghost var cur := elem[1];
    ClampElementEnd(elem, out.Length1);
    ClampEndIdempotent(masks[idx][mi][1], out.Length1);
    assert elem[1] == ClampEnd(masks[idx][mi][1], out.Length1);
    OpenSpan(out, idx, mi, elem[0], elem[1], allNumChunks[idx][mi]);
    forall b, m | Visited(allMasks, allNumChunks, b, m) && allMasks[b][m] == elem
      ensures allMasks[b][m][1] == ClampEnd(masks[b][m][1], out.Length1)
    {
      ClampEndIdempotent(masks[b][m][1], out.Length1);
    }
  }

  /** A pair whose element does not have length 2 opens no cell. */
  lemma GridSkip(out: array4<MaskCell>, masks: seq<seq<seq<int>>>, numChunks: seq<seq<int>>, idx: int, mi: int)
    requires 0 <= idx < |masks| && 0 <= mi < |masks[idx]| && |masks[idx][mi]| != 2
    requires GridState(out, masks, numChunks, idx, mi)
    ensures GridState(out, masks, numChunks, idx, mi + 1)
  {
  }

  /** Past the end of one of the zipped lists a sample opens no more cells. */
  lemma GridNextSample(out: array4<MaskCell>, masks: seq<seq<seq<int>>>, numChunks: seq<seq<int>>, idx: int, nm: int)
    requires 0 <= idx < |masks| && idx < |numChunks| && (nm >= |masks[idx]| || nm >= |numChunks[idx]|)
    requires GridState(out, masks, numChunks, idx, nm)
    ensures GridState(out, masks, numChunks, idx + 1, 0)
  {
  }

  /** Past the end of one of the zipped batches no cell opens. */
  lemma GridDone(out: array4<MaskCell>, masks: seq<seq<seq<int>>>, numChunks: seq<seq<int>>, nb: int)
    requires nb >= |masks| || nb >= |numChunks|
    requires GridState(out, masks, numChunks, nb, 0)
    ensures GridState(out, masks, numChunks, out.Length0, 0)
  {
  }

  /** The inner `zip` loop over one sample's media. */
  method PadSample(out: array4<MaskCell>, allMasks: seq<seq<array<int>>>, allNumChunks: seq<seq<int>>,
                   ghost masks: seq<seq<seq<int>>>, idx: nat)
    requires idx < |allMasks| && idx < |allNumChunks| && idx < out.Length0
    requires |allMasks[idx]| <= out.Length2
    requires GridState(out, masks, allNumChunks, idx, 0)
    requires ElementState(allMasks, allNumChunks, masks, out.Length1, idx, 0)
    modifies out, VisitedElements(allMasks, allNumChunks)
    ensures GridState(out, masks, allNumChunks, idx + 1, 0)
    ensures ElementState(allMasks, allNumChunks, masks, out.Length1, idx + 1, 0)
  {
    var mask, numChunks := allMasks[idx], allNumChunks[idx];
    var nm := if |mask| < |numChunks| then |mask| else |numChunks|;
    var mi := 0;
    while mi < nm
      invariant 0 <= mi <= nm
      invariant GridState(out, masks, allNumChunks, idx, mi)
      invariant ElementState(allMasks, allNumChunks, masks, out.Length1, idx, mi)
    {
      if mask[mi].Length == 2 {
        assert Visited(allMasks, allNumChunks, idx, mi);
        assert allMasks[idx][mi] in VisitedElements(allMasks, allNumChunks);
        PadElement(out, allMasks, allNumChunks, masks, idx, mi);
      } else {
        GridSkip(out, masks, allNumChunks, idx, mi);
      }
      mi := mi + 1;
    }
    GridNextSample(out, masks, allNumChunks, idx, nm);
  }

  /** The outer `zip` loop over the samples. */
  method PadAll(out: array4<MaskCell>, allMasks: seq<seq<array<int>>>, allNumChunks: seq<seq<int>>,
                ghost masks: seq<seq<seq<int>>>)
    requires out.Length0 == |allMasks|
    requires forall b :: 0 <= b < |allMasks| ==> |allMasks[b]| <= out.Length2
    requires GridState(out, masks, allNumChunks, 0, 0)
    requires ElementState(allMasks, allNumChunks, masks, out.Length1, 0, 0)
    modifies out, VisitedElements(allMasks, allNumChunks)
    ensures GridState(out, masks, allNumChunks, out.Length0, 0)
    ensures ElementState(allMasks, allNumChunks, masks, out.Length1, out.Length0, 0)
  {
    var nb := if |allMasks| < |allNumChunks| then |allMasks| else |allNumChunks|;
    var idx := 0;
    while idx < nb
      invariant 0 <= idx <= nb
      invariant GridState(out, masks, allNumChunks, idx, 0)
      invariant ElementState(allMasks, allNumChunks, masks, out.Length1, idx, 0)
    {
      PadSample(out, allMasks, allNumChunks, masks, idx);
      idx := idx + 1;
    }
    GridDone(out, masks, allNumChunks, nb);
  }

  /** `_pad_masks`: a bsz x totalLen x (most media) x maxNumChunks grid, all
      sentinel except the cells the spans open; the clamped ends are written
      back into the caller's mask elements. */
  method PadMasks(allMasks: seq<seq<array<int>>>, allNumChunks: seq<seq<int>>,
                  totalLen: int, maxNumChunks: int)
    returns (r: Result<array4<MaskCell>, PadError>)
    modifies VisitedElements(allMasks, allNumChunks)
    ensures |allMasks| == 0 ==> r == Failure(EmptyBatch)
    ensures |allMasks| > 0 && (totalLen < 0 || maxNumChunks < 0) ==> r == Failure(NegativeSize)
    ensures r.Failure? ==> forall a :: a in VisitedElements(allMasks, allNumChunks) ==> a[..] == old(a[..])
    ensures |allMasks| > 0 && totalLen >= 0 && maxNumChunks >= 0 ==> r.Success?
    ensures r.Success? ==>
              && fresh(r.value)
              && r.value.Length0 == |allMasks| && r.value.Length1 == totalLen
              && r.value.Length2 == MaxLen(allMasks) && r.value.Length3 == maxNumChunks
              && forall b, t, m, c :: 0 <= b < r.value.Length0 && 0 <= t < r.value.Length1 &&
                                      0 <= m < r.value.Length2 && 0 <= c < r.value.Length3 ==>
                   r.value[b, t, m, c] ==
                     if OpenCell(old(Snapshot(allMasks)), allNumChunks, totalLen, maxNumChunks, b, t, m, c)
                     then Zero else NegInf
    ensures r.Success? ==> forall b, m :: Visited(allMasks, allNumChunks, b, m) ==>
              && allMasks[b][m][0] == old(allMasks[b][m][0])
              && allMasks[b][m][1] == ClampEnd(old(allMasks[b][m][1]), totalLen)
  {
    if |allMasks| == 0 {
      return Failure(EmptyBatch);
    }
    if totalLen < 0 || maxNumChunks < 0 {
      return Failure(NegativeSize);
    }
    var out := PadGrid(allMasks, allNumChunks, totalLen, maxNumChunks);
    r := Success(out);
  }

  /** The grid of `_pad_masks` once its sizes are known to be valid. */
  method PadGrid(allMasks: seq<seq<array<int>>>, allNumChunks: seq<seq<int>>,
                 totalLen: nat, maxNumChunks: nat)
    returns (out: array4<MaskCell>)
    requires |allMasks| > 0
    modifies VisitedElements(allMasks, allNumChunks)
    ensures fresh(out)
    ensures out.Length0 == |allMasks| && out.Length1 == totalLen
    ensures out.Length2 == MaxLen(allMasks) && out.Length3 == maxNumChunks
    ensures forall b, t, m, c :: 0 <= b < out.Length0 && 0 <= t < out.Length1 &&
                                 0 <= m < out.Length2 && 0 <= c < out.Length3 ==>
              out[b, t, m, c] ==
                if OpenCell(old(Snapshot(allMasks)), allNumChunks, totalLen, maxNumChunks, b, t, m, c)
                then Zero else NegInf
    ensures forall b, m :: Visited(allMasks, allNumChunks, b, m) ==>
              && allMasks[b][m][0] == old(allMasks[b][m][0])
              && allMasks[b][m][1] == ClampEnd(old(allMasks[b][m][1]), totalLen)
  {
    ghost var S := Snapshot(allMasks);
    InitialElementState(allMasks, allNumChunks, S, totalLen);
    out := new MaskCell[|allMasks|, totalLen, MaxLen(allMasks), maxNumChunks]((_, _, _, _) => NegInf);
    InitialGridState(out, S, allNumChunks);
    PadAll(out, allMasks, allNumChunks, S);
    GridComplete(out, S, allNumChunks);
    ElementsComplete(allMasks, allNumChunks, S, totalLen, out.Length0);
  }

  /** Before the loops nothing is handled and every element holds its snapshot. */
  lemma InitialElementState(allMasks: seq<seq<array<int>>>, allNumChunks: seq<seq<int>>,
                            masks: seq<seq<seq<int>>>, totalLen: nat)
    requires masks == Snapshot(allMasks)
    ensures ElementState(allMasks, allNumChunks, masks, totalLen, 0, 0)
    ensures forall b, m :: Visited(allMasks, allNumChunks, b, m) ==>
              masks[b][m][0] == allMasks[b][m][0] && masks[b][m][1] == allMasks[b][m][1]
  {
  }

  /** A grid filled with the sentinel has no open cell yet. */
  lemma InitialGridState(out: array4<MaskCell>, masks: seq<seq<seq<int>>>, numChunks: seq<seq<int>>)
    requires forall b, t, m, c :: 0 <= b < out.Length0 && 0 <= t < out.Length1 && 0 <= m < out.Length2 && 0 <= c < out.Length3 ==>
               out[b, t, m, c] == NegInf
    ensures GridState(out, masks, numChunks, 0, 0)
  {
  }

  /** Once every sample is handled, a cell is 0 exactly when it is open. */
  lemma GridComplete(out: array4<MaskCell>, masks: seq<seq<seq<int>>>, numChunks: seq<seq<int>>)
    requires GridState(out, masks, numChunks, out.Length0, 0)
    ensures forall b, t, m, c :: 0 <= b < out.Length0 && 0 <= t < out.Length1 && 0 <= m < out.Length2 && 0 <= c < out.Length3 ==>
              out[b, t, m, c] == if OpenCell(masks, numChunks, out.Length1, out.Length3, b, t, m, c) then Zero else NegInf
  {
  }

  /** Once every sample is handled, every reached element holds its rewritten end. */
  lemma ElementsComplete(allMasks: seq<seq<array<int>>>, allNumChunks: seq<seq<int>>,
                         masks: seq<seq<seq<int>>>, totalLen: nat, nb: int)
    requires nb == |allMasks|
    requires ElementState(allMasks, allNumChunks, masks, totalLen, nb, 0)
    ensures forall b, m :: Visited(allMasks, allNumChunks, b, m) ==>
              allMasks[b][m][0] == masks[b][m][0] && allMasks[b][m][1] == ClampEnd(masks[b][m][1], totalLen)
  {
  }

  // ---------------------------------------------------------------------------
  // _get_full_row_masked_out_mask
  // ---------------------------------------------------------------------------

  /** 1 when some entry of the row differs from the sentinel, else 0. */
  function RowAttends<T(==)>(row: seq<T>, sentinel: T): (r: nat)
    ensures r == 0 || r == 1
    ensures r == 1 <==> exists j :: 0 <= j < |row| && row[j] != sentinel
  {
    if row == [] then 0
    else if row[0] != sentinel then 1
    else
      var rest := RowAttends(row[1..], sentinel);
      assert forall j :: 1 <= j < |row| ==> row[1..][j - 1] == row[j];
      rest
  }

  /** `_get_full_row_masked_out_mask` on a [B, H, S1, S2] bias: a [B, H, S1, 1]
      result whose entry says whether its row is not entirely blocked. */
  function FullRowMaskedOutMask<T(==)>(bias: seq<seq<seq<seq<T>>>>, sentinel: T): (r: seq<seq<seq<seq<nat>>>>)
    ensures |r| == |bias|
    ensures forall b :: 0 <= b < |bias| ==> |r[b]| == |bias[b]|
    ensures forall b, h :: 0 <= b < |bias| && 0 <= h < |bias[b]| ==> |r[b][h]| == |bias[b][h]|
    ensures forall b, h, s :: 0 <= b < |bias| && 0 <= h < |bias[b]| && 0 <= s < |bias[b][h]| ==>
              |r[b][h][s]| == 1 &&
              (r[b][h][s][0] == 1 <==> exists j :: 0 <= j < |bias[b][h][s]| && bias[b][h][s][j] != sentinel) &&
              (r[b][h][s][0] == 0 <==> forall j :: 0 <= j < |bias[b][h][s]| ==> bias[b][h][s][j] == sentinel)
  {
    seq(|bias|, b requires 0 <= b < |bias| =>
      seq(|bias[b]|, h requires 0 <= h < |bias[b]| =>
        seq(|bias[b][h]|, s requires 0 <= s < |bias[b][h]| => [RowAttends(bias[b][h][s], sentinel)])))
  }

  // ---------------------------------------------------------------------------
  // _stack_images
  // ---------------------------------------------------------------------------

  /** The stacked chunks (each chunk a 3 x res x res tensor, kept abstract as T)
      and the chunk count of every image. */
  datatype Stacked<T> = Stacked(chunks: array3<T>, numChunks: seq<seq<nat>>)

  datatype StackError =
    | EmptyImageBatch  // `torch.stack([])`
    | DoesNotFit       // an image index beyond max_num_images, or chunks that cannot fill the slots

  /** Every image has a slot and either at most `maxNumChunks` chunks or a
      single chunk: the slot slice `[:n]` is clipped to `maxNumChunks`, and one
      chunk broadcasts onto a clipped slice of length zero. */
  predicate Fits<T>(images: seq<seq<seq<T>>>, maxNumChunks: nat, maxNumImages: nat)
  {
    forall i :: 0 <= i < |images| ==> SampleFits(images[i], maxNumChunks, maxNumImages)
  }

  predicate SampleFits<T>(sample: seq<seq<T>>, maxNumChunks: nat, maxNumImages: nat)
  {
    forall j :: 0 <= j < |sample| ==> j < maxNumImages && (|sample[j]| <= maxNumChunks || |sample[j]| == 1)
  }

  /** `_stack_images`: zero-filled slots, chunk `k` of image `j` of sample `i` in
      slot `[i, j, k]`, and the chunk counts per image. */
  method StackImages<T>(images: seq<seq<seq<T>>>, zero: T, maxNumChunks: nat, maxNumImages: nat)
    returns (r: Result<Stacked<T>, StackError>)
    ensures |images| == 0 ==> r == Failure(EmptyImageBatch)
    ensures |images| > 0 && !Fits(images, maxNumChunks, maxNumImages) ==> r == Failure(DoesNotFit)
    ensures |images| > 0 && Fits(images, maxNumChunks, maxNumImages) ==> r.Success?
    ensures r.Success? ==>
              && fresh(r.value.chunks)
              && r.value.chunks.Length0 == |images|
              && r.value.chunks.Length1 == maxNumImages
              && r.value.chunks.Length2 == maxNumChunks
              && |r.value.numChunks| == |images|
              && (forall i :: 0 <= i < |images| ==> |r.value.numChunks[i]| == |images[i]|)
              && (forall i, j :: 0 <= i < |images| && 0 <= j < |images[i]| ==>
                    r.value.numChunks[i][j] == |images[i][j]|)
              && forall i, j, k :: 0 <= i < |images| && 0 <= j < maxNumImages && 0 <= k < maxNumChunks ==>
                   r.value.chunks[i, j, k] ==
                     if j < |images[i]| && k < |images[i][j]| then images[i][j][k] else zero
  {
    var out := new T[|images|, maxNumImages, maxNumChunks]((_, _, _) => zero);
    var counts: seq<seq<nat>> := [];
    var i := 0;
    while i < |images|
      invariant 0 <= i <= |images| && |counts| == i
      invariant forall a :: 0 <= a < i ==> |counts[a]| == |images[a]|
      invariant forall a, b :: 0 <= a < i && 0 <= b < |images[a]| ==> counts[a][b] == |images[a][b]|
      invariant forall a :: 0 <= a < i ==> SampleFits(images[a], maxNumChunks, maxNumImages)
      invariant forall a, b, c :: 0 <= a < |images| && 0 <= b < maxNumImages && 0 <= c < maxNumChunks ==>
                  out[a, b, c] == if a < i && b < |images[a]| && c < |images[a][b]| then images[a][b][c] else zero
    {
      var row: seq<nat> := [];
      var j := 0;
      while j < |images[i]|
        invariant 0 <= j <= |images[i]| && |row| == j
        invariant forall b :: 0 <= b < j ==> row[b] == |images[i][b]|
        invariant forall b :: 0 <= b < j ==> b < maxNumImages && (|images[i][b]| <= maxNumChunks || |images[i][b]| == 1)
        invariant forall a, b, c :: 0 <= a < |images| && 0 <= b < maxNumImages && 0 <= c < maxNumChunks ==>
                    out[a, b, c] ==
                      if (a < i || (a == i && b < j)) && b < |images[a]| && c < |images[a][b]|
                      then images[a][b][c] else zero
      {
        var chunksImage := images[i][j];
        if j >= maxNumImages || (|chunksImage| > maxNumChunks && |chunksImage| != 1) {
          return Failure(DoesNotFit);
        }
        forall k | 0 <= k < |chunksImage| && k < maxNumChunks {
          out[i, j, k] := chunksImage[k];
        }
        row := row + [|chunksImage|];
        j := j + 1;
      }
      assert SampleFits(images[i], maxNumChunks, maxNumImages);
      counts := counts + [row];
      i := i + 1;
    }
    if |images| == 0 {
      return Failure(EmptyImageBatch);
    }
    r := Success(Stacked(out, counts));
  }

  // ---------------------------------------------------------------------------
  // forward_with_return_intermediate: capture of intermediate layer inputs
  // ---------------------------------------------------------------------------

  /** The hidden states after the first `n` layers (`layer(l, h)` is layer `l`). */
  function ApplyLayers<H>(layer: (nat, H) -> H, x: H, n: nat): H
  {
    if n == 0 then x else layer(n - 1, ApplyLayers(layer, x, n - 1))
  }

  /** The layer numbers below `n` that occur in `returnIntermediate`, in layer order. */
  function CapturedLayers(returnIntermediate: seq<int>, n: nat): (ls: seq<nat>)
    ensures forall i :: 0 <= i < |ls| ==> ls[i] < n && ls[i] in returnIntermediate
    ensures forall i, j :: 0 <= i < j < |ls| ==> ls[i] < ls[j]
    ensures forall l :: 0 <= l < n && l in returnIntermediate ==> l in ls
  {
    if n == 0 then []
    else CapturedLayers(returnIntermediate, n - 1) + (if n - 1 in returnIntermediate then [n - 1] else [])
  }

  /** The inputs of the captured layers below `n`, in layer order. */
  function Captured<H>(layer: (nat, H) -> H, x: H, returnIntermediate: seq<int>, n: nat): seq<H>
  {
    if n == 0 then []
    else Captured(layer, x, returnIntermediate, n - 1) +
         (if n - 1 in returnIntermediate then [ApplyLayers(layer, x, n - 1)] else [])
  }

  datatype BlockOutput<H> = Hidden(hidden: H) | WithIntermediates(hidden: H, intermediates: seq<H>)

  datatype BlockError =
    | IntermediatesWithFullRecompute  // the assertion in the recompute branch
    | NothingToStack                  // `torch.stack([])`: no listed layer exists

  /** The layer loop of `forward_with_return_intermediate`. Full recomputation
      (a checkpointing call outside this file) is taken to compute the same
      layers. */
  method ForwardWithReturnIntermediate<H>(
    hiddenStates: H, inputTensor: H, preProcess: bool,
    numLayers: nat, layer: (nat, H) -> H, finalLayernorm: Option<H -> H>,
    recomputeFull: bool, training: bool, returnIntermediate: Option<seq<int>>)
    returns (r: Result<BlockOutput<H>, BlockError>)
    ensures var x := if preProcess then hiddenStates else inputTensor;
            var y := ApplyLayers(layer, x, numLayers);
            var out := if finalLayernorm.Some? then finalLayernorm.value(y) else y;
            if recomputeFull && training then
              if returnIntermediate.Some? then r == Failure(IntermediatesWithFullRecompute)
              else r == Success(Hidden(out))
            else if returnIntermediate.None? then r == Success(Hidden(out))
            else if CapturedLayers(returnIntermediate.value, numLayers) == [] then r == Failure(NothingToStack)
            else r == Success(WithIntermediates(out, Captured(layer, x, returnIntermediate.value, numLayers)))
  {
    var h := hiddenStates;
    if !preProcess {
      h := inputTensor;
    }
    ghost var x := h;
    var intermediates: seq<H> := [];
    if recomputeFull && training {
      if returnIntermediate.Some? {
        return Failure(IntermediatesWithFullRecompute);
      }
      var l := 0;
      while l < numLayers
        invariant 0 <= l <= numLayers && h == ApplyLayers(layer, x, l)
      {
        h := layer(l, h);
        l := l + 1;
      }
    } else {
      var l := 0;
      while l < numLayers
        invariant 0 <= l <= numLayers && h == ApplyLayers(layer, x, l)
        invariant returnIntermediate.Some? ==> intermediates == Captured(layer, x, returnIntermediate.value, l)
        invariant returnIntermediate.Some? ==> |intermediates| == |CapturedLayers(returnIntermediate.value, l)|
        invariant returnIntermediate.None? ==> intermediates == []
      {
        if returnIntermediate.Some? && l in returnIntermediate.value {
          intermediates := intermediates + [h];
        }
        h := layer(l, h);
        l := l + 1;
      }
    }
    if finalLayernorm.Some? {
      h := finalLayernorm.value(h);
    }
    if returnIntermediate.Some? {
      if |intermediates| == 0 {
        return Failure(NothingToStack);
      }
      return Success(WithIntermediates(h, intermediates));
    }
    return Success(Hidden(h));
  }

  /** Entry `i` of the captured list is the input of the `i`-th captured layer. */
  lemma {:induction false} CapturedAreLayerInputs<H>(layer: (nat, H) -> H, x: H, ri: seq<int>, n: nat)
    ensures |Captured(layer, x, ri, n)| == |CapturedLayers(ri, n)|
    ensures forall i :: 0 <= i < |CapturedLayers(ri, n)| ==>
              Captured(layer, x, ri, n)[i] == ApplyLayers(layer, x, CapturedLayers(ri, n)[i])
  {
    if n > 0 {
      CapturedAreLayerInputs(layer, x, ri, n - 1);
    }
  }

  /** The elements of `ri` below `n`, kept in their order. */
  function TakeBelow(ri: seq<int>, n: int): seq<int>
  {
    if ri == [] then [] else (if ri[0] < n then [ri[0]] else []) + TakeBelow(ri[1..], n)
  }

  predicate StrictlyIncreasing(s: seq<int>)
  {
    forall i, j :: 0 <= i < j < |s| ==> s[i] < s[j]
  }

  lemma {:induction false} TakeBelowStep(ri: seq<int>, n: int)
    requires StrictlyIncreasing(ri)
    ensures TakeBelow(ri, n + 1) == TakeBelow(ri, n) + (if n in ri then [n] else [])
  {
    if ri != [] {
      IncreasingTail(ri);
      TakeBelowStep(ri[1..], n);
      if ri[0] == n {
        assert forall i :: 0 <= i < |ri[1..]| ==> ri[1..][i] == ri[i + 1] > n;
        TakeBelowNone(ri[1..], n);
        assert TakeBelow(ri, n + 1) == [n];
        assert TakeBelow(ri, n) == [];
      } else {
        InTail(ri, n);
      }
    }
  }

  lemma IncreasingTail(ri: seq<int>)
    requires StrictlyIncreasing(ri) && ri != []
    ensures StrictlyIncreasing(ri[1..])
  {
    forall i, j | 0 <= i < j < |ri[1..]|
      ensures ri[1..][i] < ri[1..][j]
    {
      assert ri[1..][i] == ri[i + 1] && ri[1..][j] == ri[j + 1];
    }
  }

  lemma InTail(ri: seq<int>, n: int)
    requires ri != [] && ri[0] != n
    ensures (n in ri) == (n in ri[1..])
  {
    assert ri == [ri[0]] + ri[1..];
  }

  lemma {:induction false} TakeBelowNone(ri: seq<int>, n: int)
    requires forall i :: 0 <= i < |ri| ==> ri[i] > n
    ensures TakeBelow(ri, n + 1) == [] && TakeBelow(ri, n) == []
  {
    if ri != [] {
      TakeBelowNone(ri[1..], n);
    }
  }

  lemma {:induction false} TakeBelowAll(ri: seq<int>, n: int)
    requires forall i :: 0 <= i < |ri| ==> ri[i] < n
    ensures TakeBelow(ri, n) == ri
  {
    if ri != [] {
      TakeBelowAll(ri[1..], n);
    }
  }

  lemma {:induction false} CapturedLayersOfSorted(ri: seq<int>, n: nat)
    requires StrictlyIncreasing(ri)
    requires forall i :: 0 <= i < |ri| ==> ri[i] >= 0
    ensures CapturedLayers(ri, n) == TakeBelow(ri, n)
  {
    if n == 0 {
      TakeBelowNone(ri, -1);
    } else {
      CapturedLayersOfSorted(ri, n - 1);
      TakeBelowStep(ri, n - 1);
      assert CapturedLayers(ri, n)
             == CapturedLayers(ri, n - 1) + (if n - 1 in ri then [n - 1] else []);
    }
  }

  /** When the requested layers are listed in increasing order and all exist,
      exactly those layers are captured, so the encoder output gains one
      feature block per listed layer. */
  lemma CapturedExactlyRequested(ri: seq<int>, n: nat)
    requires StrictlyIncreasing(ri)
    requires forall i :: 0 <= i < |ri| ==> 0 <= ri[i] < n
    ensures CapturedLayers(ri, n) == ri
  {
    CapturedLayersOfSorted(ri, n);
    TakeBelowAll(ri, n);
  }

  // ---------------------------------------------------------------------------
  // to_2tuple and the patch grid of VisionEncoder.__init__
  // ---------------------------------------------------------------------------

  /** A size argument: an int, or an iterable (kept as the list of its items). */
  datatype SizeArg = Scalar(n: int) | Iterable(items: seq<int>)

  function To2Tuple(x: SizeArg): (r: seq<int>)
    ensures x.Scalar? ==> r == [x.n, x.n]
    ensures x.Iterable? ==> r == x.items
  {
    match x
    case Scalar(n) => [n, n]
    case Iterable(items) => items
  }

  datatype Geometry = Geometry(grid0: int, grid1: int, positions: int)

  datatype GeometryError =
    | TooFewDims     // indexing `[1]` of a shorter iterable
    | ZeroPatch      // `//` by zero
    | NegativeRows   // `torch.randn` of a negative number of positional rows

  /** The grid is `image_size // patch_size` per axis and the positional
      embedding has one row per grid cell plus one for the class token. */
  function VisionGeometry(imageSize: SizeArg, patchSize: SizeArg): (r: Result<Geometry, GeometryError>)
    ensures var img, patch := To2Tuple(imageSize), To2Tuple(patchSize);
            r.Success? <==> |img| >= 2 && |patch| >= 2 && patch[0] != 0 && patch[1] != 0
                            && FloorDiv(img[0], patch[0]) * FloorDiv(img[1], patch[1]) + 1 >= 0
    ensures var img, patch := To2Tuple(imageSize), To2Tuple(patchSize);
            r.Success? ==> r.value.grid0 == FloorDiv(img[0], patch[0]) && r.value.grid1 == FloorDiv(img[1], patch[1])
    ensures r.Success? ==> r.value.positions == r.value.grid0 * r.value.grid1 + 1 && r.value.positions >= 0
    ensures var img, patch := To2Tuple(imageSize), To2Tuple(patchSize);
            r.Failure? ==> r.error == (if |img| < 1 || |patch| < 1 then TooFewDims
                                       else if patch[0] == 0 then ZeroPatch
                                       else if |img| < 2 || |patch| < 2 then TooFewDims
                                       else if patch[1] == 0 then ZeroPatch
                                       else NegativeRows)
  {
    // Python evaluates the first axis (both indexings, then `//`) before
    // it indexes the second one.
    var img, patch := To2Tuple(imageSize), To2Tuple(patchSize);
    if |img| < 1 || |patch| < 1 then Failure(TooFewDims)
    else if patch[0] == 0 then Failure(ZeroPatch)
    else if |img| < 2 || |patch| < 2 then Failure(TooFewDims)
    else if patch[1] == 0 then Failure(ZeroPatch)
    else
      var g0, g1 := FloorDiv(img[0], patch[0]), FloorDiv(img[1], patch[1]);
      if g0 * g1 + 1 < 0 then Failure(NegativeRows) else Success(Geometry(g0, g1, g0 * g1 + 1))
  }

  /** With square positive sizes the grid counts the whole patches that fit
      along each side. */
  lemma GridCountsWholePatches(image: int, patch: int)
    requires image >= 0 && patch > 0
    ensures var r := VisionGeometry(Scalar(image), Scalar(patch));
            && r.Success? && r.value.grid0 == r.value.grid1
            && r.value.grid0 * patch <= image < (r.value.grid0 + 1) * patch
  {
  }

  /** A zero first patch side is reported before a missing second entry:
      the first axis' `//` runs before either size is indexed at 1. */
  lemma ZeroFirstPatchSideComesFirst()
    ensures VisionGeometry(Iterable([5]), Iterable([0, 7])) == Failure(ZeroPatch)
    ensures VisionGeometry(Iterable([5, 5]), Iterable([0])) == Failure(ZeroPatch)
    ensures VisionGeometry(Iterable([5]), Iterable([2, 7])) == Failure(TooFewDims)
  {
  }

  /** The default encoder: 560-pixel chunks and 14-pixel patches give a 40 x 40
      grid and 1601 positional rows. */
  lemma DefaultGeometry()
    ensures VisionGeometry(Scalar(560), Scalar(14)) == Success(Geometry(40, 40, 1601))
  {
  }
}
