/** The LLaVA-NeXT task encoder: encoding one visual question answering sample
    (a next-token shift of tokens and labels, plus the processed image tiles)
    and collating encoded samples into a batch. The prompt template, the
    tokenizer, label and loss-mask computation, the image processor and
    energon's `batch_pad_stack` are parameters. */
module LlavaNext {
  import opened Wrappers
  import opened PyOps
  import LlamaVision

  /** One image tile as the processor returns it, flattened. */
  type Tile = seq<real>

  /** The parts of a `VQASample` the encoder reads. */
  datatype VqaSample = VqaSample(key: string, image: seq<real>, context: string, answers: string)

  /** The encoder's collaborators, whose behaviour is not shown. */
  datatype Processors = Processors(
    applyPromptTemplate: VqaSample -> string,
    tokenize: string -> seq<int>,
    computeLabels: (seq<int>, VqaSample) -> seq<int>,
    computeLossMask: seq<int> -> seq<real>,
    processImage: seq<real> -> seq<Tile>)

  class LlavaNextTextSample {
    var key: string
    var images: seq<Tile>
    var tokens: seq<int>
    var labels: seq<int>
    var lossMask: seq<real>
    var numMediaTiles: int

    /** A fresh output sample; `num_media_tiles` defaults to 0. */
    constructor ()
      ensures key == [] && images == [] && tokens == [] && labels == [] && lossMask == []
      ensures numMediaTiles == 0
    {
      key, images, tokens, labels, lossMask, numMediaTiles := [], [], [], [], [], 0;
    }
  }

  /** `tokens[:-1]` and `labels[1:]`: the input at position i is answered by
      the label of position i + 1. For equally long tokens and labels the two
      have one element fewer, and position i of each is aligned. */
  lemma NextTokenShift(tokens: seq<int>, labels: seq<int>)
    requires |tokens| == |labels|
    ensures |Slice(tokens, 0, -1)| == |Slice(labels, 1, |labels|)|
    ensures |tokens| > 0 ==> |Slice(tokens, 0, -1)| == |tokens| - 1
    ensures tokens == [] ==> Slice(tokens, 0, -1) == [] && Slice(labels, 1, |labels|) == []
    ensures forall i :: 0 <= i < |Slice(tokens, 0, -1)| ==>
              Slice(tokens, 0, -1)[i] == tokens[i] && Slice(labels, 1, |labels|)[i] == labels[i + 1]
  {
  }

  /** `LlavaNextSampleEncoder.encode`: fills `out` field by field and returns it. */
  method Encode(p: Processors, input: VqaSample, out: LlavaNextTextSample) returns (r: LlavaNextTextSample)
    modifies out
    ensures r == out
    ensures var tokens := p.tokenize(p.applyPromptTemplate(input));
            out.tokens == Slice(tokens, 0, -1)
            && out.labels == Slice(p.computeLabels(tokens, input), 1, |p.computeLabels(tokens, input)|)
    ensures out.lossMask == p.computeLossMask(out.labels)
    ensures out.key == input.key && out.images == p.processImage(input.image)
    ensures out.numMediaTiles == |out.images|
  {
    var prompt := p.applyPromptTemplate(input);
    var tokens := p.tokenize(prompt);
    var labels := p.computeLabels(tokens, input);
    tokens := Slice(tokens, 0, -1);
    labels := Slice(labels, 1, |labels|);
    var lossMask := p.computeLossMask(labels);
    var processedImage := p.processImage(input.image);
    out.key := input.key;
    out.images := processedImage;
    out.tokens := tokens;
    out.labels := labels;
    out.lossMask := lossMask;
    out.numMediaTiles := |processedImage|;
    r := out;
  }

  /** `pad_sequence(rows, batch_first=True)` with its padding value 0: every
      row is extended on the right to the longest row's length. */
  function PadSequence(rows: seq<seq<int>>): (r: seq<seq<int>>)
    requires |rows| > 0
    ensures |r| == |rows|
    ensures forall i :: 0 <= i < |rows| ==> |r[i]| == LlamaVision.MaxLen(rows)
    ensures forall i :: 0 <= i < |rows| ==> |rows[i]| <= |r[i]| && r[i][..|rows[i]|] == rows[i]
    ensures forall i, j :: 0 <= i < |rows| && |rows[i]| <= j < |r[i]| ==> r[i][j] == 0
  {
    var width := LlamaVision.MaxLen(rows);
    seq(|rows|, i requires 0 <= i < |rows| => rows[i] + seq(width - |rows[i]|, _ => 0))
  }

  /** Padding an already padded batch changes nothing. */
  lemma PadSequenceIdempotent(rows: seq<seq<int>>)
    requires |rows| > 0
    ensures PadSequence(PadSequence(rows)) == PadSequence(rows)
  {
    var padded := PadSequence(rows);
    var width := LlamaVision.MaxLen(rows);
    assert LlamaVision.MaxLen(padded) == width;
    forall i | 0 <= i < |rows|
      ensures PadSequence(padded)[i] == padded[i]
    {
      assert PadSequence(padded)[i][..|padded[i]|] == padded[i];
    }
  }

  /** A batch whose rows are all as long already comes back unchanged. */
  lemma PadSequenceOfEqualLengths(rows: seq<seq<int>>, width: nat)
    requires |rows| > 0 && forall i :: 0 <= i < |rows| ==> |rows[i]| == width
    ensures PadSequence(rows) == rows
  {
    assert LlamaVision.MaxLen(rows) == width;
    forall i | 0 <= i < |rows|
      ensures PadSequence(rows)[i] == rows[i]
    {
      assert PadSequence(rows)[i][..|rows[i]|] == rows[i];
    }
  }

  /** `torch.cat(images, dim=0)`: the tiles of every sample, in sample order. */
  function ConcatTiles(images: seq<seq<Tile>>): seq<Tile>
  {
    if images == [] then [] else ConcatTiles(images[..|images| - 1]) + images[|images| - 1]
  }

  function SumInts(xs: seq<int>): int
  {
    if xs == [] then 0 else SumInts(xs[..|xs| - 1]) + xs[|xs| - 1]
  }

  /** When every tile count is its sample's number of tiles, as `encode` sets
      it, the concatenated images hold as many tiles as the counts add up to. */
  lemma {:induction false} TileCountsAddUp(images: seq<seq<Tile>>, counts: seq<int>)
    requires |images| == |counts|
    requires forall i :: 0 <= i < |images| ==> counts[i] == |images[i]|
    ensures |ConcatTiles(images)| == SumInts(counts)
  {
    if images != [] {
      TileCountsAddUp(images[..|images| - 1], counts[..|counts| - 1]);
    }
  }

  /** Tile `j` of sample `i` sits after the tiles of the samples before it. */
  lemma {:induction false} ConcatTilesPlacesSamples(images: seq<seq<Tile>>, i: nat, j: nat)
    requires i < |images| && j < |images[i]|
    ensures |ConcatTiles(images[..i])| + j < |ConcatTiles(images)|
    ensures ConcatTiles(images)[|ConcatTiles(images[..i])| + j] == images[i][j]
    decreases |images|
  {
    var n := |images| - 1;
    assert images[..n][..i] == images[..i] by {
      if i < n { }
    }
    if i < n {
      ConcatTilesPlacesSamples(images[..n], i, j);
      LengthOfConcatTilesPrefix(images, i);
    } else {
      assert images[..i] == images[..n];
    }
  }

  lemma LengthOfConcatTilesPrefix(images: seq<seq<Tile>>, i: nat)
    requires i < |images| - 1
    ensures |ConcatTiles(images[..|images| - 1][..i + 1])| <= |ConcatTiles(images[..|images| - 1])|
    ensures ConcatTiles(images)[..|ConcatTiles(images[..|images| - 1])|] == ConcatTiles(images[..|images| - 1])
  {
    ConcatTilesPrefixShorter(images[..|images| - 1], i + 1);
  }

  lemma {:induction false} ConcatTilesPrefixShorter(images: seq<seq<Tile>>, k: nat)
    requires k <= |images|
    ensures |ConcatTiles(images[..k])| <= |ConcatTiles(images)|
    decreases |images|
  {
    if k < |images| {
      var n := |images| - 1;
      assert images[..n][..k] == images[..k];
      ConcatTilesPrefixShorter(images[..n], k);
    } else {
      assert images[..k] == images;
    }
  }

  /** The collated batch. */
  datatype RawBatch = RawBatch(
    keys: seq<string>,
    images: seq<Tile>,
    tokens: seq<seq<int>>,
    labels: seq<seq<int>>,
    lossMask: seq<seq<real>>,
    numMediaTiles: seq<int>)

  /** `torch.cat` of an empty list raises. */
  datatype BatchError = EmptyBatch

  function ImageLists(samples: seq<LlavaNextTextSample>): (r: seq<seq<Tile>>)
    reads samples
    ensures |r| == |samples| && forall i :: 0 <= i < |samples| ==> r[i] == samples[i].images
  {
    if samples == [] then [] else ImageLists(samples[..|samples| - 1]) + [samples[|samples| - 1].images]
  }

  function TokenRows(samples: seq<LlavaNextTextSample>): (r: seq<seq<int>>)
    reads samples
    ensures |r| == |samples| && forall i :: 0 <= i < |samples| ==> r[i] == samples[i].tokens
  {
    if samples == [] then [] else TokenRows(samples[..|samples| - 1]) + [samples[|samples| - 1].tokens]
  }

  function LabelRows(samples: seq<LlavaNextTextSample>): (r: seq<seq<int>>)
    reads samples
    ensures |r| == |samples| && forall i :: 0 <= i < |samples| ==> r[i] == samples[i].labels
  {
    if samples == [] then [] else LabelRows(samples[..|samples| - 1]) + [samples[|samples| - 1].labels]
  }

  function LossMaskRows(samples: seq<LlavaNextTextSample>): (r: seq<seq<real>>)
    reads samples
    ensures |r| == |samples| && forall i :: 0 <= i < |samples| ==> r[i] == samples[i].lossMask
  {
    if samples == [] then [] else LossMaskRows(samples[..|samples| - 1]) + [samples[|samples| - 1].lossMask]
  }

  /** `LlavaNextTaskEncoder.batch`: collects the six fields in sample order,
      then concatenates the images, pads tokens and labels and stacks the loss
      masks with `padStack`. */
  method Batch(samples: seq<LlavaNextTextSample>, padStack: seq<seq<real>> -> seq<seq<real>>)
    returns (r: Result<RawBatch, BatchError>)
    ensures r.Failure? <==> samples == []
    ensures r.Success? ==>
              |r.value.keys| == |samples| && (forall i :: 0 <= i < |samples| ==> r.value.keys[i] == samples[i].key)
              && |r.value.numMediaTiles| == |samples|
              && (forall i :: 0 <= i < |samples| ==> r.value.numMediaTiles[i] == samples[i].numMediaTiles)
    ensures r.Success? ==>
              r.value.images == ConcatTiles(ImageLists(samples))
              && r.value.tokens == PadSequence(TokenRows(samples))
              && r.value.labels == PadSequence(LabelRows(samples))
              && r.value.lossMask == padStack(LossMaskRows(samples))
  {
    var keys, images, tokens, labels, lossMask, numMediaTiles := [], [], [], [], [], [];
    for i := 0 to |samples|
      invariant |keys| == i && forall j :: 0 <= j < i ==> keys[j] == samples[j].key
      invariant |numMediaTiles| == i && forall j :: 0 <= j < i ==> numMediaTiles[j] == samples[j].numMediaTiles
      invariant images == ImageLists(samples[..i]) && tokens == TokenRows(samples[..i])
      invariant labels == LabelRows(samples[..i]) && lossMask == LossMaskRows(samples[..i])
    {
      assert samples[..i + 1][..i] == samples[..i];
      keys := keys + [samples[i].key];
      images := images + [samples[i].images];
      tokens := tokens + [samples[i].tokens];
      labels := labels + [samples[i].labels];
      lossMask := lossMask + [samples[i].lossMask];
      numMediaTiles := numMediaTiles + [samples[i].numMediaTiles];
    }
    assert samples[..|samples|] == samples;
    if images == [] {
      return Failure(EmptyBatch);
    }
    var batchImages := ConcatTiles(images);
    var batchTokens := PadSequence(tokens);
    var batchLabels := PadSequence(labels);
    var batchLossMask := padStack(lossMask);
    r := Success(RawBatch(keys, batchImages, batchTokens, batchLabels, batchLossMask, numMediaTiles));
  }
}
