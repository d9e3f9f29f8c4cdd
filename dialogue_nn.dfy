/** `DialogueNearestNeighbourDataset`: the examples for zero-shot intent
    recognition with a nearest-neighbour model. Each dialogue turn becomes the
    utterance followed by one prompt sentence per candidate intent, labelled
    -1 for the utterance and 1 or 0 for whether the candidate is the gold
    intent. The tokenizer is a parameter. */
module DialogueNearestNeighbour {
  import opened Wrappers

  /** The `data` of one raw feature: `utterance`, `labels["intent"]` and
      `possible_labels["intent"]`. */
  datatype DialogExample = DialogExample(utterance: string, intent: string, possibleIntents: seq<string>)

  datatype Config = Config(promptTemplate: string, maxSeqLength: int)

  /** The `input_ids` and `attention_mask` of a tokenizer output. */
  datatype Encoding = Encoding(inputIds: seq<seq<int>>, attentionMask: seq<seq<int>>)

  /** The tokenizer called on a list of sentences with `max_length`. */
  type Tokenizer = (seq<string>, int) -> Encoding

  datatype Example = Example(encoding: Encoding, labels: seq<int>)

  /** What `__getitem__` returns: input ids, attention mask and labels. */
  datatype Item = Item(inputIds: seq<seq<int>>, attentionMask: seq<seq<int>>, labels: seq<int>)

  datatype IndexError = IndexError

  /** `"{} {}".format(prompt_template, candidate_intent)`. */
  function PromptSentence(template: string, candidate: string): (t: string)
    ensures |t| == |template| + 1 + |candidate|
    ensures t[..|template|] == template && t[|template|] == ' ' && t[|template| + 1..] == candidate
  {
    template + " " + candidate
  }

  /** The sentences of one example: the utterance, then a prompt sentence per
      candidate. */
  function Sentences(ex: DialogExample, template: string): seq<string>
  {
    [ex.utterance] + seq(|ex.possibleIntents|, i requires 0 <= i < |ex.possibleIntents| =>
                           PromptSentence(template, ex.possibleIntents[i]))
  }

  function CandidateLabel(candidate: string, intent: string): int
  {
    if candidate == intent then 1 else 0
  }

  /** The labels of one example: -1 for the utterance, then one per candidate. */
  function Labels(ex: DialogExample): seq<int>
  {
    [-1] + seq(|ex.possibleIntents|, i requires 0 <= i < |ex.possibleIntents| =>
                 CandidateLabel(ex.possibleIntents[i], ex.intent))
  }

  function ExampleOf(ex: DialogExample, cfg: Config, tokenizer: Tokenizer): Example
  {
    Example(tokenizer(Sentences(ex, cfg.promptTemplate), cfg.maxSeqLength), Labels(ex))
  }

  /** Sentence 0 is the utterance and sentence i+1 is the prompt template, a
      space and candidate i; there is one label per sentence. */
  lemma SentencesLayout(ex: DialogExample, template: string)
    ensures |Sentences(ex, template)| == |Labels(ex)| == |ex.possibleIntents| + 1
    ensures Sentences(ex, template)[0] == ex.utterance
    ensures forall i :: 0 <= i < |ex.possibleIntents| ==>
              Sentences(ex, template)[i + 1] == template + " " + ex.possibleIntents[i]
  {
  }

  /** The utterance is labelled -1 and a candidate 1 exactly when it is the
      gold intent, 0 otherwise. */
  lemma LabelsMarkGoldIntent(ex: DialogExample)
    ensures Labels(ex)[0] == -1
    ensures forall i :: 0 <= i < |ex.possibleIntents| ==>
              (Labels(ex)[i + 1] == 1 <==> ex.possibleIntents[i] == ex.intent)
    ensures forall i :: 0 <= i < |ex.possibleIntents| ==>
              (Labels(ex)[i + 1] == 0 <==> ex.possibleIntents[i] != ex.intent)
  {
  }

  function Count<T(==)>(s: seq<T>, x: T): nat
  {
    if s == [] then 0 else (if s[0] == x then 1 else 0) + Count(s[1..], x)
  }

  /** There are as many positive labels as there are occurrences of the gold
      intent among the candidates; in particular exactly one when it occurs
      once. */
  lemma {:induction false} PositiveLabelsCountGold(ex: DialogExample)
    ensures Count(Labels(ex)[1..], 1) == Count(ex.possibleIntents, ex.intent)
    decreases |ex.possibleIntents|
  {
    var cs := ex.possibleIntents;
    if cs != [] {
      var rest := ex.(possibleIntents := cs[1..]);
      PositiveLabelsCountGold(rest);
      assert Labels(ex)[1..][1..] == Labels(rest)[1..];
    }
  }

  class DialogueNearestNeighbourDataset {
    const cfg: Config
    const tokenizer: Tokenizer
    const rawFeatures: seq<DialogExample>
    var examples: seq<Example>

    /** One example per raw feature, in order. */
    ghost predicate Valid()
      reads this
    {
      |examples| == |rawFeatures|
      && forall i :: 0 <= i < |rawFeatures| ==> examples[i] == ExampleOf(rawFeatures[i], cfg, tokenizer)
    }

    /** `__init__`, with `dialogues_processor.get_dialog_examples(dataset_split)`
        already read into `rawFeatures`. */
    constructor (rawFeatures: seq<DialogExample>, tokenizer: Tokenizer, cfg: Config)
      ensures this.rawFeatures == rawFeatures && this.tokenizer == tokenizer && this.cfg == cfg
      ensures Valid()
    {
      this.cfg := cfg;
      this.tokenizer := tokenizer;
      this.rawFeatures := rawFeatures;
      new;
      var r := CreateExamples(rawFeatures);
      examples := r.value;
    }

    /** The sentences and labels of one raw feature, candidate by candidate. */
    method EncodeFeature(ex: DialogExample) returns (e: Example)
      ensures e == ExampleOf(ex, cfg, tokenizer)
    {
      var sentences := [ex.utterance];
      var labels := [-1];
      var candidates := ex.possibleIntents;
      for j := 0 to |candidates|
        invariant sentences == Sentences(ex.(possibleIntents := candidates[..j]), cfg.promptTemplate)
        invariant labels == Labels(ex.(possibleIntents := candidates[..j]))
      {
        var textB := PromptSentence(cfg.promptTemplate, candidates[j]);
        var labelJ := if candidates[j] == ex.intent then 1 else 0;
        labels := labels + [labelJ];
        sentences := sentences + [textB];
        assert candidates[..j + 1] == candidates[..j] + [candidates[j]];
      }
      assert candidates[..|candidates|] == candidates;
      e := Example(tokenizer(sentences, cfg.maxSeqLength), labels);
    }

    /** `_create_examples(raw)`: the argument only sets how many examples are
        built; example `idx` is read from `self.raw_features[idx]`, which
        raises `IndexError` once `raw` is longer than the stored features. */
    method CreateExamples(raw: seq<DialogExample>) returns (r: Result<seq<Example>, IndexError>)
      ensures r.Failure? <==> |raw| > |rawFeatures|
      ensures r.Success? ==> |r.value| == |raw|
      ensures r.Success? ==> forall i :: 0 <= i < |raw| ==> r.value[i] == ExampleOf(rawFeatures[i], cfg, tokenizer)
    {
      var exs := [];
      for idx := 0 to |raw|
        invariant |exs| == idx && idx <= |rawFeatures|
        invariant forall i :: 0 <= i < idx ==> exs[i] == ExampleOf(rawFeatures[i], cfg, tokenizer)
      {
        if idx >= |rawFeatures| {
          return Failure(IndexError);
        }
        var e := EncodeFeature(rawFeatures[idx]);
        exs := exs + [e];
      }
      r := Success(exs);
    }

    /** `__len__`: the number of raw features. */
    function Length(): (n: nat)
      reads this
      ensures Valid() ==> n == |rawFeatures|
    {
      |examples|
    }

    /** `__getitem__`, with Python's negative indices and `IndexError`. */
    function GetItem(idx: int): (r: Result<Item, IndexError>)
      reads this
      ensures r.Success? <==> -|examples| <= idx < |examples|
      ensures r.Success? && Valid() ==>
                var k := if idx < 0 then idx + |rawFeatures| else idx;
                r.value.inputIds == ExampleOf(rawFeatures[k], cfg, tokenizer).encoding.inputIds
                && r.value.attentionMask == ExampleOf(rawFeatures[k], cfg, tokenizer).encoding.attentionMask
                && r.value.labels == Labels(rawFeatures[k])
    {
      if idx < -|examples| || idx >= |examples| then Failure(IndexError)
      else
        var e := examples[if idx < 0 then idx + |examples| else idx];
        Success(Item(e.encoding.inputIds, e.encoding.attentionMask, e.labels))
    }
  }
}
