/** `HFInternVitImporter.convert_state`: the choice of the key mapping handed
    to `io.apply_transforms`, made from the key set of the target's state
    dict. The transfer of the tensors themselves is not part of this model. */
module InternVit {
  import opened Wrappers

  /** `convert_state` raises `KeyError` with one of two messages. */
  datatype KeyError = UnmappedProjection | UnmappedEncoder

  /** The arguments `convert_state` passes to `io.apply_transforms`. */
  datatype ApplyTransforms = ApplyTransforms(mapping: map<string, string>, transforms: seq<string>)

  const LanguageModel: map<string, string> := map[
    "language_model.model.embed_tokens.weight" := "language_model.embedding.word_embeddings.weight",
    "language_model.model.layers.*.self_attn.o_proj.weight" := "language_model.decoder.layers.*.self_attention.linear_proj.weight",
    "language_model.model.layers.*.mlp.down_proj.weight" := "language_model.decoder.layers.*.mlp.linear_fc2.weight",
    "language_model.model.layers.*.input_layernorm.weight" := "language_model.decoder.layers.*.self_attention.linear_qkv.layer_norm_weight",
    "language_model.model.layers.*.post_attention_layernorm.weight" := "language_model.decoder.layers.*.mlp.linear_fc1.layer_norm_weight",
    "language_model.model.norm.weight" := "language_model.decoder.final_layernorm.weight",
    "language_model.lm_head.weight" := "language_model.output_layer.weight"
  ]

  /** A projector of the `encoder.linear_fc*` form is recognised by this key. */
  const EncoderProjectorKey := "vision_projection.encoder.linear_fc1.weight"
  /** A sequential projector is recognised by this key. */
  const SequentialProjectorKey := "vision_projection.0.weight"

  const EncoderProjector: map<string, string> := map[
    "multi_modal_projector.linear_1.weight" := "vision_projection.encoder.linear_fc1.weight",
    "multi_modal_projector.linear_1.bias" := "vision_projection.encoder.linear_fc1.bias",
    "multi_modal_projector.linear_2.weight" := "vision_projection.encoder.linear_fc2.weight",
    "multi_modal_projector.linear_2.bias" := "vision_projection.encoder.linear_fc2.bias"
  ]

  const SequentialProjector: map<string, string> := map[
    "multi_modal_projector.linear_1.weight" := "vision_projection.0.weight",
    "multi_modal_projector.linear_1.bias" := "vision_projection.0.bias",
    "multi_modal_projector.linear_2.weight" := "vision_projection.2.weight",
    "multi_modal_projector.linear_2.bias" := "vision_projection.2.bias"
  ]

  const ImageNewline: map<string, string> := map["image_newline" := "image_newline"]

  /** An InternViT encoder is recognised by this key. */
  const ClassEmbeddingKey := "vision_model.vision_model.embeddings.class_embedding"
  /** A CLIP-style encoder is recognised by this key. */
  const ClassTokenKey := "vision_model.class_token"

  /** The single wildcard entry that carries the whole InternViT tower over. */
  const WildcardEncoder: map<string, string> := map["vision_tower.vision_model.**" := "vision_model.vision_model.**"]

  const ExplicitEncoder: map<string, string> := map[
    "vision_tower.vision_model.embeddings.patch_embedding.weight" := "vision_model.conv1.weight",
    "vision_tower.vision_model.embeddings.position_embedding.weight" := "vision_model.position_embeddings.weight",
    "vision_tower.vision_model.encoder.layers.*.layer_norm1.weight" := "vision_model.decoder.layers.*.self_attention.linear_qkv.layer_norm_weight",
    "vision_tower.vision_model.encoder.layers.*.layer_norm1.bias" := "vision_model.decoder.layers.*.self_attention.linear_qkv.layer_norm_bias",
    "vision_tower.vision_model.encoder.layers.*.layer_norm2.weight" := "vision_model.decoder.layers.*.mlp.linear_fc1.layer_norm_weight",
    "vision_tower.vision_model.encoder.layers.*.layer_norm2.bias" := "vision_model.decoder.layers.*.mlp.linear_fc1.layer_norm_bias",
    "vision_tower.vision_model.encoder.layers.*.self_attn.out_proj.weight" := "vision_model.decoder.layers.*.self_attention.linear_proj.weight",
    "vision_tower.vision_model.encoder.layers.*.self_attn.out_proj.bias" := "vision_model.decoder.layers.*.self_attention.linear_proj.bias",
    "vision_tower.vision_model.encoder.layers.*.mlp.fc1.weight" := "vision_model.decoder.layers.*.mlp.linear_fc1.weight",
    "vision_tower.vision_model.encoder.layers.*.mlp.fc1.bias" := "vision_model.decoder.layers.*.mlp.linear_fc1.bias",
    "vision_tower.vision_model.encoder.layers.*.mlp.fc2.weight" := "vision_model.decoder.layers.*.mlp.linear_fc2.weight",
    "vision_tower.vision_model.encoder.layers.*.mlp.fc2.bias" := "vision_model.decoder.layers.*.mlp.linear_fc2.bias",
    "vision_tower.vision_model.pre_layrnorm.weight" := "vision_model.ln_pre.weight",
    "vision_tower.vision_model.pre_layrnorm.bias" := "vision_model.ln_pre.bias"
  ]

  lemma LanguageModelKeysApart()
    ensures LanguageModel.Keys !! EncoderProjector.Keys && LanguageModel.Keys !! SequentialProjector.Keys
    ensures LanguageModel.Keys !! ImageNewline.Keys && LanguageModel.Keys !! WildcardEncoder.Keys
  {
    LanguageModelKeysApartFromProjector();
    ProjectorKeysAgree();
  }

  lemma LanguageModelKeysApartFromProjector()
    ensures LanguageModel.Keys !! EncoderProjector.Keys
  {
  }

  lemma LanguageModelKeysApartFromExplicit()
    ensures LanguageModel.Keys !! ExplicitEncoder.Keys
  {
  }

  lemma ProjectorKeysApart()
    ensures EncoderProjector.Keys == SequentialProjector.Keys
    ensures EncoderProjector.Keys !! ImageNewline.Keys && EncoderProjector.Keys !! WildcardEncoder.Keys
    ensures EncoderProjector.Keys !! ExplicitEncoder.Keys
  {
    ProjectorKeysAgree();
    ProjectorKeysApartFromExplicit();
  }

  lemma ProjectorKeysAgree()
    ensures EncoderProjector.Keys == SequentialProjector.Keys
  {
  }

  lemma ProjectorKeysApartFromExplicit()
    ensures EncoderProjector.Keys !! ExplicitEncoder.Keys
  {
  }

  lemma EncoderKeysApart()
    ensures ImageNewline.Keys !! WildcardEncoder.Keys && ImageNewline.Keys !! ExplicitEncoder.Keys
    ensures WildcardEncoder.Keys !! ExplicitEncoder.Keys
  {
  }

  /** The groups of entries come from different parts of the source
      checkpoint, so no later `update` overwrites an earlier group. */
  lemma GroupsAreDisjoint()
    ensures LanguageModel.Keys !! EncoderProjector.Keys && LanguageModel.Keys !! SequentialProjector.Keys
    ensures LanguageModel.Keys !! ImageNewline.Keys && LanguageModel.Keys !! WildcardEncoder.Keys
    ensures LanguageModel.Keys !! ExplicitEncoder.Keys
    ensures EncoderProjector.Keys == SequentialProjector.Keys
    ensures EncoderProjector.Keys !! ImageNewline.Keys && EncoderProjector.Keys !! WildcardEncoder.Keys
    ensures EncoderProjector.Keys !! ExplicitEncoder.Keys
    ensures ImageNewline.Keys !! WildcardEncoder.Keys && ImageNewline.Keys !! ExplicitEncoder.Keys
    ensures WildcardEncoder.Keys !! ExplicitEncoder.Keys
  {
    LanguageModelKeysApart();
    LanguageModelKeysApartFromExplicit();
    ProjectorKeysApart();
    EncoderKeysApart();
  }

  /** The projector entries, chosen by the first recognised key. */
  function Projector(keys: set<string>): (r: Option<map<string, string>>)
    ensures r.None? <==> EncoderProjectorKey !in keys && SequentialProjectorKey !in keys
    ensures EncoderProjectorKey in keys ==> r == Some(EncoderProjector)
    ensures EncoderProjectorKey !in keys && SequentialProjectorKey in keys ==> r == Some(SequentialProjector)
  {
    if EncoderProjectorKey in keys then Some(EncoderProjector)
    else if SequentialProjectorKey in keys then Some(SequentialProjector)
    else None
  }

  /** The encoder entries, chosen by the first recognised key. */
  function Encoder(keys: set<string>): (r: Option<map<string, string>>)
    ensures r.None? <==> ClassEmbeddingKey !in keys && ClassTokenKey !in keys
    ensures ClassEmbeddingKey in keys ==> r == Some(WildcardEncoder)
    ensures ClassEmbeddingKey !in keys && ClassTokenKey in keys ==> r == Some(ExplicitEncoder)
  {
    if ClassEmbeddingKey in keys then Some(WildcardEncoder)
    else if ClassTokenKey in keys then Some(ExplicitEncoder)
    else None
  }

  /** What `convert_state` hands to `io.apply_transforms`, or the `KeyError`
      it raises; the projector is checked first. */
  function MappingFor(keys: set<string>, imageNewline: bool): (r: Result<ApplyTransforms, KeyError>)
    ensures r == Failure(UnmappedProjection) <==> Projector(keys).None?
    ensures r == Failure(UnmappedEncoder) <==> Projector(keys).Some? && Encoder(keys).None?
    ensures r.Success? ==> r.value.transforms == []
  {
    var proj := Projector(keys);
    var enc := Encoder(keys);
    if proj.None? then Failure(UnmappedProjection)
    else if enc.None? then Failure(UnmappedEncoder)
    else
      var withProjector := LanguageModel + proj.value;
      var withNewline := if imageNewline then withProjector + ImageNewline else withProjector;
      Success(ApplyTransforms(withNewline + enc.value, []))
  }

  /** The seven language-model entries are always in the mapping, unchanged. */
  lemma LanguageModelEntriesKept(keys: set<string>, imageNewline: bool, k: string)
    requires MappingFor(keys, imageNewline).Success? && k in LanguageModel
    ensures k in MappingFor(keys, imageNewline).value.mapping
    ensures MappingFor(keys, imageNewline).value.mapping[k] == LanguageModel[k]
  {
    GroupsAreDisjoint();
  }

  /** The projector entries come from the encoder-style mapping whenever its
      key is present, even if the sequential key is present too. */
  lemma ProjectorEntries(keys: set<string>, imageNewline: bool, k: string)
    requires MappingFor(keys, imageNewline).Success? && k in EncoderProjector
    ensures k in MappingFor(keys, imageNewline).value.mapping
    ensures MappingFor(keys, imageNewline).value.mapping[k]
            == if EncoderProjectorKey in keys then EncoderProjector[k] else SequentialProjector[k]
  {
    GroupsAreDisjoint();
    assert k in SequentialProjector;
  }

  /** `image_newline=True` adds the identity entry, and only then is it there. */
  lemma ImageNewlineEntry(keys: set<string>, imageNewline: bool)
    requires MappingFor(keys, imageNewline).Success?
    ensures "image_newline" in MappingFor(keys, imageNewline).value.mapping <==> imageNewline
    ensures imageNewline ==> MappingFor(keys, imageNewline).value.mapping["image_newline"] == "image_newline"
  {
    LanguageModelKeysApart();
    ProjectorKeysApart();
    EncoderKeysApart();
    var proj, enc := Projector(keys).value, Encoder(keys).value;
    assert "image_newline" in ImageNewline;
    assert "image_newline" !in LanguageModel + proj;
    assert "image_newline" !in enc;
  }

  /** The InternViT encoder gets the one wildcard entry and none of the
      explicit ones; the CLIP-style encoder gets the explicit entries and no
      wildcard. */
  lemma EncoderEntries(keys: set<string>, imageNewline: bool)
    requires MappingFor(keys, imageNewline).Success?
    ensures var m := MappingFor(keys, imageNewline).value.mapping;
            ClassEmbeddingKey in keys ==>
              m["vision_tower.vision_model.**"] == "vision_model.vision_model.**"
              && forall k :: k in ExplicitEncoder ==> k !in m
    ensures var m := MappingFor(keys, imageNewline).value.mapping;
            ClassEmbeddingKey !in keys ==>
              "vision_tower.vision_model.**" !in m
              && forall k :: k in ExplicitEncoder ==> k in m && m[k] == ExplicitEncoder[k]
  {
    if ClassEmbeddingKey in keys {
      WildcardEncoderEntries(keys, imageNewline);
    } else {
      ExplicitEncoderEntries(keys, imageNewline);
    }
  }

  lemma WildcardEncoderEntries(keys: set<string>, imageNewline: bool)
    requires MappingFor(keys, imageNewline).Success? && ClassEmbeddingKey in keys
    ensures var m := MappingFor(keys, imageNewline).value.mapping;
            m["vision_tower.vision_model.**"] == "vision_model.vision_model.**"
            && forall k :: k in ExplicitEncoder ==> k !in m
  {
    var base := BeforeEncoder(keys, imageNewline);
    ExplicitApartFromBase(keys, imageNewline);
    EncoderKeysApart();
    UnionAvoids(base, WildcardEncoder, MappingFor(keys, imageNewline).value.mapping, ExplicitEncoder);
  }

  lemma ExplicitEncoderEntries(keys: set<string>, imageNewline: bool)
    requires MappingFor(keys, imageNewline).Success? && ClassEmbeddingKey !in keys
    ensures var m := MappingFor(keys, imageNewline).value.mapping;
            "vision_tower.vision_model.**" !in m
            && forall k :: k in ExplicitEncoder ==> k in m && m[k] == ExplicitEncoder[k]
  {
    var base := BeforeEncoder(keys, imageNewline);
    WildcardApartFromBase(keys, imageNewline);
    EncoderKeysApart();
    assert "vision_tower.vision_model.**" in WildcardEncoder;
    UnionAvoids(base, ExplicitEncoder, MappingFor(keys, imageNewline).value.mapping, WildcardEncoder);
  }

  /** The mapping before the encoder entries are added. */
  function BeforeEncoder(keys: set<string>, imageNewline: bool): (w: map<string, string>)
    requires Projector(keys).Some?
    ensures Encoder(keys).Some? ==> MappingFor(keys, imageNewline).value.mapping == w + Encoder(keys).value
  {
    var withProjector := LanguageModel + Projector(keys).value;
    if imageNewline then withProjector + ImageNewline else withProjector
  }

  lemma ExplicitApartFromBase(keys: set<string>, imageNewline: bool)
    requires Projector(keys).Some?
    ensures ExplicitEncoder.Keys !! BeforeEncoder(keys, imageNewline).Keys
  {
    GroupsAreDisjoint();
  }

  lemma WildcardApartFromBase(keys: set<string>, imageNewline: bool)
    requires Projector(keys).Some?
    ensures WildcardEncoder.Keys !! BeforeEncoder(keys, imageNewline).Keys
  {
    GroupsAreDisjoint();
  }

  /** Adding `e` to `w` keeps every entry of `e` and brings in no key of
      `other` when `other` shares no key with either. */
  lemma UnionAvoids(w: map<string, string>, e: map<string, string>, m: map<string, string>,
                    other: map<string, string>)
    requires m == w + e && other.Keys !! w.Keys && other.Keys !! e.Keys
    ensures forall k :: k in e ==> k in m && m[k] == e[k]
    ensures forall k :: k in other ==> k !in m
  {
  }

  /** `convert_state`: builds the mapping with successive `update`s. */
  method ConvertState(keys: set<string>, imageNewline: bool) returns (r: Result<ApplyTransforms, KeyError>)
    ensures r == MappingFor(keys, imageNewline)
  {
    var mapping := LanguageModel;
    if EncoderProjectorKey in keys {
      mapping := mapping + EncoderProjector;
    } else if SequentialProjectorKey in keys {
      mapping := mapping + SequentialProjector;
    } else {
      return Failure(UnmappedProjection);
    }
    if imageNewline {
      mapping := mapping + ImageNewline;
    }
    if ClassEmbeddingKey in keys {
      mapping := mapping + WildcardEncoder;
    } else if ClassTokenKey in keys {
      mapping := mapping + ExplicitEncoder;
    } else {
      return Failure(UnmappedEncoder);
    }
    r := Success(ApplyTransforms(mapping, []));
  }
}
