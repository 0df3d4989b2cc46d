/**
 * Greedy decoding with a key/value cache.  The model graphs are parameters; what is
 * modelled is how the server threads tokens and caches through them.
 */
module Decoding {
  import opened Records
  import opened Tensors
  import Decimals

  const DECODER_START_TOKEN_ID: int := 2
  const EOS_TOKEN_ID: int := 2
  const DECODER_LAYERS: nat := 6

  datatype CacheKind = DecoderKey | DecoderValue | EncoderKey | EncoderValue

  /** A cache tensor of one layer; the graphs know it by its printed name. */
  datatype Slot = Slot(layer: nat, kind: CacheKind)

  function Suffix(kind: CacheKind): string {
    match kind
    case DecoderKey => "decoder.key"
    case DecoderValue => "decoder.value"
    case EncoderKey => "encoder.key"
    case EncoderValue => "encoder.value"
  }

  function PresentName(slot: Slot): string {
    "present." + Decimals.Decimal(slot.layer) + "." + Suffix(slot.kind)
  }

  function PastName(slot: Slot): string {
    "past_key_values." + Decimals.Decimal(slot.layer) + "." + Suffix(slot.kind)
  }

  /** What a graph run yields: the logits and the `present` tensors, by slot. */
  datatype Outputs = Outputs(logits: Option<Tensor>, present: map<Slot, Tensor>)

  /** The three graphs the loop calls; None is a failed run. */
  datatype Graphs = Graphs(
    embed: seq<int> -> Option<Tensor>,
    decoder: (Tensor, Tensor) -> Option<Outputs>,
    merged: (Tensor, Tensor, map<Slot, Tensor>) -> Option<Outputs>)

  datatype LayerCache = LayerCache(decoderKey: Tensor, decoderValue: Tensor, encoderKey: Tensor, encoderValue: Tensor)

  function Entry(layer: LayerCache, kind: CacheKind): Tensor {
    match kind
    case DecoderKey => layer.decoderKey
    case DecoderValue => layer.decoderValue
    case EncoderKey => layer.encoderKey
    case EncoderValue => layer.encoderValue
  }

  datatype DecoderRun = DecoderRun(logits: Tensor, cache: seq<LayerCache>)

  predicate HasLayer(present: map<Slot, Tensor>, layer: nat) {
    && Slot(layer, DecoderKey) in present && Slot(layer, DecoderValue) in present
    && Slot(layer, EncoderKey) in present && Slot(layer, EncoderValue) in present
  }

  predicate HasDecoderLayer(present: map<Slot, Tensor>, layer: nat) {
    Slot(layer, DecoderKey) in present && Slot(layer, DecoderValue) in present
  }

  function LayerOf(present: map<Slot, Tensor>, layer: nat): LayerCache
    requires HasLayer(present, layer)
  {
    LayerCache(present[Slot(layer, DecoderKey)], present[Slot(layer, DecoderValue)],
               present[Slot(layer, EncoderKey)], present[Slot(layer, EncoderValue)])
  }

  lemma LayersMirror(layers: seq<LayerCache>, present: map<Slot, Tensor>)
    requires |layers| == DECODER_LAYERS
    requires forall k :: 0 <= k < |layers| ==> HasLayer(present, k) && layers[k] == LayerOf(present, k)
    ensures Mirrors(layers, present)
  {
    forall layer, kind | 0 <= layer < DECODER_LAYERS
      ensures Slot(layer, kind) in present && Entry(layers[layer], kind) == present[Slot(layer, kind)]
    {
      assert HasLayer(present, layer);
      match kind
      case DecoderKey =>
      case DecoderValue =>
      case EncoderKey =>
      case EncoderValue =>
    }
  }

  /** `DecoderCache::from_decoder_outputs`: all four tensors of every layer, or an error. */
  method CacheFromOutputs(present: map<Slot, Tensor>) returns (cache: Option<seq<LayerCache>>)
    ensures cache.Some? <==> forall layer :: 0 <= layer < DECODER_LAYERS ==> HasLayer(present, layer)
    ensures cache.Some? ==> Mirrors(cache.value, present)
  {
    var layers: seq<LayerCache> := [];
    for layer := 0 to DECODER_LAYERS
      invariant |layers| == layer
      invariant forall k :: 0 <= k < layer ==> HasLayer(present, k) && layers[k] == LayerOf(present, k)
    {
      if Slot(layer, DecoderKey) !in present || Slot(layer, DecoderValue) !in present
         || Slot(layer, EncoderKey) !in present || Slot(layer, EncoderValue) !in present {
        assert !HasLayer(present, layer);
        return None;
      }
      layers := layers + [LayerOf(present, layer)];
    }
    cache := Some(layers);
    LayersMirror(layers, present);
  }

  /** `with_updated_decoder_outputs`: new decoder tensors, the previous encoder tensors. */
  method UpdateCache(previous: seq<LayerCache>, present: map<Slot, Tensor>) returns (cache: Option<seq<LayerCache>>)
    ensures cache.Some? <==> forall layer :: 0 <= layer < |previous| ==> HasDecoderLayer(present, layer)
    ensures cache.Some? ==> Updated(previous, present, cache.value)
  {
    var layers: seq<LayerCache> := [];
    for layer := 0 to |previous|
      invariant |layers| == layer
      invariant forall k :: 0 <= k < layer ==>
                  HasDecoderLayer(present, k) &&
                  layers[k] == LayerCache(present[Slot(k, DecoderKey)], present[Slot(k, DecoderValue)],
                                          previous[k].encoderKey, previous[k].encoderValue)
    {
      if Slot(layer, DecoderKey) !in present || Slot(layer, DecoderValue) !in present {
        assert !HasDecoderLayer(present, layer);
        return None;
      }
      layers := layers + [LayerCache(present[Slot(layer, DecoderKey)], present[Slot(layer, DecoderValue)],
                                     previous[layer].encoderKey, previous[layer].encoderValue)];
    }
    cache := Some(layers);
  }

  /** A cache that holds exactly what a full run produced. */
  ghost predicate Mirrors(cache: seq<LayerCache>, present: map<Slot, Tensor>) {
    && |cache| == DECODER_LAYERS
    && forall layer, kind :: 0 <= layer < DECODER_LAYERS ==>
         Slot(layer, kind) in present && Entry(cache[layer], kind) == present[Slot(layer, kind)]
  }

  predicate Updated(previous: seq<LayerCache>, present: map<Slot, Tensor>, cache: seq<LayerCache>) {
    && |cache| == |previous|
    && forall k :: 0 <= k < |previous| ==>
         && HasDecoderLayer(present, k)
         && cache[k] == LayerCache(present[Slot(k, DecoderKey)], present[Slot(k, DecoderValue)],
                                   previous[k].encoderKey, previous[k].encoderValue)
  }

  /** The `past_key_values` inputs of a cached run. */
  function PastOf(cache: seq<LayerCache>): map<Slot, Tensor> {
    map layer: nat, kind: CacheKind | layer < |cache| && kind in {DecoderKey, DecoderValue, EncoderKey, EncoderValue}
      :: Slot(layer, kind) := Entry(cache[layer], kind)
  }

  // ----- the graphs' contract -----

  /** The full graph on a token sequence. */
  function FullRun(graphs: Graphs, encoder: Tensor, ids: seq<int>): Option<Outputs> {
    match graphs.embed(ids)
    case None => None
    case Some(embeds) => graphs.decoder(embeds, encoder)
  }

  /** The merged graph on one more token and the cache of everything before it. */
  function CachedRun(graphs: Graphs, encoder: Tensor, token: int, past: map<Slot, Tensor>): Option<Outputs> {
    match graphs.embed([token])
    case None => None
    case Some(embeds) => graphs.merged(embeds, encoder, past)
  }

  /** The `past` inputs that hold exactly a full run's outputs. */
  function PastOfOutputs(present: map<Slot, Tensor>): map<Slot, Tensor> {
    map slot | slot in present && slot.layer < DECODER_LAYERS :: present[slot]
  }

  ghost predicate AllLayers(present: map<Slot, Tensor>) {
    forall slot: Slot :: slot.layer < DECODER_LAYERS ==> slot in present
  }

  /**
   * One cached step agrees with one full run: same logits, same decoder tensors.
   * Nothing is assumed about the encoder tensors a cached run puts out; the encoder
   * tensors of full runs do not depend on the decoder tokens.
   */
  ghost predicate StepContract(graphs: Graphs, encoder: Tensor, ids: seq<int>, token: int) {
    var before, after := FullRun(graphs, encoder, ids), FullRun(graphs, encoder, ids + [token]);
    before.Some? ==>
      && AllLayers(before.value.present)
      && var cached := CachedRun(graphs, encoder, token, PastOfOutputs(before.value.present));
         && (cached.Some? <==> after.Some?)
         && (after.Some? ==>
               && AllLayers(after.value.present)
               && cached.value.logits == after.value.logits
               && forall layer: nat | layer < DECODER_LAYERS ::
                    && HasDecoderLayer(cached.value.present, layer)
                    && cached.value.present[Slot(layer, DecoderKey)] == after.value.present[Slot(layer, DecoderKey)]
                    && cached.value.present[Slot(layer, DecoderValue)] == after.value.present[Slot(layer, DecoderValue)]
                    && before.value.present[Slot(layer, EncoderKey)] == after.value.present[Slot(layer, EncoderKey)]
                    && before.value.present[Slot(layer, EncoderValue)] == after.value.present[Slot(layer, EncoderValue)])
  }

  ghost predicate Contract(graphs: Graphs, encoder: Tensor) {
    forall ids: seq<int>, token: int :: ids != [] ==> StepContract(graphs, encoder, ids, token)
  }

  // ----- the reference: re-run everything for every token -----

  /** The next token, from a full run over all tokens so far. */
  function NextToken(graphs: Graphs, encoder: Tensor, ids: seq<int>): Option<int> {
    match FullRun(graphs, encoder, ids)
    case None => None
    case Some(outputs) =>
      match outputs.logits
      case None => None
      case Some(logits) => ArgmaxLastToken(logits)
  }

  function FullDecode(graphs: Graphs, encoder: Tensor, ids: seq<int>, left: nat): Option<seq<int>>
    decreases left
  {
    if left == 0 then Some(ids)
    else
      match NextToken(graphs, encoder, ids)
      case None => None
      case Some(token) =>
        if token == EOS_TOKEN_ID then Some(ids + [token])
        else FullDecode(graphs, encoder, ids + [token], left - 1)
  }

  // ----- the server's loop -----

  method RunDecoder(graphs: Graphs, encoder: Tensor, ids: seq<int>) returns (run: Option<DecoderRun>)
    requires Contract(graphs, encoder) && ids != []
    ensures run.Some? <==> FullRun(graphs, encoder, ids).Some? && FullRun(graphs, encoder, ids).value.logits.Some?
    ensures run.Some? ==>
              && run.value.logits == FullRun(graphs, encoder, ids).value.logits.value
              && Mirrors(run.value.cache, FullRun(graphs, encoder, ids).value.present)
  {
    assert StepContract(graphs, encoder, ids, 0);
    match graphs.embed(ids) {
      case None => return None;
      case Some(embeds) =>
        match graphs.decoder(embeds, encoder) {
          case None => return None;
          case Some(outputs) =>
            if outputs.logits.None? {
              return None;
            }
            var cache := CacheFromOutputs(outputs.present);
            run := if cache.Some? then Some(DecoderRun(outputs.logits.value, cache.value)) else None;
        }
    }
  }

  lemma PastMirrors(cache: seq<LayerCache>, present: map<Slot, Tensor>)
    requires Mirrors(cache, present)
    ensures PastOf(cache) == PastOfOutputs(present)
  {
    forall slot | slot in PastOfOutputs(present)
      ensures slot in PastOf(cache) && PastOf(cache)[slot] == present[slot]
    {
      assert slot == Slot(slot.layer, slot.kind);
    }
    forall slot | slot in PastOf(cache)
      ensures slot in PastOfOutputs(present)
    {
      assert slot == Slot(slot.layer, slot.kind);
    }
  }

  /** A cached step gives the logits of a full run and keeps the cache a mirror of it. */
  method RunCachedDecoder(graphs: Graphs, encoder: Tensor, cache: seq<LayerCache>, ghost before: seq<int>, token: int)
    returns (run: Option<DecoderRun>)
    requires Contract(graphs, encoder) && before != []
    requires FullRun(graphs, encoder, before).Some? && Mirrors(cache, FullRun(graphs, encoder, before).value.present)
    ensures var full := FullRun(graphs, encoder, before + [token]);
            && (run.Some? <==> full.Some? && full.value.logits.Some?)
            && (run.Some? ==>
                  run.value.logits == full.value.logits.value && Mirrors(run.value.cache, full.value.present))
  {
    assert StepContract(graphs, encoder, before, token);
    PastMirrors(cache, FullRun(graphs, encoder, before).value.present);
    match graphs.embed([token]) {
      case None => return None;
      case Some(embeds) =>
        match graphs.merged(embeds, encoder, PastOf(cache)) {
          case None => return None;
          case Some(outputs) =>
            if outputs.logits.None? {
              return None;
            }
            var updated := UpdateCache(cache, outputs.present);
            ghost var full := FullRun(graphs, encoder, before + [token]).value;
            UpdatedMirrors(cache, FullRun(graphs, encoder, before).value.present, outputs.present, full.present,
                           if updated.Some? then updated.value else []);
            run := if updated.Some? then Some(DecoderRun(outputs.logits.value, updated.value)) else None;
        }
    }
  }

  lemma UpdatedMirrors(
    cache: seq<LayerCache>, before: map<Slot, Tensor>, cached: map<Slot, Tensor>, after: map<Slot, Tensor>,
    updated: seq<LayerCache>)
    requires Mirrors(cache, before) && AllLayers(before) && AllLayers(after)
    requires forall layer: nat | layer < DECODER_LAYERS ::
               && HasDecoderLayer(cached, layer)
               && cached[Slot(layer, DecoderKey)] == after[Slot(layer, DecoderKey)]
               && cached[Slot(layer, DecoderValue)] == after[Slot(layer, DecoderValue)]
               && before[Slot(layer, EncoderKey)] == after[Slot(layer, EncoderKey)]
               && before[Slot(layer, EncoderValue)] == after[Slot(layer, EncoderValue)]
    ensures forall layer :: 0 <= layer < |cache| ==> HasDecoderLayer(cached, layer)
    ensures Updated(cache, cached, updated) ==> Mirrors(updated, after)
  {
    if Updated(cache, cached, updated) {
      forall layer: nat, kind | layer < DECODER_LAYERS
        ensures Slot(layer, kind) in after && Entry(updated[layer], kind) == after[Slot(layer, kind)]
      {
        assert HasDecoderLayer(cached, layer);
        assert Entry(cache[layer], EncoderKey) == before[Slot(layer, EncoderKey)];
        assert Entry(cache[layer], EncoderValue) == before[Slot(layer, EncoderValue)];
        match kind
        case DecoderKey =>
        case DecoderValue =>
        case EncoderKey =>
        case EncoderValue =>
      }
    }
  }

  // ----- what greedy decoding means -----

  /** A full run over `ids` yields logits whose last maximum is `token`. */
  predicate Chooses(graphs: Graphs, encoder: Tensor, ids: seq<int>, token: int) {
    var run := FullRun(graphs, encoder, ids);
    && run.Some? && run.value.logits.Some? && WellShaped(run.value.logits.value)
    && LastMaximum(run.value.logits.value, token)
  }

  /** The run fails, yields no logits, or logits without a usable last position. */
  predicate CannotChoose(graphs: Graphs, encoder: Tensor, ids: seq<int>) {
    var run := FullRun(graphs, encoder, ids);
    run.None? || run.value.logits.None? || !WellShaped(run.value.logits.value)
  }

  lemma NextTokenMeaning(graphs: Graphs, encoder: Tensor, ids: seq<int>, token: int)
    ensures NextToken(graphs, encoder, ids).None? <==> CannotChoose(graphs, encoder, ids)
    ensures NextToken(graphs, encoder, ids) == Some(token) <==> Chooses(graphs, encoder, ids, token)
  {
    if !CannotChoose(graphs, encoder, ids) {
      var logits := FullRun(graphs, encoder, ids).value.logits.value;
      ArgmaxMeaning(logits);
      if LastMaximum(logits, token) {
        LastMaximumUnique(logits, token, ArgmaxLastToken(logits).value);
      }
    }
  }

  /** Each id after the first is the choice of a full run over the ids before it. */
  ghost predicate Greedy(graphs: Graphs, encoder: Tensor, ids: seq<int>) {
    && ids != [] && ids[0] == DECODER_START_TOKEN_ID
    && forall k :: 1 <= k < |ids| ==> Chooses(graphs, encoder, ids[..k], ids[k])
  }

  /** No end marker after the first id. */
  predicate StillOpen(ids: seq<int>) {
    forall k :: 1 <= k < |ids| ==> ids[k] != EOS_TOKEN_ID
  }

  lemma GreedyNext(graphs: Graphs, encoder: Tensor, ids: seq<int>, token: int)
    requires Greedy(graphs, encoder, ids)
    ensures Greedy(graphs, encoder, ids + [token]) <==> Chooses(graphs, encoder, ids, token)
  {
    var longer := ids + [token];
    assert longer[..|ids|] == ids;
    assert forall k :: 1 <= k < |ids| ==> longer[..k] == ids[..k];
  }

  lemma GreedyChooses(graphs: Graphs, encoder: Tensor, ids: seq<int>, longer: seq<int>)
    requires ids != [] && ids <= longer && |ids| < |longer| && Greedy(graphs, encoder, longer)
    ensures Chooses(graphs, encoder, ids, longer[|ids|])
  {
    assert longer[..|ids|] == ids;
  }

  /** Two greedy continuations of the same ids start with the same choice. */
  lemma GreedyForced(graphs: Graphs, encoder: Tensor, ids: seq<int>, token: int, longer: seq<int>)
    requires ids != [] && Chooses(graphs, encoder, ids, token)
    requires ids <= longer && |ids| < |longer| && Greedy(graphs, encoder, longer)
    ensures longer[|ids|] == token && ids + [token] <= longer
  {
    GreedyChooses(graphs, encoder, ids, longer);
    LastMaximumUnique(FullRun(graphs, encoder, ids).value.logits.value, token, longer[|ids|]);
  }

  /** `out` continues `ids` greedily, up to the first end marker or by `left` tokens. */
  ghost predicate Continues(graphs: Graphs, encoder: Tensor, ids: seq<int>, left: nat, out: seq<int>) {
    && ids <= out && |out| <= |ids| + left && Greedy(graphs, encoder, out) && StillOpen(out[..|out| - 1])
    && (|out| == |ids| + left || (|out| > |ids| && out[|out| - 1] == EOS_TOKEN_ID))
  }

  /** A continuation on which decoding breaks down before it may stop. */
  ghost predicate BreaksDown(graphs: Graphs, encoder: Tensor, ids: seq<int>, left: nat, at: seq<int>) {
    && ids <= at && |at| < |ids| + left && Greedy(graphs, encoder, at) && StillOpen(at)
    && CannotChoose(graphs, encoder, at)
  }

  /** One more token, whatever becomes of the rest. */
  lemma ContinuesStep(graphs: Graphs, encoder: Tensor, ids: seq<int>, left: nat, token: int, out: seq<int>)
    requires left > 0 && Greedy(graphs, encoder, ids) && StillOpen(ids)
    requires Chooses(graphs, encoder, ids, token)
    ensures token == EOS_TOKEN_ID ==> (Continues(graphs, encoder, ids, left, out) <==> out == ids + [token])
    ensures token != EOS_TOKEN_ID ==>
              (Continues(graphs, encoder, ids, left, out) <==>
               Continues(graphs, encoder, ids + [token], left - 1, out))
  {
    GreedyNext(graphs, encoder, ids, token);
    if ids <= out && |ids| < |out| && Greedy(graphs, encoder, out) {
      GreedyForced(graphs, encoder, ids, token, out);
      assert |out| > |ids| + 1 ==> out[..|out| - 1][|ids|] == token;
    }
    assert (ids + [token])[..|ids|] == ids;
  }

  lemma BreaksDownStep(graphs: Graphs, encoder: Tensor, ids: seq<int>, left: nat, token: int, at: seq<int>)
    requires left > 0 && Greedy(graphs, encoder, ids) && StillOpen(ids)
    requires Chooses(graphs, encoder, ids, token)
    ensures token == EOS_TOKEN_ID ==> !BreaksDown(graphs, encoder, ids, left, at)
    ensures token != EOS_TOKEN_ID ==>
              (BreaksDown(graphs, encoder, ids, left, at) <==>
               BreaksDown(graphs, encoder, ids + [token], left - 1, at))
  {
    if ids <= at && Greedy(graphs, encoder, at) {
      if |ids| < |at| {
        GreedyForced(graphs, encoder, ids, token, at);
      } else {
        assert at == ids;
      }
    }
  }

  ghost predicate SomeBreaksDown(graphs: Graphs, encoder: Tensor, ids: seq<int>, left: nat) {
    exists at :: BreaksDown(graphs, encoder, ids, left, at)
  }

  lemma SomeBreaksDownStep(graphs: Graphs, encoder: Tensor, ids: seq<int>, left: nat, token: int)
    requires left > 0 && Greedy(graphs, encoder, ids) && StillOpen(ids)
    requires Chooses(graphs, encoder, ids, token)
    ensures token == EOS_TOKEN_ID ==> !SomeBreaksDown(graphs, encoder, ids, left)
    ensures token != EOS_TOKEN_ID ==>
              (SomeBreaksDown(graphs, encoder, ids, left) <==> SomeBreaksDown(graphs, encoder, ids + [token], left - 1))
  {
    if at :| BreaksDown(graphs, encoder, ids, left, at) {
      BreaksDownStep(graphs, encoder, ids, left, token, at);
    } else if token != EOS_TOKEN_ID {
      var longer, fewer := ids + [token], left - 1;
      if at :| BreaksDown(graphs, encoder, longer, fewer, at) {
        BreaksDownStep(graphs, encoder, ids, left, token, at);
      }
    }
  }

  /** The reference decoder returns exactly the greedy continuation. */
  lemma {:induction false} FullDecodeIff(graphs: Graphs, encoder: Tensor, ids: seq<int>, left: nat, out: seq<int>)
    requires Greedy(graphs, encoder, ids) && StillOpen(ids)
    ensures FullDecode(graphs, encoder, ids, left) == Some(out) <==> Continues(graphs, encoder, ids, left, out)
    decreases left
  {
    if left == 0 {
      assert ids[..|ids| - 1] <= ids;
      assert ids <= out && |out| == |ids| ==> out == ids;
    } else if CannotChoose(graphs, encoder, ids) {
      NextTokenMeaning(graphs, encoder, ids, 0);
      if ids <= out && |ids| < |out| && Greedy(graphs, encoder, out) {
        GreedyChooses(graphs, encoder, ids, out);
      }
    } else {
      var token := NextToken(graphs, encoder, ids);
      NextTokenMeaning(graphs, encoder, ids, 0);
      NextTokenMeaning(graphs, encoder, ids, token.value);
      ContinuesStep(graphs, encoder, ids, left, token.value, out);
      if token.value != EOS_TOKEN_ID {
        GreedyNext(graphs, encoder, ids, token.value);
        FullDecodeIff(graphs, encoder, ids + [token.value], left - 1, out);
      }
    }
  }

  /** ... and nothing exactly when some continuation breaks down. */
  lemma {:induction false} FullDecodeFailsIff(graphs: Graphs, encoder: Tensor, ids: seq<int>, left: nat)
    requires Greedy(graphs, encoder, ids) && StillOpen(ids)
    ensures FullDecode(graphs, encoder, ids, left).None? <==> SomeBreaksDown(graphs, encoder, ids, left)
    decreases left
  {
    if left > 0 {
      NextTokenMeaning(graphs, encoder, ids, 0);
      if CannotChoose(graphs, encoder, ids) {
        assert BreaksDown(graphs, encoder, ids, left, ids);
      } else {
        var token := NextToken(graphs, encoder, ids).value;
        NextTokenMeaning(graphs, encoder, ids, token);
        SomeBreaksDownStep(graphs, encoder, ids, left, token);
        if token != EOS_TOKEN_ID {
          GreedyNext(graphs, encoder, ids, token);
          FullDecodeFailsIff(graphs, encoder, ids + [token], left - 1);
        }
      }
    }
  }

  const START := [DECODER_START_TOKEN_ID]

  /** What a generation of at most `maxNewTokens` ids is. */
  ghost predicate IsGeneration(graphs: Graphs, encoder: Tensor, maxNewTokens: nat, ids: seq<int>) {
    Continues(graphs, encoder, START, maxNewTokens, ids)
  }

  /** Some greedy prefix of at most `maxNewTokens` ids, not ended yet, has no next token. */
  ghost predicate GenerationFails(graphs: Graphs, encoder: Tensor, maxNewTokens: nat) {
    SomeBreaksDown(graphs, encoder, START, maxNewTokens)
  }

  lemma DecodeMeaning(graphs: Graphs, encoder: Tensor, maxNewTokens: nat)
    ensures FullDecode(graphs, encoder, START, maxNewTokens).None? <==> GenerationFails(graphs, encoder, maxNewTokens)
    ensures FullDecode(graphs, encoder, START, maxNewTokens).Some? ==>
              IsGeneration(graphs, encoder, maxNewTokens, FullDecode(graphs, encoder, START, maxNewTokens).value)
  {
    FullDecodeFailsIff(graphs, encoder, START, maxNewTokens);
    if FullDecode(graphs, encoder, START, maxNewTokens).Some? {
      FullDecodeIff(graphs, encoder, START, maxNewTokens, FullDecode(graphs, encoder, START, maxNewTokens).value);
    }
  }

  /** There is at most one generation, and none if decoding breaks down. */
  lemma GenerationUnique(graphs: Graphs, encoder: Tensor, maxNewTokens: nat, a: seq<int>, b: seq<int>)
    requires IsGeneration(graphs, encoder, maxNewTokens, a) && IsGeneration(graphs, encoder, maxNewTokens, b)
    ensures a == b && !GenerationFails(graphs, encoder, maxNewTokens)
  {
    FullDecodeIff(graphs, encoder, START, maxNewTokens, a);
    FullDecodeIff(graphs, encoder, START, maxNewTokens, b);
    FullDecodeFailsIff(graphs, encoder, START, maxNewTokens);
  }

  /**
   * A generation starts with the start token, holds 2 to `maxNewTokens + 1` ids, ends
   * at the first end marker, and stops early only there.
   */
  lemma GeneratedShape(graphs: Graphs, encoder: Tensor, maxNewTokens: nat, ids: seq<int>)
    requires maxNewTokens > 0 && IsGeneration(graphs, encoder, maxNewTokens, ids)
    ensures 2 <= |ids| <= maxNewTokens + 1 && ids[0] == DECODER_START_TOKEN_ID
    ensures forall k :: 1 <= k < |ids| - 1 ==> ids[k] != EOS_TOKEN_ID
    ensures |ids| < maxNewTokens + 1 ==> ids[|ids| - 1] == EOS_TOKEN_ID
  {
    assert forall k :: 1 <= k < |ids| - 1 ==> ids[k] == ids[..|ids| - 1][k];
  }

  /** Refinement: the cached loop produces exactly what re-running the full graph would. */
  method GenerateOnce(graphs: Graphs, encoder: Tensor, maxNewTokens: nat) returns (ids: Option<seq<int>>)
    requires Contract(graphs, encoder)
    ensures ids == FullDecode(graphs, encoder, START, maxNewTokens)
    ensures ids.None? <==> GenerationFails(graphs, encoder, maxNewTokens)
    ensures ids.Some? ==> IsGeneration(graphs, encoder, maxNewTokens, ids.value)
  {
    DecodeMeaning(graphs, encoder, maxNewTokens);
    var generated := [DECODER_START_TOKEN_ID];
    var cache: Option<seq<LayerCache>> := None;
    for i := 0 to maxNewTokens
      invariant generated != []
      invariant cache.None? ==> |generated| == 1
      // The cache covers every token but the last.
      invariant cache.Some? ==>
                  && |generated| >= 2
                  && FullRun(graphs, encoder, generated[..|generated| - 1]).Some?
                  && Mirrors(cache.value, FullRun(graphs, encoder, generated[..|generated| - 1]).value.present)
      invariant FullDecode(graphs, encoder, START, maxNewTokens)
                == FullDecode(graphs, encoder, generated, maxNewTokens - i)
    {
      var run: Option<DecoderRun>;
      if cache.Some? {
        var last := generated[|generated| - 1];
        assert generated == generated[..|generated| - 1] + [last];
        run := RunCachedDecoder(graphs, encoder, cache.value, generated[..|generated| - 1], last);
      } else {
        run := RunDecoder(graphs, encoder, generated);
      }
      if run.None? {
        return None;
      }
      var next := ArgmaxLastToken(run.value.logits);
      if next.None? {
        return None;
      }
      cache := Some(run.value.cache);
      assert (generated + [next.value])[..|generated|] == generated;
      generated := generated + [next.value];
      if next.value == EOS_TOKEN_ID {
        break;
      }
    }
    ids := Some(generated);
  }

  // ----- slot names -----

  lemma {:induction false} DecimalInjective(a: nat, b: nat)
    requires Decimals.Decimal(a) == Decimals.Decimal(b)
    ensures a == b
  {
    Decimals.DecimalRoundTrip(a);
    Decimals.DecimalRoundTrip(b);
  }

  /** Equal strings split at the first dot in the same way. */
  lemma SplitAtDot(a: string, x: string, b: string, y: string)
    requires '.' !in a && '.' !in b
    requires a + "." + x == b + "." + y
    ensures a == b && x == y
  {
    var s, t := a + "." + x, b + "." + y;
    assert s[|a|] == '.' && t[|b|] == '.';
    assert forall i :: 0 <= i < |a| ==> s[i] == a[i];
    assert forall i :: 0 <= i < |b| ==> t[i] == b[i];
    assert forall i :: 0 <= i < |a| ==> s[i] != '.';
    assert forall i :: 0 <= i < |b| ==> t[i] != '.';
    assert a == s[..|a|] && b == t[..|b|];
    assert x == s[|a| + 1..] && y == t[|b| + 1..];
  }

  lemma SuffixInjective(a: CacheKind, b: CacheKind)
    requires Suffix(a) == Suffix(b)
    ensures a == b
  {
    assert |Suffix(DecoderKey)| == 11 && |Suffix(DecoderValue)| == 13;
    assert |Suffix(EncoderKey)| == 11 && |Suffix(EncoderValue)| == 13;
    assert Suffix(DecoderKey)[0] == 'd' && Suffix(DecoderValue)[0] == 'd';
    assert Suffix(EncoderKey)[0] == 'e' && Suffix(EncoderValue)[0] == 'e';
  }

  lemma NumberedName(slot: Slot)
    ensures '.' !in Decimals.Decimal(slot.layer)
  {
    assert forall c :: c in Decimals.Decimal(slot.layer) ==> Decimals.IsDigit(c);
  }

  function Numbered(slot: Slot): string {
    Decimals.Decimal(slot.layer) + "." + Suffix(slot.kind)
  }

  lemma PrefixCancels(prefix: string, x: string, y: string)
    requires prefix + x == prefix + y
    ensures x == y
  {
    assert x == (prefix + x)[|prefix|..] && y == (prefix + y)[|prefix|..];
  }

  lemma NamesSplit(slot: Slot)
    ensures PresentName(slot) == "present." + Numbered(slot)
    ensures PastName(slot) == "past_key_values." + Numbered(slot)
  {
  }

  /** Different cache tensors never share a name, so modelling names by slots loses nothing. */
  lemma NamesInjective(a: Slot, b: Slot)
    requires PresentName(a) == PresentName(b) || PastName(a) == PastName(b)
    ensures a == b
  {
    NamesSplit(a);
    NamesSplit(b);
    if PresentName(a) == PresentName(b) {
      PrefixCancels("present.", Numbered(a), Numbered(b));
    } else {
      PrefixCancels("past_key_values.", Numbered(a), Numbered(b));
    }
    SameNumbered(a, b);
  }

  lemma SameNumbered(a: Slot, b: Slot)
    requires Numbered(a) == Numbered(b)
    ensures a == b
  {
    NumberedName(a);
    NumberedName(b);
    SplitAtDot(Decimals.Decimal(a.layer), Suffix(a.kind), Decimals.Decimal(b.layer), Suffix(b.kind));
    DecimalInjective(a.layer, b.layer);
    SuffixInjective(a.kind, b.kind);
  }

  // ----- the contract can be met -----

  /** A model whose cache is the token list itself. */
  function ToyOutputs(ids: seq<int>, encoder: Tensor): Outputs {
    Outputs(Some(Tensor([1, 1, 3], [|ids|, 0, 1])),
            map layer: nat, kind: CacheKind |
              layer < DECODER_LAYERS && kind in {DecoderKey, DecoderValue, EncoderKey, EncoderValue}
              :: Slot(layer, kind) := if kind.DecoderKey? || kind.DecoderValue? then Tensor([], ids) else encoder)
  }

  function ToyEmbed(ids: seq<int>): Option<Tensor> {
    Some(Tensor([], ids))
  }

  function ToyDecoder(embeds: Tensor, encoder: Tensor): Option<Outputs> {
    Some(ToyOutputs(embeds.data, encoder))
  }

  function ToyMerged(embeds: Tensor, encoder: Tensor, past: map<Slot, Tensor>): Option<Outputs> {
    if Slot(0, DecoderKey) in past then Some(ToyOutputs(past[Slot(0, DecoderKey)].data + embeds.data, encoder)) else None
  }

  const TOY: Graphs := Graphs(ToyEmbed, ToyDecoder, ToyMerged)

  lemma ToyHasAllLayers(ids: seq<int>, encoder: Tensor)
    ensures AllLayers(ToyOutputs(ids, encoder).present)
  {
    forall slot: Slot | slot.layer < DECODER_LAYERS
      ensures slot in ToyOutputs(ids, encoder).present
    {
      assert slot == Slot(slot.layer, slot.kind);
      match slot.kind
      case DecoderKey =>
      case DecoderValue =>
      case EncoderKey =>
      case EncoderValue =>
    }
  }

  lemma ToyStep(encoder: Tensor, ids: seq<int>, token: int)
    ensures StepContract(TOY, encoder, ids, token)
  {
    var before, after := ToyOutputs(ids, encoder), ToyOutputs(ids + [token], encoder);
    assert FullRun(TOY, encoder, ids) == Some(before);
    assert FullRun(TOY, encoder, ids + [token]) == Some(after);
    ToyHasAllLayers(ids, encoder);
    ToyHasAllLayers(ids + [token], encoder);
    assert PastOfOutputs(before.present)[Slot(0, DecoderKey)] == Tensor([], ids);
    assert CachedRun(TOY, encoder, token, PastOfOutputs(before.present)) == Some(after);
  }

  /** The contract is not vacuous: some graphs meet it. */
  lemma ContractSatisfiable(encoder: Tensor)
    ensures Contract(TOY, encoder)
  {
    forall ids: seq<int>, token: int | ids != []
      ensures StepContract(TOY, encoder, ids, token)
    {
      ToyStep(encoder, ids, token);
    }
  }
}
