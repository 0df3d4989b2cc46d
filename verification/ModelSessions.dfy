/** The five graph sessions a worker owns and lends to its blocking thread. */
module ModelSessions {
  import opened Records

  datatype Graph = VisionEncoder | EmbedTokens | EncoderModel | DecoderModel | DecoderModelMerged

  /** A session handle: which graph, and which model load produced it. */
  datatype Handle = Handle(graph: Graph, load: nat)

  datatype Sessions = Sessions(
    visionEncoder: Option<Handle>,
    embedTokens: Option<Handle>,
    encoderModel: Option<Handle>,
    decoderModel: Option<Handle>,
    decoderModelMerged: Option<Handle>)

  const NO_SESSIONS := Sessions(None, None, None, None, None)

  /** What `FlorenceWorker::new` produces. */
  function FreshSessions(load: nat): Sessions {
    Sessions(
      Some(Handle(VisionEncoder, load)), Some(Handle(EmbedTokens, load)), Some(Handle(EncoderModel, load)),
      Some(Handle(DecoderModel, load)), Some(Handle(DecoderModelMerged, load)))
  }

  /** No "session is unavailable" error can arise. */
  predicate Complete(s: Sessions) {
    && s.visionEncoder.Some? && s.embedTokens.Some? && s.encoderModel.Some?
    && s.decoderModel.Some? && s.decoderModelMerged.Some?
  }

  function HandleSet(slot: Option<Handle>): set<Handle> {
    if slot.Some? then {slot.value} else {}
  }

  /** Every session handle reachable through `s`. */
  function Handles(s: Sessions): set<Handle> {
    HandleSet(s.visionEncoder) + HandleSet(s.embedTokens) + HandleSet(s.encoderModel)
    + HandleSet(s.decoderModel) + HandleSet(s.decoderModelMerged)
  }

  class FlorenceWorker {
    const id: nat
    var visionEncoder: Option<Handle>
    var embedTokens: Option<Handle>
    var encoderModel: Option<Handle>
    var decoderModel: Option<Handle>
    var decoderModelMerged: Option<Handle>

    constructor (id: nat, sessions: Sessions)
      ensures this.id == id && Held() == sessions
    {
      this.id := id;
      visionEncoder, embedTokens, encoderModel := sessions.visionEncoder, sessions.embedTokens, sessions.encoderModel;
      decoderModel, decoderModelMerged := sessions.decoderModel, sessions.decoderModelMerged;
    }

    function Held(): Sessions
      reads this
    {
      Sessions(visionEncoder, embedTokens, encoderModel, decoderModel, decoderModelMerged)
    }

    /** Moves every session out: the handles end up in the copy and nowhere else. */
    method TakeForBlocking() returns (lent: FlorenceWorker)
      modifies this
      ensures fresh(lent) && lent.id == id
      ensures lent.Held() == old(Held()) && Held() == NO_SESSIONS
      ensures Handles(lent.Held()) !! Handles(Held())
    {
      var vision, embed, encoder := visionEncoder, embedTokens, encoderModel;
      visionEncoder, embedTokens, encoderModel := None, None, None;
      var decoder, merged := decoderModel, decoderModelMerged;
      decoderModel, decoderModelMerged := None, None;
      lent := new FlorenceWorker(id, Sessions(vision, embed, encoder, decoder, merged));
    }

    /** The blocking task hands its worker back: the sessions move to their owner again. */
    method TakeBack(lent: FlorenceWorker)
      requires lent != this
      modifies this
      ensures Held() == lent.Held()
    {
      visionEncoder, embedTokens, encoderModel := lent.visionEncoder, lent.embedTokens, lent.encoderModel;
      decoderModel, decoderModelMerged := lent.decoderModel, lent.decoderModelMerged;
    }
  }
}
