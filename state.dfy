/**
 * The pure parts of `State` (src/lib/state.ts): the initial effect
 * metadata shown by the UI and the lookup from a metadata tag to the
 * node of the current `AudioEffect`.
 */
module State {
  import opened Options
  import opened Effects

  /** One entry of `effectsMeta`; `id` comes from `nanoid()`. */
  datatype EffectMeta = EffectMeta(id: string, name: string, kind: string)

  /**
   * The initial metadata list. The three random ids are a parameter.
   * There is no entry for the gain node.
   */
  function InitialEffectsMeta(ids: seq<string>): (meta: seq<EffectMeta>)
    requires |ids| == 3
    ensures |meta| == 3
    ensures forall k :: 0 <= k < 3 ==> meta[k].id == ids[k]
    ensures meta[0].kind == Tag(BitCrusher) && meta[1].kind == Tag(FeedbackDelay) && meta[2].kind == Tag(Reverb)
    ensures forall k :: 0 <= k < 3 ==> meta[k].kind != Tag(Gain)
  {
    [ EffectMeta(ids[0], "Bit Crusher", "bitCrusher"),
      EffectMeta(ids[1], "Feedback Delay", "feedbackDelay"),
      EffectMeta(ids[2], "Reverb", "reverb") ]
  }

  /**
   * The node of `fx` whose tag is `kind`; `None` (the source's `null`) when
   * no effects object is set or the tag is not one of the three looked up.
   */
  function GetNodeByType(fx: AudioEffect?, kind: string): (node: Option<Effect>)
    ensures fx == null ==> node == None
    ensures node.Some? ==> Tag(node.value) == kind && node.value != Gain
    ensures fx != null && (kind == "feedbackDelay" || kind == "bitCrusher" || kind == "reverb") ==> node.Some?
  {
    if fx == null then None
    else if kind == "feedbackDelay" then Some(FeedbackDelay)
    else if kind == "bitCrusher" then Some(BitCrusher)
    else if kind == "reverb" then Some(Reverb)
    else None
  }

  /** Looking up a node's own tag finds that node, except for the gain node. */
  lemma TagLookupRoundTrip(fx: AudioEffect, e: Effect)
    ensures GetNodeByType(fx, Tag(e)) == if e == Gain then None else Some(e)
  {
  }

  /**
   * Resolving the initial metadata tags in order gives the initial
   * ordering of the effect chain without its final gain node.
   */
  lemma InitialMetaResolvesToOrder(fx: AudioEffect, ids: seq<string>)
    requires |ids| == 3
    ensures forall k :: 0 <= k < 3 ==>
      GetNodeByType(fx, InitialEffectsMeta(ids)[k].kind) == Some(InitialOrder[k])
    ensures forall k :: 0 <= k < 3 ==>
      GetNodeByType(fx, InitialEffectsMeta(ids)[k].kind) != Some(InitialOrder[3])
  {
  }
}
