/**
 * The effect chain of `AudioEffect` (src/lib/effects.ts).
 *
 * The four Tone nodes an `AudioEffect` owns are singletons, so a node is
 * named by its kind. The audio graph is a set of directed connections
 * (from an effect node to another effect node or to the destination);
 * Tone's `a.connect(b)` adds one connection and `a.disconnect()` removes
 * every connection that leaves `a`.
 */
module Effects {
  import opened Options

  datatype Effect = BitCrusher | FeedbackDelay | Reverb | Gain

  /** Where a connection can end: an effect node or the audio destination. */
  datatype Port = Node(effect: Effect) | Destination

  type Edge = (Effect, Port)

  /** The order the constructor wires and stores. */
  const InitialOrder: seq<Effect> := [BitCrusher, FeedbackDelay, Reverb, Gain]

  /** The tag the UI uses for each node kind. */
  function Tag(e: Effect): string
  {
    match e
    case BitCrusher => "bitCrusher"
    case FeedbackDelay => "feedbackDelay"
    case Reverb => "reverb"
    case Gain => "gain"
  }

  ghost function Members(s: seq<Effect>): set<Effect>
  {
    set x | x in s
  }

  ghost predicate Distinct(s: seq<Effect>)
  {
    forall i, j :: 0 <= i < j < |s| ==> s[i] != s[j]
  }

  /** The connections that survive `n.disconnect()` for every `n` in `nodes`. */
  ghost function Without(edges: set<Edge>, nodes: set<Effect>): set<Edge>
  {
    set e | e in edges && e.0 !in nodes
  }

  /** The connection `s[k] -> s[k+1]`. */
  ghost function LinkAt(s: seq<Effect>, k: nat): Edge
    requires k + 1 < |s|
  {
    (s[k], Node(s[k + 1]))
  }

  /** The connections between consecutive elements. */
  ghost function Links(s: seq<Effect>): set<Edge>
  {
    set k | 0 <= k < |s| - 1 :: LinkAt(s, k)
  }

  /** What the `reduce` of `buildEffectChain` connects for a non-empty list. */
  ghost function ChainEdges(s: seq<Effect>): set<Edge>
    requires s != []
  {
    Links(s) + {(s[|s| - 1], Destination)}
  }

  /** The whole graph after a successful rebuild over `s`. */
  ghost function Rebuilt(edges: set<Edge>, s: seq<Effect>): set<Edge>
    requires s != []
  {
    Without(edges, Members(s)) + ChainEdges(s)
  }

  /** Where the chain sends the output of `s[k]`. */
  function Successor(s: seq<Effect>, k: nat): Port
    requires k < |s|
  {
    if k + 1 < |s| then Node(s[k + 1]) else Destination
  }

  /** A signal path through effect nodes along existing connections. */
  ghost predicate IsPath(edges: set<Edge>, p: seq<Effect>)
  {
    forall k :: 0 <= k < |p| - 1 ==> (p[k], Node(p[k + 1])) in edges
  }

  class AudioEffect {
    /** The current ordering (`effectsList`). */
    var effectsList: seq<Effect>
    /** The connections between the nodes, as Tone holds them. */
    var edges: set<Edge>

    constructor ()
      ensures effectsList == InitialOrder
      ensures edges == ChainEdges(InitialOrder)
    {
      // bitCrusher.chain(feedbackDelay, reverb, gain, destination)
      edges := {(BitCrusher, Node(FeedbackDelay)), (FeedbackDelay, Node(Reverb)),
                (Reverb, Node(Gain)), (Gain, Destination)};
      effectsList := InitialOrder;
      new;
      ghost var chained := edges;
      var ok := BuildEffectChain();
      EveryNodeListedForgetsPast(chained, InitialOrder);
    }

    /**
     * Disconnects every listed node, then connects consecutive nodes and
     * the last one to the destination. On an empty list `reduce` without an
     * initial value throws after nothing was disconnected: `ok` is false.
     */
    method BuildEffectChain() returns (ok: bool)
      modifies this
      ensures effectsList == old(effectsList)
      ensures ok <==> effectsList != []
      ensures ok ==> edges == Rebuilt(old(edges), effectsList)
      ensures !ok ==> edges == old(edges)
    {
      var list := effectsList;
      // list.forEach(effect => effect.disconnect())
      for i := 0 to |list|
        invariant effectsList == list
        invariant edges == Without(old(edges), Members(list[..i]))
      {
        assert Members(list[..i + 1]) == Members(list[..i]) + {list[i]} by {
          assert list[..i + 1] == list[..i] + [list[i]];
        }
        edges := set e | e in edges && e.0 != list[i];
      }
      assert list[..|list|] == list;
      // reduce without an initial value: TypeError on an empty array
      if list == [] {
        return false;
      }
      var prev := list[0];
      for i := 1 to |list|
        invariant effectsList == list
        invariant prev == list[i - 1]
        invariant edges == Without(old(edges), Members(list)) + Links(list[..i])
      {
        LinksSnoc(list, i);
        edges := edges + {(prev, Node(list[i]))};
        prev := list[i];
      }
      edges := edges + {(prev, Destination)};
      ok := true;
    }

    /** Stores the new ordering as given, without validation, then rebuilds. */
    method ReorderEffects(newEffectsList: seq<Effect>) returns (ok: bool)
      modifies this
      ensures effectsList == newEffectsList
      ensures ok <==> newEffectsList != []
      ensures edges == if ok then Rebuilt(old(edges), newEffectsList) else old(edges)
    {
      effectsList := newEffectsList;
      ok := BuildEffectChain();
    }

    /** The node upstream signal is sent into: always the bit crusher. */
    function GetEffectChainInput(): (input: Effect)
      ensures input == BitCrusher
    {
      BitCrusher
    }

    /** The first node of the current ordering, where the chain really starts. */
    function ChainHead(): (head: Option<Effect>)
      reads this
      ensures head.Some? <==> effectsList != []
      ensures head.Some? ==> head.value == effectsList[0] && head.value in effectsList
    {
      if effectsList == [] then None else Some(effectsList[0])
    }
  }

  lemma {:induction false} LinksSnoc(s: seq<Effect>, i: nat)
    requires 1 <= i < |s|
    ensures Links(s[..i + 1]) == Links(s[..i]) + {(s[i - 1], Node(s[i]))}
  {
    var a, b := s[..i], s[..i + 1];
    forall e | e in Links(b) ensures e in Links(a) + {(s[i - 1], Node(s[i]))} {
      var k :| 0 <= k < |b| - 1 && e == LinkAt(b, k);
      if k < i - 1 {
        assert e == LinkAt(a, k);
      }
    }
    forall e | e in Links(a) ensures e in Links(b) {
      var k :| 0 <= k < |a| - 1 && e == LinkAt(a, k);
      assert e == LinkAt(b, k);
    }
    assert (s[i - 1], Node(s[i])) == LinkAt(b, i - 1);
  }

  /** Every connection the chain adds leaves a listed node. */
  lemma ChainLeavesListed(s: seq<Effect>)
    requires s != []
    ensures forall e :: e in ChainEdges(s) ==> e.0 in Members(s)
  {
  }

  /** Rebuilding twice over the same ordering gives the graph of rebuilding once. */
  lemma RebuildIdempotent(edges: set<Edge>, s: seq<Effect>)
    requires s != []
    ensures Rebuilt(Rebuilt(edges, s), s) == Rebuilt(edges, s)
  {
  }

  /** A node outside the ordering keeps exactly the connections it had. */
  lemma UnlistedKeepsConnections(edges: set<Edge>, s: seq<Effect>, n: Effect, p: Port)
    requires s != [] && n !in s
    ensures (n, p) in Rebuilt(edges, s) <==> (n, p) in edges
  {
  }

  /**
   * With no node listed twice, each listed node ends up with exactly one
   * outgoing connection: to its successor in the ordering.
   */
  lemma {:induction false} ListedHasOnlySuccessor(edges: set<Edge>, s: seq<Effect>, k: nat, p: Port)
    requires Distinct(s) && k < |s|
    ensures (s[k], p) in Rebuilt(edges, s) <==> p == Successor(s, k)
  {
    assert s[k] in Members(s);
    if (s[k], p) in Links(s) {
      var m :| 0 <= m < |s| - 1 && (s[k], p) == LinkAt(s, m);
      assert m == k;
    }
    if p == Successor(s, k) && k + 1 < |s| {
      assert LinkAt(s, k) in Links(s);
    }
  }

  /** An ordering that lists every node leaves no connection of the old graph behind. */
  lemma {:induction false} EveryNodeListedForgetsPast(edges: set<Edge>, s: seq<Effect>)
    requires s != []
    requires BitCrusher in s && FeedbackDelay in s && Reverb in s && Gain in s
    ensures Rebuilt(edges, s) == ChainEdges(s)
  {
    forall e | e in edges ensures e.0 in Members(s) {
      match e.0
      case BitCrusher =>
      case FeedbackDelay =>
      case Reverb =>
      case Gain =>
    }
  }

  /** After a rebuild the ordering is a signal path from the chain head to the destination. */
  lemma {:induction false} HeadFeedsWholeChain(edges: set<Edge>, s: seq<Effect>)
    requires s != []
    ensures IsPath(Rebuilt(edges, s), s)
    ensures (s[|s| - 1], Destination) in Rebuilt(edges, s)
  {
    forall k | 0 <= k < |s| - 1 ensures (s[k], Node(s[k + 1])) in Rebuilt(edges, s) {
      assert LinkAt(s, k) in Links(s);
    }
  }

  /**
   * Once the ordering starts with the reverb, no signal path that starts
   * at `GetEffectChainInput()` ever passes through the reverb.
   */
  lemma {:induction false} InputSkipsReorderedHead(fx: AudioEffect, edges: set<Edge>, p: seq<Effect>)
    requires p != [] && p[0] == fx.GetEffectChainInput()
    requires IsPath(Rebuilt(edges, [Reverb, BitCrusher, FeedbackDelay, Gain]), p)
    ensures Reverb !in p
  {
    var s := [Reverb, BitCrusher, FeedbackDelay, Gain];
    EveryNodeListedForgetsPast(edges, s);
    var g := Rebuilt(edges, s);
    assert forall e :: e in g ==> e.0 == Reverb || e.1 != Node(Reverb) by {
      forall e | e in g ensures e.0 == Reverb || e.1 != Node(Reverb) {
        if e in Links(s) {
          var k :| 0 <= k < |s| - 1 && e == LinkAt(s, k);
        }
      }
    }
    NeverEntered(g, p, Reverb, |p| - 1);
  }

  /**
   * The corrected input in the same scenario: after the reorder the head is
   * the reverb, and the whole ordering is a signal path from it.
   */
  method ReorderedHeadFeedsReverb(fx: AudioEffect)
    modifies fx
    ensures fx.ChainHead() == Some(Reverb)
    ensures IsPath(fx.edges, [Reverb, BitCrusher, FeedbackDelay, Gain])
    ensures (Gain, Destination) in fx.edges
  {
    var s := [Reverb, BitCrusher, FeedbackDelay, Gain];
    var ok := fx.ReorderEffects(s);
    HeadFeedsWholeChain(old(fx.edges), s);
  }

  /** On a path that does not start at `n`, with no edge into `n` from elsewhere, `n` never occurs. */
  lemma {:induction false} NeverEntered(g: set<Edge>, p: seq<Effect>, n: Effect, k: nat)
    requires k < |p| && p[0] != n && IsPath(g, p)
    requires forall e :: e in g ==> e.0 == n || e.1 != Node(n)
    ensures forall m :: 0 <= m <= k ==> p[m] != n
  {
    if k > 0 {
      NeverEntered(g, p, n, k - 1);
      assert (p[k - 1], Node(p[k])) in g;
    }
  }
}
