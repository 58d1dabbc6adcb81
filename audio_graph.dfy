/**
 * The host audio engine as the sound sees it: nodes are opaque identities,
 * the routing graph is a set of directed edges, and the few node parameters
 * the sound writes are plain fields.
 */
module AudioGraph {

  /**
   * An audio node. The four main nodes of one sound (its context's destination,
   * its gain, stereo panner and 3D panner) are fixed identities; buffer source
   * nodes are numbered in creation order; any other node a caller supplies as
   * an effect is `Effect(id)`.
   */
  datatype AudioNode =
    | Destination
    | Gain
    | StereoPanner
    | Panner
    | BufferSource(id: nat)
    | Effect(id: nat)

  /** The edge `a -> b` left behind by `a.connect(b)`. */
  type Edge = (AudioNode, AudioNode)

  /** The graph after `node.disconnect()` with no argument: every edge leaving `node` is gone. */
  function Disconnect(edges: set<Edge>, node: AudioNode): set<Edge>
  {
    set e | e in edges && e.0 != node
  }

  /** The edges that a list of connect calls leaves behind. */
  function EdgeSet(calls: seq<Edge>): set<Edge>
  {
    set e | e in calls
  }

  /**
   * A bare `disconnect()` only takes edges away, leaves no edge leaving the
   * node, keeps every edge leaving another node, is idempotent, and two of
   * them can be made in either order.
   */
  lemma DisconnectFacts(edges: set<Edge>, node: AudioNode, other: AudioNode)
    ensures Disconnect(edges, node) <= edges
    ensures forall x :: (node, x) !in Disconnect(edges, node)
    ensures forall x :: other != node && (other, x) in edges ==> (other, x) in Disconnect(edges, node)
    ensures Disconnect(Disconnect(edges, node), node) == Disconnect(edges, node)
    ensures Disconnect(Disconnect(edges, node), other) == Disconnect(Disconnect(edges, other), node)
  {
  }

  /** The edges of a sequence of connect calls are those of each part. */
  lemma {:induction false} EdgeSetAppend(a: seq<Edge>, b: seq<Edge>)
    ensures EdgeSet(a + b) == EdgeSet(a) + EdgeSet(b)
  {
    assert forall e :: e in a + b <==> e in a || e in b;
  }

  /** One more connect call adds its edge. */
  lemma EdgeSetPush(calls: seq<Edge>, e: Edge)
    ensures EdgeSet(calls + [e]) == EdgeSet(calls) + {e}
  {
  }

  /** The wiring that `createNodes` makes once: panner -> stereo panner -> gain -> destination. */
  const MainEdges: set<Edge> := {(Panner, StereoPanner), (StereoPanner, Gain), (Gain, Destination)}

  /** A decoded audio buffer: its duration in seconds, its sample rate and one sample array per channel. */
  datatype AudioBuffer = AudioBuffer(duration: real, sampleRate: real, channels: seq<seq<real>>)
  {
    function NumberOfChannels(): nat { |channels| }
  }

  /** What a sound can be built from: a URL string, raw encoded bytes, or a decoded buffer. */
  datatype SoundSource =
    | Url(path: string)
    | Bytes(data: seq<bv8>)
    | Decoded(buffer: AudioBuffer)

  /** The 3D panner's position parameters, the only ones of its parameters the sound writes. */
  class PannerNode {
    var positionX: real
    var positionY: real
    var positionZ: real

    /** A new panner sits at the origin. */
    constructor ()
      ensures positionX == 0.0 && positionY == 0.0 && positionZ == 0.0
    {
      positionX, positionY, positionZ := 0.0, 0.0, 0.0;
    }
  }

  /** A JavaScript array of audio nodes: an object that two sounds can share. */
  class NodeArray {
    var items: seq<AudioNode>

    constructor ()
      ensures items == []
    {
      items := [];
    }
  }
}
