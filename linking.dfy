/**
 * The relinking algorithm of ts/Sound.ts (unlinkNodes and linkNodes) as
 * functions on the wiring state, with the properties its two loops have.
 *
 * Both loops `shift()` their work list while also counting `i` up and test
 * `i < list.length`, so each visits only the first ceil(n/2) elements of a
 * work list of n elements. The functions below do exactly that.
 */
module Linking {
  import opened Wrappers
  import opened JsArray
  import opened AudioGraph

  /**
   * What relinking reads and writes: the host graph's edges, the sound's
   * `_connectedNodes` list, and the connect and disconnect calls made so far.
   */
  datatype Wiring = Wiring(edges: set<Edge>, connected: seq<AudioNode>, connects: seq<Edge>, disconnects: seq<AudioNode>)

  /** `[destination, gain, steroPanner, panner]`, the literal both work lists start from. */
  const MainsFromDestination: seq<AudioNode> := [Destination, Gain, StereoPanner, Panner]

  /** The main nodes in signal order. */
  const MainChain: seq<AudioNode> := [Panner, StereoPanner, Gain, Destination]

  /**
   * Iterations of a loop that shifts a list of `n` elements while counting
   * from `i`: each iteration makes the list one shorter and the counter one
   * larger.
   */
  function Processed(n: nat, i: nat): nat
  {
    if i < n then 1 + Processed(n - 1, i + 1) else 0
  }

  /** Such a loop runs ceil((n - i) / 2) times, never more than `n`. */
  lemma {:induction false} ProcessedIsHalf(n: nat, i: nat)
    ensures Processed(n, i) == if i < n then (n - i + 1) / 2 else 0
    ensures Processed(n, i) <= n
  {
    if i < n {
      ProcessedIsHalf(n - 1, i + 1);
    }
  }

  // ------------------------------------------------------------------
  // unlinkNodes
  // ------------------------------------------------------------------

  /**
   * The source as `concat(this.source!)` adds it. A null source adds a null,
   * which the filter that follows always drops, so it contributes nothing.
   */
  function SourceSeq(source: Option<AudioNode>): seq<AudioNode>
  {
    if source.Some? then [source.value] else []
  }

  /** The work list of unlinkNodes: main nodes, recorded nodes and source, reversed, kept only if recorded. */
  function UnlinkList(connected: seq<AudioNode>, source: Option<AudioNode>): seq<AudioNode>
  {
    KeepIn(Reverse(MainsFromDestination + connected + SourceSeq(source)), connected)
  }

  /**
   * The loop of unlinkNodes from the iteration with counter `i`, `rest` being
   * what is left of the work list: shift a node, disconnect it, splice it out
   * of the recorded list (the last entry when indexOf gives -1).
   */
  function UnlinkLoop(w: Wiring, rest: seq<AudioNode>, i: nat): Wiring
    decreases |rest|
  {
    if i < |rest| then UnlinkLoop(UnlinkStep(w, rest[0]), rest[1..], i + 1) else w
  }

  /** One iteration of the unlink loop on `node`: `node.disconnect()`, then the splice. */
  function UnlinkStep(w: Wiring, node: AudioNode): Wiring
  {
    Wiring(Disconnect(w.edges, node), SpliceIndexOf(w.connected, node), w.connects, w.disconnects + [node])
  }

  /** The whole of unlinkNodes. */
  function Unlink(w: Wiring, source: Option<AudioNode>): Wiring
  {
    UnlinkLoop(w, UnlinkList(w.connected, source), 0)
  }

  /** One iteration of a shifting loop: one element fewer, counter one up, one iteration fewer. */
  lemma ProcessedStep(n: nat, i: nat)
    requires i < n
    ensures 1 <= Processed(n, i) <= n
    ensures Processed(n - 1, i + 1) == Processed(n, i) - 1
  {
    ProcessedIsHalf(n - 1, i + 1);
  }

  /** The first `k` entries of `rest`, as its head and the first `k - 1` of its tail. */
  lemma PrefixOfTail<T>(rest: seq<T>, k: nat)
    requires 1 <= k <= |rest|
    ensures rest[..k] == [rest[0]] + rest[1..][..k - 1]
  {
  }

  /** The unlink loop handles exactly the first `Processed` nodes of its work list, in order. */
  lemma {:induction false} UnlinkLoopLogs(w: Wiring, rest: seq<AudioNode>, i: nat)
    ensures Processed(|rest|, i) <= |rest|
    ensures UnlinkLoop(w, rest, i).disconnects == w.disconnects + rest[..Processed(|rest|, i)]
    decreases |rest|
  {
    if i < |rest| {
      var next := UnlinkStep(w, rest[0]);
      UnlinkLoopLogs(next, rest[1..], i + 1);
      var k := Processed(|rest|, i);
      ProcessedStep(|rest|, i);
      PrefixOfTail(rest, k);
      AppendAssoc(w.disconnects, [rest[0]], rest[1..][..k - 1]);
    }
  }

  /** The unlink loop makes no connect call. */
  lemma {:induction false} UnlinkLoopConnectsNothing(w: Wiring, rest: seq<AudioNode>, i: nat)
    ensures UnlinkLoop(w, rest, i).connects == w.connects
    decreases |rest|
  {
    if i < |rest| {
      UnlinkLoopConnectsNothing(UnlinkStep(w, rest[0]), rest[1..], i + 1);
    }
  }

  /** The unlink loop removes every edge leaving a node it handles, and no other edge. */
  lemma {:induction false} UnlinkLoopEdges(w: Wiring, rest: seq<AudioNode>, i: nat)
    ensures Processed(|rest|, i) <= |rest|
    ensures forall e :: e in UnlinkLoop(w, rest, i).edges <==> e in w.edges && e.0 !in rest[..Processed(|rest|, i)]
    decreases |rest|
  {
    if i < |rest| {
      var node := rest[0];
      var next := UnlinkStep(w, node);
      assert UnlinkLoop(w, rest, i) == UnlinkLoop(next, rest[1..], i + 1);
      UnlinkLoopEdges(next, rest[1..], i + 1);
      var k := Processed(|rest|, i);
      assert Processed(|rest[1..]|, i + 1) == k - 1;
      assert rest[..k] == [node] + rest[1..][..k - 1];
      var r := UnlinkLoop(w, rest, i);
      assert r == UnlinkLoop(next, rest[1..], i + 1);
      forall e ensures e in r.edges <==> e in w.edges && e.0 !in rest[..k] {
        assert e.0 in rest[..k] <==> e.0 == node || e.0 in rest[1..][..k - 1];
      }
    }
  }

  /** The unlink loop only ever takes entries out of the recorded list. */
  lemma {:induction false} UnlinkLoopShrinks(w: Wiring, rest: seq<AudioNode>, i: nat)
    ensures multiset(UnlinkLoop(w, rest, i).connected) <= multiset(w.connected)
    decreases |rest|
  {
    if i < |rest| {
      var node := rest[0];
      var next := UnlinkStep(w, node);
      assert UnlinkLoop(w, rest, i) == UnlinkLoop(next, rest[1..], i + 1);
      UnlinkLoopShrinks(next, rest[1..], i + 1);
      assert multiset(next.connected) <= multiset(w.connected);
    }
  }

  /**
   * unlinkNodes disconnects only nodes that were recorded in `_connectedNodes`
   * when it was called, removes only edges leaving a node it disconnected,
   * and connects nothing.
   */
  lemma UnlinkDisconnectsOnlyRecorded(w: Wiring, source: Option<AudioNode>)
    ensures |w.disconnects| <= |Unlink(w, source).disconnects|
    ensures Unlink(w, source).disconnects[..|w.disconnects|] == w.disconnects
    ensures forall d :: d in Unlink(w, source).disconnects[|w.disconnects|..] ==> d in w.connected
    ensures Unlink(w, source).connects == w.connects
    ensures Unlink(w, source).edges <= w.edges
    ensures forall e :: e in w.edges && e !in Unlink(w, source).edges ==> e.0 in Unlink(w, source).disconnects[|w.disconnects|..]
  {
    var list := UnlinkList(w.connected, source);
    UnlinkLoopLogs(w, list, 0);
    UnlinkLoopConnectsNothing(w, list, 0);
    UnlinkLoopEdges(w, list, 0);
    var k := Processed(|list|, 0);
    assert Unlink(w, source).disconnects[|w.disconnects|..] == list[..k];
    forall d | d in list[..k] ensures d in w.connected {
      assert d in list;
    }
  }

  /** unlinkNodes only ever removes edges. */
  lemma UnlinkOnlyRemovesEdges(w: Wiring, source: Option<AudioNode>)
    ensures Unlink(w, source).edges <= w.edges
  {
    UnlinkLoopEdges(w, UnlinkList(w.connected, source), 0);
  }

  /** `_connectedNodes` never grows during unlinkNodes: it only loses entries. */
  lemma UnlinkNeverGrows(w: Wiring, source: Option<AudioNode>)
    ensures multiset(Unlink(w, source).connected) <= multiset(w.connected)
    ensures |Unlink(w, source).connected| <= |w.connected|
    ensures forall n :: n in Unlink(w, source).connected ==> n in w.connected
  {
    var r := Unlink(w, source);
    UnlinkLoopShrinks(w, UnlinkList(w.connected, source), 0);
    var a, b := multiset(r.connected), multiset(w.connected);
    assert b == a + (b - a);
    assert |b| == |a| + |b - a|;
    forall n | n in r.connected ensures n in w.connected {
      assert n in multiset(r.connected);
    }
  }

  /** With nothing recorded, unlinkNodes changes nothing and calls nothing. */
  lemma UnlinkWithNothingRecorded(w: Wiring, source: Option<AudioNode>)
    requires w.connected == []
    ensures Unlink(w, source) == w
  {
    KeepInNothing(Reverse(MainsFromDestination + w.connected + SourceSeq(source)));
  }

  // ------------------------------------------------------------------
  // linkNodes
  // ------------------------------------------------------------------

  /** The work list of linkNodes: main nodes, the effects and the source, reversed; a null source is `None`. */
  function LinkList(source: Option<AudioNode>, effects: seq<AudioNode>): seq<Option<AudioNode>>
  {
    Reverse(Lift(MainsFromDestination + effects) + [source])
  }

  /** The nodes the link loop records and the connect calls it makes, in order. */
  datatype LinkSteps = LinkSteps(recorded: seq<AudioNode>, calls: seq<Edge>)

  /**
   * The loop of linkNodes from the iteration with counter `i`, `rest` being
   * what is left of the work list: shift a node, record it when it is not
   * null, stop when it is null or nothing non-null follows it, and otherwise
   * connect it to the node now at the front.
   */
  function LinkLoop(rest: seq<Option<AudioNode>>, i: nat): LinkSteps
    decreases |rest|
  {
    if i < |rest| then
      var node := rest[0];
      var tail := rest[1..];
      var pushed := if node.Some? then [node.value] else [];
      if node.None? || |tail| == 0 || tail[0].None? then LinkSteps(pushed, [])
      else
        var more := LinkLoop(tail, i + 1);
        LinkSteps(pushed + more.recorded, [(node.value, tail[0].value)] + more.calls)
    else LinkSteps([], [])
  }

  /** The link loop past the end of its work list does nothing. */
  lemma LinkLoopDone(rest: seq<Option<AudioNode>>, i: nat)
    requires |rest| <= i
    ensures LinkLoop(rest, i) == LinkSteps([], [])
  {
  }

  /** An iteration of the link loop that ends it: the node is null or nothing non-null follows it. */
  lemma LinkLoopStops(rest: seq<Option<AudioNode>>, i: nat)
    requires i < |rest| && (rest[0].None? || |rest| == 1 || rest[1].None?)
    ensures LinkLoop(rest, i) == LinkSteps(if rest[0].Some? then [rest[0].value] else [], [])
  {
  }

  /** An iteration of the link loop that connects the node to the next one and goes on. */
  lemma LinkLoopGoesOn(rest: seq<Option<AudioNode>>, i: nat)
    requires i < |rest| && rest[0].Some? && |rest| > 1 && rest[1].Some?
    ensures LinkLoop(rest, i) ==
      LinkSteps([rest[0].value] + LinkLoop(rest[1..], i + 1).recorded,
                [(rest[0].value, rest[1].value)] + LinkLoop(rest[1..], i + 1).calls)
  {
  }

  /** The connect loop and the final destination filter of linkNodes, run on `w`. */
  function Link(w: Wiring, source: Option<AudioNode>, effects: seq<AudioNode>): Wiring
  {
    var steps := LinkLoop(LinkList(source, effects), 0);
    Wiring(w.edges + EdgeSet(steps.calls), Without(w.connected + steps.recorded, Destination),
           w.connects + steps.calls, w.disconnects)
  }

  /** The whole of linkNodes: unlinkNodes, then the connect loop. */
  function LinkNodes(w: Wiring, source: Option<AudioNode>, effects: seq<AudioNode>): Wiring
  {
    Link(Unlink(w, source), source, effects)
  }

  /** The signal chain linkNodes walks: source, the effects last to first, then the main chain. */
  function Chain(source: AudioNode, effects: seq<AudioNode>): seq<AudioNode>
  {
    [source] + Reverse(effects) + MainChain
  }

  /** The edges joining each of `chain[i..c]` to its successor. */
  function Successors(chain: seq<AudioNode>, i: nat, c: nat): seq<Edge>
    requires i <= c < |chain|
  {
    seq(c - i, k requires 0 <= k < c - i => (chain[i + k], chain[i + k + 1]))
  }

  /** The joining edges of `chain[i..c]`: the first one, then those of `chain[i + 1..c]`. */
  lemma SuccessorsCons(chain: seq<AudioNode>, i: nat, c: nat)
    requires i < c < |chain|
    ensures Successors(chain, i, c) == [(chain[i], chain[i + 1])] + Successors(chain, i + 1, c)
  {
  }

  /** The link work list starts at the source, runs through the effects last to first and ends with the main chain. */
  lemma LinkListWalksFromSource(source: Option<AudioNode>, effects: seq<AudioNode>)
    ensures LinkList(source, effects) == [source] + Lift(Reverse(effects) + MainChain)
  {
    calc {
      LinkList(source, effects);
      Reverse(Lift(MainsFromDestination + effects) + [source]);
      { ReverseAppend(Lift(MainsFromDestination + effects), [source]); }
      Reverse([source]) + Reverse(Lift(MainsFromDestination + effects));
      { LiftFacts(MainsFromDestination + effects, []); }
      [source] + Lift(Reverse(MainsFromDestination + effects));
      { ReverseAppend(MainsFromDestination, effects); }
      [source] + Lift(Reverse(effects) + Reverse(MainsFromDestination));
      { assert Reverse(MainsFromDestination) == MainChain; }
      [source] + Lift(Reverse(effects) + MainChain);
    }
  }

  /** A non-null source gives the chain with every slot non-null. */
  lemma LinkListOfSource(source: AudioNode, effects: seq<AudioNode>)
    ensures LinkList(Some(source), effects) == Lift(Chain(source, effects))
    ensures |Chain(source, effects)| == |effects| + 5
  {
    LinkListWalksFromSource(Some(source), effects);
    assert ([source] + Reverse(effects)) + MainChain == [source] + (Reverse(effects) + MainChain);
    LiftFacts([source], Reverse(effects) + MainChain);
    assert Lift([source]) == [Some(source)];
  }

  /**
   * The effect pushed last (at the front of `nodes`) sits next to the panner,
   * and the effect pushed first (at the back) sits next to the source.
   */
  lemma EffectOrder(source: Option<AudioNode>, x: AudioNode, effects: seq<AudioNode>)
    ensures LinkList(source, [x] + effects)[|effects| + 1] == Some(x)
    ensures LinkList(source, [x] + effects)[|effects| + 2] == Some(Panner)
    ensures LinkList(source, effects + [x])[1] == Some(x)
  {
    LinkListWalksFromSource(source, [x] + effects);
    LinkListWalksFromSource(source, effects + [x]);
    ReverseAppend([x], effects);
    ReverseAppend(effects, [x]);
  }

  /** Pushing `a` and then `b` gives the order source, a, b, panner, stereo panner, gain, destination. */
  lemma TwoPushesOrder(s: AudioNode, a: AudioNode, b: AudioNode)
    ensures LinkList(Some(s), [b] + [a]) == Lift([s, a, b, Panner, StereoPanner, Gain, Destination])
  {
    LinkListOfSource(s, [b, a]);
    assert Reverse([b, a]) == [a, b];
    assert [s] + [a, b] == [s, a, b];
    assert [s, a, b] + MainChain == [s, a, b, Panner, StereoPanner, Gain, Destination];
  }

  /**
   * On a work list with no null slot, the link loop records the first
   * ceil(n/2) nodes and joins each of them to its successor.
   */
  lemma {:induction false} LinkLoopChain(chain: seq<AudioNode>, i: nat)
    requires 2 <= |chain| && i <= (|chain| + 1) / 2
    ensures LinkLoop(Lift(chain)[i..], i) ==
            LinkSteps(chain[i..(|chain| + 1) / 2], Successors(chain, i, (|chain| + 1) / 2))
    decreases |chain| - i
  {
    var c := (|chain| + 1) / 2;
    var rest := Lift(chain)[i..];
    if i < c {
      assert rest[0] == Some(chain[i]) && rest[1] == Some(chain[i + 1]);
      LinkLoopGoesOn(rest, i);
      assert Lift(chain)[i..][1..] == Lift(chain)[i + 1..];
      LinkLoopChain(chain, i + 1);
      assert chain[i..c] == [chain[i]] + chain[i + 1..c];
      SuccessorsCons(chain, i, c);
    } else {
      assert !(i < |rest|);
    }
  }

  /** With a source, the link loop records the first half of the chain and joins each of its nodes to the next. */
  lemma LinkStepsOfSource(source: AudioNode, effects: seq<AudioNode>)
    ensures |Chain(source, effects)| == |effects| + 5
    ensures LinkLoop(LinkList(Some(source), effects), 0) ==
      LinkSteps(Chain(source, effects)[..(|effects| + 6) / 2], Successors(Chain(source, effects), 0, (|effects| + 6) / 2))
  {
    var chain := Chain(source, effects);
    LinkListOfSource(source, effects);
    LinkLoopChain(chain, 0);
    assert Lift(chain)[0..] == Lift(chain);
  }

  /**
   * With a source and n effects, linkNodes' loop makes exactly ceil((5+n)/2)
   * connect calls, the k-th joining the k-th node of the chain to the next,
   * and records the nodes it connected from.
   */
  lemma LinkConnectCalls(source: AudioNode, effects: seq<AudioNode>)
    ensures |LinkLoop(LinkList(Some(source), effects), 0).calls| == (|effects| + 6) / 2
    ensures forall k :: 0 <= k < |LinkLoop(LinkList(Some(source), effects), 0).calls| ==>
      LinkLoop(LinkList(Some(source), effects), 0).calls[k] == (Chain(source, effects)[k], Chain(source, effects)[k + 1])
    ensures LinkLoop(LinkList(Some(source), effects), 0).recorded == Chain(source, effects)[..(|effects| + 6) / 2]
  {
    LinkStepsOfSource(source, effects);
  }

  /** Without a source, linkNodes' loop records nothing and connects nothing. */
  lemma LinkWithoutSource(w: Wiring, effects: seq<AudioNode>)
    ensures LinkLoop(LinkList(None, effects), 0) == LinkSteps([], [])
    ensures Link(w, None, effects) == w.(connected := Without(w.connected, Destination))
  {
    LinkListWalksFromSource(None, effects);
    assert EdgeSet([]) == {};
    assert w.connected + [] == w.connected;
    assert w.connects + [] == w.connects;
  }

  /**
   * linkNodes keeps the destination out of `_connectedNodes`, adds only the
   * edges of its connect calls, and after its own unlink keeps the rest.
   */
  lemma LinkAddsOnlyItsCalls(w: Wiring, source: Option<AudioNode>, effects: seq<AudioNode>)
    ensures Destination !in Link(w, source, effects).connected
    ensures forall e :: e in Link(w, source, effects).edges <==>
      e in w.edges || e in LinkLoop(LinkList(source, effects), 0).calls
  {
  }

  /** A node with no outgoing edge keeps none through linkNodes when no connect call starts at it. */
  lemma LinkKeepsCut(w: Wiring, source: Option<AudioNode>, effects: seq<AudioNode>, n: AudioNode)
    requires forall x :: (n, x) !in w.edges
    requires forall x :: (n, x) !in LinkLoop(LinkList(source, effects), 0).calls
    ensures forall x :: (n, x) !in LinkNodes(w, source, effects).edges
  {
    UnlinkOnlyRemovesEdges(w, source);
  }

  // ------------------------------------------------------------------
  // A consequence of the half-visiting loops
  // ------------------------------------------------------------------

  /** The wiring of a freshly created sound: the three main edges, nothing recorded, no call made. */
  const Created: Wiring := Wiring(MainEdges, [], [], [])

  /** The link loop's steps for a source and no effect. */
  lemma FirstLinkSteps(s: AudioNode)
    ensures LinkLoop(LinkList(Some(s), []), 0) ==
      LinkSteps([s, Panner, StereoPanner], [(s, Panner), (Panner, StereoPanner), (StereoPanner, Gain)])
  {
    assert Reverse<AudioNode>([]) == [];
    assert Chain(s, []) == [s, Panner, StereoPanner, Gain, Destination];
    LinkStepsOfSource(s, []);
  }

  /** The connect calls of the first link with a source and no effect. */
  function FirstCalls(s: AudioNode): seq<Edge>
  {
    [(s, Panner), (Panner, StereoPanner), (StereoPanner, Gain)]
  }

  /** The wiring right after the first source `s` is linked. */
  function FirstLinked(s: AudioNode): Wiring
  {
    Wiring(MainEdges + EdgeSet(FirstCalls(s)), [s, Panner, StereoPanner], FirstCalls(s), [])
  }

  /** linkNodes on a freshly created sound with a source and no effect. */
  lemma FirstLinkWiring(s: AudioNode)
    requires s.BufferSource?
    ensures LinkNodes(Created, Some(s), []) == FirstLinked(s)
  {
    UnlinkWithNothingRecorded(Created, Some(s));
    FirstLinkSteps(s);
    assert Created.connected + [s, Panner, StereoPanner] == [s, Panner, StereoPanner];
    assert Destination !in [s, Panner, StereoPanner];
    assert Created.connects + FirstCalls(s) == FirstCalls(s);
  }

  /**
   * Once the first source has been linked, the whole signal path
   * source -> panner -> stereo panner -> gain -> destination exists, and
   * `_connectedNodes` holds the source, the panner and the stereo panner.
   */
  lemma FirstLinkWiresWholePath(s: AudioNode)
    requires s.BufferSource?
    ensures (s, Panner) in LinkNodes(Created, Some(s), []).edges
    ensures (Panner, StereoPanner) in LinkNodes(Created, Some(s), []).edges
    ensures (StereoPanner, Gain) in LinkNodes(Created, Some(s), []).edges
    ensures (Gain, Destination) in LinkNodes(Created, Some(s), []).edges
    ensures LinkNodes(Created, Some(s), []).connected == [s, Panner, StereoPanner]
  {
    FirstLinkWiring(s);
  }

  /** The work list of unlinkNodes in that state, with its duplicates. */
  lemma UnlinkListAfterFirstLink(s: AudioNode)
    requires s.BufferSource?
    ensures UnlinkList([s, Panner, StereoPanner], Some(s)) == [s, StereoPanner, Panner, s, Panner, StereoPanner]
  {
    var c := [s, Panner, StereoPanner];
    var all := MainsFromDestination + c + SourceSeq(Some(s));
    assert all == [Destination, Gain, StereoPanner, Panner, s, Panner, StereoPanner, s];
    assert Reverse(all) == [s, StereoPanner, Panner, s, Panner, StereoPanner, Gain, Destination];
    assert Reverse(all) == [s, StereoPanner, Panner, s] + [Panner, StereoPanner, Gain, Destination];
    KeepInAppend([s, StereoPanner, Panner, s], [Panner, StereoPanner, Gain, Destination], c);
    KeepInFront(s);
    KeepInBack(s);
  }

  /** The unlink filter on the reversed front of that work list: source, stereo panner, panner and source are all recorded. */
  lemma KeepInFront(s: AudioNode)
    requires s.BufferSource?
    ensures KeepIn([s, StereoPanner, Panner, s], [s, Panner, StereoPanner]) == [s, StereoPanner, Panner, s]
  {
    var c := [s, Panner, StereoPanner];
    KeepInCons(s, [], c);
    KeepInCons(Panner, [s], c);
    KeepInCons(StereoPanner, [Panner, s], c);
    KeepInCons(s, [StereoPanner, Panner, s], c);
  }

  /** The unlink filter on the reversed main nodes: only the stereo panner and the panner are recorded. */
  lemma KeepInBack(s: AudioNode)
    requires s.BufferSource?
    ensures KeepIn([Panner, StereoPanner, Gain, Destination], [s, Panner, StereoPanner]) == [Panner, StereoPanner]
  {
    var c := [s, Panner, StereoPanner];
    KeepInCons(Destination, [], c);
    KeepInCons(Gain, [Destination], c);
    KeepInCons(StereoPanner, [Gain, Destination], c);
    KeepInCons(Panner, [StereoPanner, Gain, Destination], c);
  }

  /**
   * From that state, unlinkNodes handles the source, the stereo panner and
   * the panner (three of its six work-list entries), so the stereo panner's
   * edge to the gain goes.
   */
  lemma UnlinkAfterFirstLinkCutsStereoPanner(s: AudioNode)
    requires s.BufferSource?
    ensures Unlink(LinkNodes(Created, Some(s), []), Some(s)).disconnects == [s, StereoPanner, Panner]
    ensures forall x :: (StereoPanner, x) !in Unlink(LinkNodes(Created, Some(s), []), Some(s)).edges
  {
    FirstLinkWiring(s);
    UnlinkFirstLinked(s);
  }

  /** unlinkNodes on the wiring of the first link, as the unlink loop over its six-entry work list. */
  lemma UnlinkFirstLinked(s: AudioNode)
    requires s.BufferSource?
    ensures Unlink(FirstLinked(s), Some(s)).disconnects == [s, StereoPanner, Panner]
    ensures forall x :: (StereoPanner, x) !in Unlink(FirstLinked(s), Some(s)).edges
  {
    var loaded := FirstLinked(s);
    UnlinkListAfterFirstLink(s);
    var list := UnlinkList(loaded.connected, Some(s));
    var handled := [s, StereoPanner, Panner];
    ProcessedIsHalf(6, 0);
    assert list[..Processed(|list|, 0)] == handled;
    UnlinkLoopEdges(loaded, list, 0);
    UnlinkLoopLogs(loaded, list, 0);
    assert loaded.disconnects + handled == handled;
    forall x ensures (StereoPanner, x) !in Unlink(loaded, Some(s)).edges {
      assert StereoPanner in handled;
    }
  }


  /** The first three joining edges of a chain of at least four nodes. */
  lemma FirstThreeSuccessors(chain: seq<AudioNode>)
    requires 4 <= |chain|
    ensures Successors(chain, 0, 3) == [(chain[0], chain[1]), (chain[1], chain[2]), (chain[2], chain[3])]
  {
    SuccessorsCons(chain, 0, 3);
    SuccessorsCons(chain, 1, 3);
    SuccessorsCons(chain, 2, 3);
    assert Successors(chain, 3, 3) == [];
  }

  /** The link loop's connect calls for a source and one effect. */
  lemma PushLinkSteps(s: AudioNode, e: AudioNode)
    ensures LinkLoop(LinkList(Some(s), [e]), 0).calls == [(s, e), (e, Panner), (Panner, StereoPanner)]
  {
    LinkStepsOfSource(s, [e]);
    var chain := Chain(s, [e]);
    FirstThreeSuccessors(chain);
    assert Reverse([e]) == [e];
    assert chain[0] == s && chain[1] == e && chain[2] == Panner && chain[3] == StereoPanner;
  }

  /**
   * Pushing one effect onto a loaded sound (unlinkNodes, then linkNodes)
   * leaves the stereo panner with no outgoing edge: linkNodes' own unlink only
   * removes edges, and its loop connects source -> effect -> panner -> stereo
   * panner and stops there, so nothing reaches the gain or the destination.
   */
  lemma PushAfterLoadCutsStereoPanner(s: AudioNode, e: AudioNode)
    requires s.BufferSource? && e.Effect?
    ensures forall x :: (StereoPanner, x) !in LinkNodes(Unlink(LinkNodes(Created, Some(s), []), Some(s)), Some(s), [e]).edges
  {
    UnlinkAfterFirstLinkCutsStereoPanner(s);
    PushLinkSteps(s, e);
    LinkKeepsCut(Unlink(LinkNodes(Created, Some(s), []), Some(s)), Some(s), [e], StereoPanner);
  }
}
