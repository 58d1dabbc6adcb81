/**
 * The `Sound` class of ts/Sound.ts and the `SoundPosition` class of
 * ts/SoundPosition.ts. The two files import each other, so both classes
 * live in one module.
 *
 * The host audio engine is ghost state. The graph is a set of edges with
 * logs of the connect and disconnect calls. The gain, stereo pan, detune
 * and loop parameters are ghost fields, and so are the start and stop calls
 * made on source nodes and the loads begun by `makeSourceNode`. The gain,
 * stereo panner and 3D panner nodes are the fixed identifiers `Gain`,
 * `StereoPanner` and `Panner`. The 3D panner also has a `PannerNode` object
 * that holds the position the sound writes into it.
 */
module SimpleSound {
  import opened Wrappers
  import opened JsArray
  import opened AudioGraph
  import opened Linking
  import opened Resolution

  /** `_config`: what the accessors read and write. */
  datatype SoundConfig = SoundConfig(src: SoundSource, volume: real, pitch: real, pan: real, loop: bool)

  /** The one error the public methods throw: "The Sound hasn't finished loading yet!". */
  datatype SoundError = NotLoaded

  /**
   * The node parameters the sound sets: the gain node's gain, the stereo
   * panner's pan, and the current source node's detune and loop.
   */
  datatype NodeParams = NodeParams(gain: real, stereoPan: real, detune: real, loop: bool)

  /** The arguments of a `start(when, offset, duration)` call on a source node; `None` is an omitted argument. */
  datatype StartCall = StartCall(when: Option<real>, offset: Option<real>, duration: Option<real>)

  function Min(a: real, b: real): real { if a <= b then a else b }

  function Max(a: real, b: real): real { if a >= b then a else b }

  /** `Math.max(Math.min(p, 100), -100)`: `p` clamped to [-100, 100]. */
  function ClampPan(p: real): (r: real)
    ensures -100.0 <= r <= 100.0
    ensures -100.0 <= p <= 100.0 ==> r == p
    ensures p > 100.0 ==> r == 100.0
    ensures p < -100.0 ==> r == -100.0
  {
    Max(Min(p, 100.0), -100.0)
  }

  /** Whether a buffer is one the load begun with `plan` can settle with. */
  predicate Settles(plan: BufferPlan, resolved: AudioBuffer)
  {
    match plan
      case UseCached(cached) => resolved == cached
      case UseDecoded(decoded) => resolved == decoded
      // decoded by the host: any buffer
      case DecodeBytes(_) => true
      case FetchAndDecode(_) => true
  }

  /**
   * What `popNode(node)` does to the effect stack: the new stack and the
   * returned node. With a node, its first occurrence goes (null and no change
   * when it is absent); without one, the last effect goes (null on an empty
   * stack).
   */
  function PopEffect(items: seq<AudioNode>, node: Option<AudioNode>): (seq<AudioNode>, Option<AudioNode>)
  {
    if node.Some? then
      var idx := IndexOf(items, node.value);
      if idx == -1 then (items, None) else (SpliceOne(items, idx), node)
    else if |items| == 0 then (items, None)
    else (items[..|items| - 1], Some(items[|items| - 1]))
  }

  /** The effect stack after `popNode`, stated without `indexOf` and `splice`. */
  lemma PopEffectFacts(items: seq<AudioNode>, node: Option<AudioNode>)
    ensures node.Some? && node.value !in items ==> PopEffect(items, node) == (items, None)
    ensures node.Some? && node.value in items ==>
      var k := IndexOf(items, node.value);
      && PopEffect(items, node).1 == node
      && 0 <= k && items[k] == node.value && node.value !in items[..k]
      && PopEffect(items, node).0 == items[..k] + items[k + 1..]
      && multiset(PopEffect(items, node).0) == multiset(items) - multiset{node.value}
    ensures node.None? && items == [] ==> PopEffect(items, node) == ([], None)
    ensures node.None? && items != [] ==>
      PopEffect(items, node) == (items[..|items| - 1], Some(items[|items| - 1]))
  {
    if node.Some? {
      SpliceIndexOfRemoves(items, node.value);
    }
  }

  /** A point in 3D space, like three.js' Vector3. */
  class SoundPosition {
    var x: real
    var y: real
    var z: real

    /** Omitted coordinates are 0. */
    constructor (x: real := 0.0, y: real := 0.0, z: real := 0.0)
      ensures this.x == x && this.y == y && this.z == z
    {
      this.x := x;
      this.y := y;
      this.z := z;
    }

    /** A new position object with the same coordinates. */
    method Copy() returns (c: SoundPosition)
      ensures fresh(c)
      ensures c.x == x && c.y == y && c.z == z
    {
      c := new SoundPosition();
      c.x := x;
      c.y := y;
      c.z := z;
    }

    /** Writes the coordinates into the sound's panner; nothing else changes. */
    method UpdateSoundPosition(sound: Sound)
      requires sound.panner != null
      modifies sound.panner
      ensures sound.panner.positionX == x && sound.panner.positionY == y && sound.panner.positionZ == z
      ensures unchanged(sound)
    {
      sound.panner.positionX := x;
      sound.panner.positionY := y;
      sound.panner.positionZ := z;
    }
  }

  class Sound {
    /** `window.location.origin`, which relative sources are fetched from. */
    const origin: string

    var config: SoundConfig
    var panner: PannerNode?
    var source: Option<AudioNode>
    /** `nodes`, the effect stack: an array object that a copy shares. */
    var nodes: NodeArray
    var buffer: Option<AudioBuffer>
    var samplesCache: seq<seq<real>>
    var connectedNodes: seq<AudioNode>
    var hasPlayedYet: bool
    var saveOffset: real
    var pos: SoundPosition
    /** How many source nodes `createBufferSource` has made, so each new one is a new identifier. */
    var createdSources: nat

    // The host's side.
    ghost var edges: set<Edge>
    ghost var connects: seq<Edge>
    ghost var disconnects: seq<AudioNode>
    ghost var params: NodeParams
    ghost var suspended: bool
    ghost var starts: seq<(AudioNode, StartCall)>
    ghost var stops: seq<AudioNode>
    /**
     * The loads begun by `makeSourceNode` and not yet settled, oldest first,
     * each with the way its buffer promise settles.
     */
    ghost var pendingLoads: seq<BufferPlan>

    /** The state relinking works on. */
    ghost function Wires(): Wiring
      reads this`edges, this`connectedNodes, this`connects, this`disconnects
    {
      Wiring(edges, connectedNodes, connects, disconnects)
    }

    /** The guard of `samples`, `play`, `pause` and `stop`. */
    predicate Loaded()
      reads this`buffer, this`source
    {
      buffer.Some? && source.Some?
    }

    /**
     * What holds between calls. The main nodes exist. The stored pan is in
     * [-1, 1]. The destination is never recorded. The loads are consistent.
     */
    ghost predicate Valid()
      reads this`panner, this`config, this`connectedNodes, this`source, this`buffer, this`pendingLoads
    {
      && panner != null
      && -1.0 <= config.pan <= 1.0
      && Destination !in connectedNodes
      && LoadsAgree()
    }

    /**
     * A source and a buffer appear together. Before the first load settles,
     * only that load is pending; after it, every pending load settles with
     * the buffer held.
     */
    ghost predicate LoadsAgree()
      reads this`source, this`buffer, this`pendingLoads
    {
      && (source.Some? <==> buffer.Some?)
      && (buffer.None? ==> |pendingLoads| <= 1)
      && (buffer.Some? ==> forall k :: 0 <= k < |pendingLoads| ==> pendingLoads[k] == UseCached(buffer.value))
    }

    /** The host parameters hold what `configureNodes` last wrote from `_config` and the position. */
    ghost predicate Configured()
      reads this`panner, this`pos, this`params, this`config, this`source, panner, pos
    {
      && panner != null
      && params.gain == config.volume
      && params.stereoPan == config.pan
      && panner.positionX == pos.x && panner.positionY == pos.y && panner.positionZ == pos.z
      && (source.Some? ==> params.detune == config.pitch && params.loop == config.loop)
    }

    /**
     * `new Sound(src)` up to `makeSourceNode`'s await: default config,
     * `createNodes` (which wires panner -> stereo panner -> gain ->
     * destination once and configures the nodes) and the first load begun.
     */
    constructor (src: SoundSource, origin: string)
      ensures Valid() && Configured()
      ensures this.origin == origin
      ensures config == SoundConfig(src, 1.0, 1.0, 0.0, false)
      ensures Volume() == 100.0 && Pitch() == 1.0 && Pan() == 0.0 && !Loop()
      ensures Duration() == 0.0 && NumOfChannels() == 0 && SampleRate() == 0.0
      ensures source == None && buffer == None && !hasPlayedYet && saveOffset == 0.0
      ensures fresh(nodes) && nodes.items == []
      ensures fresh(pos) && pos.x == 0.0 && pos.y == 0.0 && pos.z == 0.0
      ensures fresh(panner)
      ensures Wires() == Created
      ensures params.gain == 1.0 && params.stereoPan == 0.0
      ensures starts == [] && stops == []
      ensures pendingLoads == [PlanResolution(None, src, origin)]
    {
      this.origin := origin;
      config := SoundConfig(src, 1.0, 1.0, 0.0, false);
      source := None;
      nodes := new NodeArray();
      buffer := None;
      samplesCache := [];
      connectedNodes := [];
      hasPlayedYet := false;
      saveOffset := 0.0;
      pos := new SoundPosition();
      createdSources := 0;
      // createNodes: the three connect calls leave the main edges.
      panner := new PannerNode();
      edges := MainEdges;
      connects := [];
      disconnects := [];
      starts := [];
      stops := [];
      new;
      ConfigureNodes();
      // makeSourceNode(), up to its await.
      pendingLoads := [PlanResolution(buffer, config.src, origin)];
    }

    // ------------------------------------------------------------------
    // Accessors
    // ------------------------------------------------------------------

    /** `volume`: the stored volume times 100. */
    function Volume(): real
      reads this
    {
      config.volume * 100.0
    }

    function Pitch(): real
      reads this
    {
      config.pitch
    }

    /** `pan`: the stored pan times 100. */
    function Pan(): real
      reads this
    {
      config.pan * 100.0
    }

    function Loop(): bool
      reads this
    {
      config.loop
    }

    function Src(): SoundSource
      reads this
    {
      config.src
    }

    /** `duration`: 0 while no buffer is held. */
    function Duration(): real
      reads this
    {
      if buffer.None? then 0.0 else buffer.value.duration
    }

    /** `numOfChannels`: 0 while no buffer is held. */
    function NumOfChannels(): nat
      reads this
    {
      if buffer.None? then 0 else buffer.value.NumberOfChannels()
    }

    /** `sampleRate`: 0 while no buffer is held. */
    function SampleRate(): real
      reads this
    {
      if buffer.None? then 0.0 else buffer.value.sampleRate
    }

    /** `configureNodes`: pushes the config and the position into the host's node parameters. */
    method ConfigureNodes()
      requires panner != null
      modifies this`params, panner
      ensures Configured()
      ensures source.None? ==> params.detune == old(params.detune) && params.loop == old(params.loop)
    {
      params := params.(gain := config.volume);
      pos.UpdateSoundPosition(this);
      params := params.(stereoPan := config.pan);
      if source.Some? {
        params := params.(detune := config.pitch, loop := config.loop);
      }
    }

    /** `volume = v`: stores v / 100, so reading `volume` gives v back. */
    method SetVolume(v: real)
      requires Valid()
      modifies this`config, this`params, panner
      ensures Valid() && Configured()
      ensures config == old(config).(volume := v / 100.0)
      ensures Volume() == v
    {
      config := config.(volume := v / 100.0);
      ConfigureNodes();
    }

    /** `pitch = p`: stored as it is. */
    method SetPitch(p: real)
      requires Valid()
      modifies this`config, this`params, panner
      ensures Valid() && Configured()
      ensures config == old(config).(pitch := p)
      ensures Pitch() == p
    {
      config := config.(pitch := p);
      ConfigureNodes();
    }

    /** `pan = p`: stores p clamped to [-100, 100] and divided by 100. */
    method SetPan(p: real)
      requires Valid()
      modifies this`config, this`params, panner
      ensures Valid() && Configured()
      ensures config == old(config).(pan := ClampPan(p) / 100.0)
      ensures Pan() == ClampPan(p)
      ensures -1.0 <= config.pan <= 1.0
    {
      config := config.(pan := ClampPan(p) / 100.0);
      ConfigureNodes();
    }

    /** `loop = l`. */
    method SetLoop(l: bool)
      requires Valid()
      modifies this`config, this`params, panner
      ensures Valid() && Configured()
      ensures config == old(config).(loop := l)
      ensures Loop() == l
    {
      config := config.(loop := l);
      ConfigureNodes();
    }

    /** `pos = p`: the sound now holds `p` itself and the panner takes its coordinates. */
    method SetPos(p: SoundPosition)
      requires Valid()
      modifies this`pos, this`params, panner
      ensures Valid() && Configured()
      ensures pos == p
    {
      pos := p;
      ConfigureNodes();
    }

    /**
     * `src = s`: stores the source, then calls `stop` (which throws when
     * nothing is loaded, after the source was stored) and `makeSourceNode`.
     * Both loads begun find the buffer already held, so both settle with it:
     * the new source is never fetched or decoded.
     */
    method SetSrc(s: SoundSource) returns (r: Outcome<SoundError>)
      requires Valid()
      modifies this`config, this`saveOffset, this`suspended, this`stops, this`pendingLoads
      ensures Valid()
      ensures config == old(config).(src := s)
      ensures r.Fail? <==> !old(Loaded())
      ensures r.Fail? ==> r.error == NotLoaded && pendingLoads == old(pendingLoads) && saveOffset == old(saveOffset)
      ensures r.Fail? ==> stops == old(stops) && suspended == old(suspended)
      ensures r.Pass? ==> saveOffset == 0.0 && suspended && stops == old(stops) + [source.value]
      ensures r.Pass? ==> pendingLoads == old(pendingLoads) + [UseCached(buffer.value), UseCached(buffer.value)]
    {
      config := config.(src := s);
      r := Stop();
      if r.Fail? {
        return;
      }
      pendingLoads := pendingLoads + [PlanResolution(buffer, config.src, origin)];
    }

    /**
     * `samples`: throws when nothing is loaded; otherwise, while the cache is
     * empty, copies every channel of the buffer into it.
     */
    method Samples() returns (r: Result<seq<seq<real>>, SoundError>)
      modifies this`samplesCache
      ensures !Loaded() ==> r == Failure(NotLoaded) && samplesCache == old(samplesCache)
      ensures Loaded() && old(samplesCache) == [] ==> samplesCache == buffer.value.channels && r == Success(samplesCache)
      ensures Loaded() && old(samplesCache) != [] ==> samplesCache == old(samplesCache) && r == Success(samplesCache)
    {
      if buffer.None? || source.None? {
        return Failure(NotLoaded);
      }
      if |samplesCache| == 0 {
        var channels := buffer.value.NumberOfChannels();
        var result: seq<seq<real>> := [];
        var i := 0;
        while i < channels
          invariant 0 <= i <= channels
          invariant result == buffer.value.channels[..i]
        {
          result := result + [buffer.value.channels[i]];
          i := i + 1;
        }
        samplesCache := result;
        return Success(result);
      } else {
        return Success(samplesCache);
      }
    }

    // ------------------------------------------------------------------
    // Linking
    // ------------------------------------------------------------------

    /**
     * `unlinkNodes`: the filtered work list, then the loop that shifts it
     * while counting up. A null work-list entry cannot occur (the filter
     * keeps recorded nodes only), so the loop's `break` on one never fires.
     */
    method UnlinkNodes()
      modifies this`edges, this`connectedNodes, this`disconnects
      ensures Wires() == Unlink(old(Wires()), source)
      ensures old(Destination !in connectedNodes) ==> Destination !in connectedNodes
    {
      var work := MainsFromDestination + connectedNodes;
      work := work + SourceSeq(source);
      work := Reverse(work);
      work := KeepIn(work, connectedNodes);
      var i := 0;
      while i < |work|
        invariant UnlinkLoop(Wires(), work, i) == Unlink(old(Wires()), source)
        decreases |work| - i
      {
        var node := work[0];
        work := work[1..];
        edges := Disconnect(edges, node);
        disconnects := disconnects + [node];
        connectedNodes := SpliceOne(connectedNodes, IndexOf(connectedNodes, node));
        i := i + 1;
      }
      UnlinkNeverGrows(old(Wires()), source);
    }

    /**
     * `linkNodes`: `unlinkNodes`, then the connect loop on the work list
     * (main nodes, effects and source, reversed), then the destination filter.
     */
    method LinkNodes()
      requires Valid()
      modifies this`edges, this`connectedNodes, this`disconnects, this`connects
      ensures Valid()
      ensures Wires() == Linking.LinkNodes(old(Wires()), source, nodes.items)
    {
      ghost var loads := (panner, config, source, buffer, pendingLoads);
      UnlinkNodes();
      assert (panner, config, source, buffer, pendingLoads) == loads;
      ConnectChain();
    }

    /** `linkNodes` after its own `unlinkNodes`: the connect loop over the work list, then the destination filter. */
    method ConnectChain()
      requires Valid()
      modifies this`edges, this`connectedNodes, this`connects
      ensures Valid()
      ensures Wires() == Link(old(Wires()), source, nodes.items)
    {
      var work := Lift(MainsFromDestination + nodes.items);
      work := work + [source];
      work := Reverse(work);
      ghost var loads := (panner, config, source, buffer, pendingLoads);
      ConnectLoop(work);
      assert (panner, config, source, buffer, pendingLoads) == loads;
      connectedNodes := Without(connectedNodes, Destination);
    }

    /**
     * The loop of `linkNodes`, which shifts the work list while counting up:
     * record each non-null node, stop at a null one or when no non-null node
     * follows, and otherwise connect it to the node now at the front.
     */
    method ConnectLoop(work0: seq<Option<AudioNode>>)
      modifies this`edges, this`connectedNodes, this`connects
      ensures connectedNodes == old(connectedNodes) + LinkLoop(work0, 0).recorded
      ensures connects == old(connects) + LinkLoop(work0, 0).calls
      ensures edges == old(edges) + EdgeSet(LinkLoop(work0, 0).calls)
    {
      var work := work0;
      ghost var all := LinkLoop(work0, 0);
      ghost var recorded: seq<AudioNode> := [];
      ghost var made: seq<Edge> := [];
      var i := 0;
      while i < |work|
        invariant connectedNodes == old(connectedNodes) + recorded
        invariant connects == old(connects) + made && edges == old(edges) + EdgeSet(made)
        invariant recorded + LinkLoop(work, i).recorded == all.recorded
        invariant made + LinkLoop(work, i).calls == all.calls
        decreases |work| - i
      {
        ghost var before := work;
        var node := work[0];
        work := work[1..];
        if node.None? {
          LinkLoopStops(before, i);
          AppendEmpty(recorded);
          AppendEmpty(made);
          break;
        }
        connectedNodes := connectedNodes + [node.value];
        if |work| == 0 || work[0].None? {
          LinkLoopStops(before, i);
          AppendEmpty(made);
          recorded := recorded + [node.value];
          break;
        }
        LinkLoopGoesOn(before, i);
        var edge := (node.value, work[0].value);
        edges, connects := edges + {edge}, connects + [edge];
        EdgeSetPush(made, edge);
        ghost var more := LinkLoop(work, i + 1);
        SeqShift(made, edge, more.calls);
        SeqShift(recorded, node.value, more.recorded);
        recorded := recorded + [node.value];
        made := made + [edge];
        i := i + 1;
      }
      if |work| <= i {
        LinkLoopDone(work, i);
        AppendEmpty(recorded);
        AppendEmpty(made);
      }
    }

    /** `unlinkNodes()` then `linkNodes()`, the relinking that `pushNode` and `popNode` end with. */
    method Relink()
      requires Valid()
      modifies this`edges, this`connectedNodes, this`disconnects, this`connects
      ensures Valid()
      ensures Wires() == Linking.LinkNodes(Unlink(old(Wires()), source), source, nodes.items)
    {
      ghost var loads := (panner, config, source, buffer, pendingLoads);
      UnlinkNodes();
      assert (panner, config, source, buffer, pendingLoads) == loads;
      ghost var mid := Wires();
      LinkNodes();
      assert mid == Unlink(old(Wires()), source);
    }

    /** `pushNode(n)`: puts `n` at the front of the effect stack (next to the panner) and relinks. */
    method PushNode(n: AudioNode)
      requires Valid()
      modifies nodes, this`edges, this`connectedNodes, this`disconnects, this`connects
      ensures Valid()
      ensures nodes.items == [n] + old(nodes.items)
      ensures Wires() == Linking.LinkNodes(Unlink(old(Wires()), source), source, nodes.items)
    {
      nodes.items := [n] + nodes.items;
      Relink();
    }

    /**
     * `popNode(node)`: changes the effect stack as `PopEffect` says and
     * relinks, except when the node given is absent, in which case it returns
     * null at once.
     */
    method PopNode(node: Option<AudioNode>) returns (r: Option<AudioNode>)
      requires Valid()
      modifies nodes, this`edges, this`connectedNodes, this`disconnects, this`connects
      ensures Valid()
      ensures (nodes.items, r) == PopEffect(old(nodes.items), node)
      ensures node.Some? && node.value !in old(nodes.items) ==> Wires() == old(Wires())
      ensures node.None? || node.value in old(nodes.items) ==>
        Wires() == Linking.LinkNodes(Unlink(old(Wires()), source), source, nodes.items)
    {
      ghost var items := nodes.items;
      if node.Some? {
        var idx := IndexOf(nodes.items, node.value);
        if idx == -1 {
          return None;
        }
        nodes.items := SpliceOne(nodes.items, idx);
        r := node;
      } else if |nodes.items| == 0 {
        r := None;
      } else {
        r := Some(nodes.items[|nodes.items| - 1]);
        nodes.items := nodes.items[..|nodes.items| - 1];
      }
      assert (nodes.items, r) == PopEffect(items, node);
      Relink();
    }

    // ------------------------------------------------------------------
    // Source making and playback
    // ------------------------------------------------------------------

    /**
     * `makeSourceNode` after its await, given the buffer the oldest pending
     * load settled with: unlink the old source, make a new source node on
     * that buffer and link. The new node keeps its default detune (0) and
     * loop (false): `configureNodes` is not called here, so the configured
     * pitch and loop do not reach it.
     */
    method MakeSourceNode(resolved: AudioBuffer)
      requires Valid()
      requires |pendingLoads| > 0 && Settles(pendingLoads[0], resolved)
      modifies this`source, this`buffer, this`hasPlayedYet, this`createdSources, this`params,
               this`pendingLoads, this`edges, this`connectedNodes, this`disconnects, this`connects
      ensures Valid()
      ensures old(buffer).Some? ==> resolved == old(buffer).value
      ensures buffer == Some(resolved) && source == Some(BufferSource(old(createdSources)))
      ensures Duration() == resolved.duration && NumOfChannels() == |resolved.channels| && SampleRate() == resolved.sampleRate
      ensures createdSources == old(createdSources) + 1
      ensures !hasPlayedYet && params == old(params).(detune := 0.0, loop := false)
      ensures pendingLoads == old(pendingLoads)[1..]
      ensures old(source).Some? ==> Wires() == Linking.LinkNodes(Unlink(old(Wires()), old(source)), source, nodes.items)
      ensures old(source).None? ==> Wires() == Linking.LinkNodes(old(Wires()), source, nodes.items)
    {
      assert buffer.Some? ==> pendingLoads[0] == UseCached(buffer.value) && resolved == buffer.value;
      ghost var w0 := Wires();
      DropSource();
      ghost var w1 := Wires();
      var s := BufferSource(createdSources);
      createdSources := createdSources + 1;
      buffer := Some(resolved);
      hasPlayedYet := false;
      source := Some(s);
      params := params.(detune := 0.0, loop := false);
      pendingLoads := pendingLoads[1..];
      assert Valid();
      assert Wires() == w1;
      LinkNodes();
    }

    /** The first lines of `makeSourceNode` after its await: an existing source is unlinked and dropped. */
    method DropSource()
      modifies this`source, this`edges, this`connectedNodes, this`disconnects
      ensures source == None
      ensures old(source).Some? ==> Wires() == Unlink(old(Wires()), old(source))
      ensures old(source).None? ==> Wires() == old(Wires())
      ensures old(Destination !in connectedNodes) ==> Destination !in connectedNodes
    {
      if source.Some? {
        UnlinkNodes();
        source := None;
      }
    }

    /**
     * The oldest pending load rejects (the request or the decode failed):
     * `makeSourceNode` stops at its await and changes nothing. Only a load
     * that fetches or decodes can fail.
     */
    method LoadFails()
      requires Valid()
      requires |pendingLoads| > 0 && (pendingLoads[0].DecodeBytes? || pendingLoads[0].FetchAndDecode?)
      modifies this`pendingLoads
      ensures Valid()
      ensures pendingLoads == old(pendingLoads)[1..]
    {
      pendingLoads := pendingLoads[1..];
    }

    /**
     * `play(when, offset, duration)`. It throws when nothing is loaded. A
     * source that has already played is replaced by a new load instead.
     * Otherwise a saved pause offset replaces `when` and is cleared, the
     * context resumes, and the source starts.
     */
    method Play(when: Option<real>, offset: Option<real>, duration: Option<real>) returns (r: Outcome<SoundError>)
      requires Valid()
      modifies this`saveOffset, this`hasPlayedYet, this`suspended, this`starts, this`pendingLoads
      ensures Valid()
      ensures r.Fail? <==> !Loaded()
      ensures r.Fail? ==> r.error == NotLoaded && unchanged(this)
      ensures r.Pass? && old(hasPlayedYet) ==> pendingLoads == old(pendingLoads) + [UseCached(buffer.value)]
      ensures r.Pass? && old(hasPlayedYet) ==> hasPlayedYet && saveOffset == old(saveOffset) && starts == old(starts)
      ensures r.Pass? && old(hasPlayedYet) ==> suspended == old(suspended)
      ensures r.Pass? && !old(hasPlayedYet) ==>
        && hasPlayedYet && !suspended && saveOffset == 0.0 && pendingLoads == old(pendingLoads)
        && starts == old(starts) + [(source.value, StartCall(if old(saveOffset) != 0.0 then Some(old(saveOffset)) else when, offset, duration))]
    {
      if buffer.None? || source.None? {
        return Fail(NotLoaded);
      }
      if hasPlayedYet {
        // makeSourceNode(), up to its await.
        pendingLoads := pendingLoads + [PlanResolution(buffer, config.src, origin)];
        return Pass;
      }
      var w := when;
      if saveOffset != 0.0 {
        w := Some(saveOffset);
        saveOffset := 0.0;
      }
      suspended := false;
      hasPlayedYet := true;
      starts := starts + [(source.value, StartCall(w, offset, duration))];
      return Pass;
    }

    /**
     * `pause()`, with the context's current time as `now`: throws when
     * nothing is loaded; otherwise saves `now` as the offset, suspends the
     * context, stops the source and begins a new load.
     */
    method Pause(now: real) returns (r: Outcome<SoundError>)
      requires Valid()
      modifies this`saveOffset, this`suspended, this`stops, this`pendingLoads
      ensures Valid()
      ensures r.Fail? <==> !Loaded()
      ensures r.Fail? ==> r.error == NotLoaded && unchanged(this)
      ensures r.Pass? ==> saveOffset == now && suspended && stops == old(stops) + [source.value]
      ensures r.Pass? ==> pendingLoads == old(pendingLoads) + [UseCached(buffer.value)]
    {
      if buffer.None? || source.None? {
        return Fail(NotLoaded);
      }
      saveOffset := now;
      suspended := true;
      stops := stops + [source.value];
      pendingLoads := pendingLoads + [PlanResolution(buffer, config.src, origin)];
      return Pass;
    }

    /**
     * `stop()`: throws when nothing is loaded; otherwise clears the saved
     * offset, suspends the context, stops the source and begins a new load.
     */
    method Stop() returns (r: Outcome<SoundError>)
      requires Valid()
      modifies this`saveOffset, this`suspended, this`stops, this`pendingLoads
      ensures Valid()
      ensures r.Fail? <==> !Loaded()
      ensures r.Fail? ==> r.error == NotLoaded && unchanged(this)
      ensures r.Pass? ==> saveOffset == 0.0 && suspended && stops == old(stops) + [source.value]
      ensures r.Pass? ==> pendingLoads == old(pendingLoads) + [UseCached(buffer.value)]
    {
      if buffer.None? || source.None? {
        return Fail(NotLoaded);
      }
      saveOffset := 0.0;
      suspended := true;
      stops := stops + [source.value];
      pendingLoads := pendingLoads + [PlanResolution(buffer, config.src, origin)];
      return Pass;
    }

    /** `copy`'s first assignments to the new sound: pitch, volume, the shared effect stack and loop. */
    method CopyTone(cfg: SoundConfig, effects: NodeArray)
      requires Valid()
      modifies this`config, this`params, panner, this`nodes
      ensures Valid() && Configured()
      ensures config == old(config).(pitch := cfg.pitch, volume := cfg.volume, loop := cfg.loop)
      ensures nodes == effects
    {
      SetPitch(cfg.pitch);
      SetVolume(cfg.volume * 100.0);
      nodes := effects;
      SetLoop(cfg.loop);
    }

    /** `copy`'s last assignments to the new sound: the position, the saved offset and the pan. */
    method CopyPlace(p: SoundPosition, offset: real, pan: real)
      requires Valid() && -1.0 <= pan <= 1.0
      modifies this`pos, this`params, panner, this`saveOffset, this`config
      ensures Valid() && Configured()
      ensures pos == p && saveOffset == offset
      ensures config == old(config).(pan := pan)
    {
      SetPos(p);
      saveOffset := offset;
      SetPan(pan * 100.0);
    }

    /**
     * `copy()`: a new sound on the same source with the same config, a copy
     * of the position and the saved offset, and the same effect stack
     * object, so a push or pop on either sound changes both stacks.
     */
    method Copy() returns (c: Sound)
      requires Valid()
      ensures fresh(c) && c.Valid() && c.Configured()
      ensures c.config == config && c.origin == origin
      ensures c.nodes == nodes
      ensures fresh(c.pos) && c.pos.x == pos.x && c.pos.y == pos.y && c.pos.z == pos.z
      ensures c.saveOffset == saveOffset
      ensures c.source == None && c.buffer == None && c.Wires() == Created
      ensures c.pendingLoads == [PlanResolution(None, config.src, origin)]
    {
      var cfg, offset, effects, position := config, saveOffset, nodes, pos;
      c := new Sound(cfg.src, origin);
      ghost var fromStart := (c.source, c.buffer, c.Wires(), c.pendingLoads);
      assert fresh(c.panner);
      c.CopyTone(cfg, effects);
      var p := position.Copy();
      c.CopyPlace(p, offset, cfg.pan);
      assert (c.source, c.buffer, c.Wires(), c.pendingLoads) == fromStart;
      assert (config, saveOffset, nodes, pos) == (cfg, offset, effects, position);
    }
  }

  /**
   * A sound made from a decoded buffer, loaded, then given one effect: its
   * stereo panner is left with no outgoing edge, so nothing reaches the
   * gain or the destination.
   */
  method LoadThenPush(b: AudioBuffer, origin: string, e: AudioNode) returns (snd: Sound)
    requires e.Effect?
    ensures snd.Loaded() && snd.nodes.items == [e]
    ensures forall x :: (StereoPanner, x) !in snd.edges
  {
    snd := new Sound(Decoded(b), origin);
    snd.MakeSourceNode(b);
    var s := snd.source.value;
    assert snd.Wires() == Linking.LinkNodes(Created, Some(s), []);
    snd.PushNode(e);
    assert snd.source == Some(s) && snd.nodes.items == [e];
    PushAfterLoadCutsStereoPanner(s, e);
  }
}
