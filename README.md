# simplesound.js in Dafny

A model of the `Sound` class (ts/Sound.ts) and the `SoundPosition` class
(ts/SoundPosition.ts) of simplesound.js, with proofs about it. `Sound` is a
façade over the Web Audio API. It holds a config (source, volume, pitch, pan,
loop) that it keeps in sync with the host's nodes. It also wires a signal
chain: source, caller-supplied effects, 3D panner, stereo panner, gain,
destination. Its relinking code does that wiring; play, pause, stop and copy
complete the class.

Modules, one concept each:

- `Wrappers` (wrappers.dfy): `Option`, `Outcome` (a method that may throw)
  and `Result`.
- `JsArray` (js_array.dfy): the `Array.prototype` operations the code relies
  on, with JavaScript semantics on sequences: `indexOf`, `splice(start, 1)`
  (including `splice(-1, 1)`, which removes the last element), `filter`,
  `reverse`, and nullable slots.
- `AudioGraph` (audio_graph.dfy): nodes as opaque identifiers and the host
  graph as a set of directed edges. `connect(a, b)` adds `a -> b`. A bare
  `disconnect()` removes every edge leaving the node. Also buffers, source
  descriptors, the panner's position fields, and the effect array as a
  shared object.
- `Linking` (linking.dfy): `unlinkNodes` and `linkNodes` as functions on a
  `Wiring` (edges, `_connectedNodes`, and logs of the connect and disconnect
  calls), with their properties.
- `Resolution` (resolution.dfy): `isDirectURL`, the fetch link, and the
  branch of `getSoundBuffer` that settles its promise.
- `SimpleSound` (sound.dfy): the classes `SoundPosition` and `Sound`. Both
  are in one module because the two files import each other. The host's
  side is ghost state of `Sound`:
  - the edges and the call logs;
  - the gain, stereo pan, detune and loop parameters;
  - the start and stop calls;
  - whether the context is suspended;
  - the loads begun by `makeSourceNode` and not yet settled.

The two relinking loops are modelled literally. Each one `shift()`s its work
list while also counting `i` up against the shrinking length, so it visits
only the first ceil(n/2) entries of an n-entry list. `Processed` counts
this, and `UnlinkLoop` and `LinkLoop` follow it step by step. The methods
`UnlinkNodes` and `ConnectLoop` run the same loops on the fields and are
proved equal to those functions. From these functions the lemmas derive:

- exactly ceil((5 + n)/2) connect calls with a source and n effects;
- the effect order;
- what the first link wires;
- the result of pushing an effect onto a loaded sound: the stereo panner
  keeps no outgoing edge, so no signal reaches the gain
  (`PushAfterLoadCutsStereoPanner`, and `LoadThenPush` on the object).

`makeSourceNode` awaits a promise. The model splits it in two:

- The part before the await appends the branch `getSoundBuffer` takes
  (`PlanResolution`) to `pendingLoads`.
- `MakeSourceNode(resolved)` is the part after the await. `LoadFails` is
  the case where the promise rejects. Both handle the oldest pending load.

The invariant `Valid` says four things:

- the main nodes exist;
- the pan is in [-1, 1];
- the destination is never in `_connectedNodes`;
- a source and a buffer appear together, and once a buffer is held, every
  pending load settles with it.

`Configured` says that the host parameters hold what `configureNodes` last
wrote.

Behaviour of the code that the model states outright:

- **Effect order.** `pushNode` puts its node at the front of `nodes`
  (ts/Sound.ts:293-294), and `linkNodes` reverses the work list
  (ts/Sound.ts:270-273). So the effect pushed last sits right before the 3D
  panner, as `pushNode`'s doc comment says (ts/Sound.ts:285-288), and the
  first-pushed effect sits right after the source (`EffectOrder`,
  `TwoPushesOrder`).
- **Partial loops.** Both loops visit only half of their work list
  (ts/Sound.ts:253-259, 274-280), so relinking does not wire the whole
  chain. After one push onto a loaded sound, the stereo panner is cut off
  (`PushAfterLoadCutsStereoPanner`). The model makes no claim that
  `unlinkNodes` is idempotent or that `linkNodes` wires every node.
- **No source.** Without a source, `linkNodes` connects nothing
  (ts/Sound.ts:272-278). Its first work-list entry is then the null
  source, and the loop breaks on it before any connect call
  (`LinkWithoutSource`).
- **Reassigning `src`.** The setter (ts/Sound.ts:91-95) does not clear
  `buffer`. `getSoundBuffer` resolves with a held buffer first
  (ts/Sound.ts:326-327), and a promise keeps its first result. So once a
  buffer is held, every later load settles with it and the new source is
  never used (`CachedBufferWins`, `SetSrc`). Before the first load, the
  setter stores the new source and then throws from `stop()`; the pending
  load still settles from the old source.
- **No generation guard.** `makeSourceNode` does not tag its loads
  (ts/Sound.ts:355-373). The model lets pending loads settle oldest first.
- **Pitch.** The `pitch` setter stores its value 1:1 (ts/Sound.ts:165-168),
  and `configureNodes` writes it to `detune` (ts/Sound.ts:207-216).
- **A new source node.** `makeSourceNode` does not call `configureNodes`
  (ts/Sound.ts:358-369), so a new source node keeps detune 0 and loop false
  whatever the config says.
- **"Invalid Source Type."** The rejection at ts/Sound.ts:349 can settle
  nothing, and the model has no branch for it. Each of the three source
  types has a branch. A string source with a held buffer falls through to
  that `else`, but the promise has already settled with the buffer.
- **The connect log.** The ghost connect log starts after `createNodes`.
  The three connect calls of ts/Sound.ts:225-227 appear only as the edges
  they leave (`MainEdges`), not as log entries.

## Model

| member | source | states |
|---|---|---|
| JsArray.IndexOf | ts/Sound.ts:308-309 | `indexOf` returns -1 exactly when the element is absent, and otherwise an index that holds it |
| JsArray.IndexOfFirst | ts/Sound.ts:308 | the index `indexOf` finds is the first occurrence: no earlier entry equals the element |
| JsArray.RemoveAtShrinks | ts/Sound.ts:310 | removing one entry never adds an element (the multiset can only shrink) |
| JsArray.RemoveAtSlices | ts/Sound.ts:310 | removing at an index in range leaves the entries before it followed by the entries after it |
| JsArray.RemoveAtPastEnd | ts/Sound.ts:258 | removing at an index past the end leaves the array as it was |
| JsArray.SpliceOne | ts/Sound.ts:310 | `splice(start, 1)` never adds an element |
| JsArray.SpliceOneRemoves | ts/Sound.ts:310 | `splice(start, 1)` on an empty array does nothing; with `start` in range it removes exactly that entry and keeps the order of the rest; with -1 it removes the last entry |
| JsArray.SpliceIndexOf | ts/Sound.ts:258 | `splice(indexOf(x), 1)` never adds an element |
| JsArray.SpliceIndexOfRemoves | ts/Sound.ts:258 | when `x` is present, `splice(indexOf(x), 1)` removes its first occurrence only (length one less, one `x` fewer, order kept); when it is absent on a non-empty array the last entry goes; an empty array stays empty |
| JsArray.Without | ts/Sound.ts:281 | the destination filter removes every copy of the node and nothing else: the node is gone, every other value keeps its count, and an array without the node is kept as it is |
| JsArray.KeepIn | ts/Sound.ts:250-252 | the `indexOf(val) != -1` filter keeps exactly the entries recorded in `_connectedNodes` and is never longer |
| JsArray.KeepInCounts | ts/Sound.ts:250-252 | the filter keeps every copy of a recorded value and no copy of any other, so the unlink work list's length and duplicates are fixed |
| JsArray.KeepInCons | ts/Sound.ts:250-252 | the filter decides the head and goes on with the tail |
| JsArray.KeepInNothing | ts/Sound.ts:250-252 | with nothing recorded the filter keeps nothing |
| JsArray.KeepInAppend | ts/Sound.ts:250-252 | filtering a concatenation filters each part |
| JsArray.Reverse | ts/Sound.ts:249 | `reverse()` keeps the length and puts entry k at position n-1-k |
| JsArray.ReverseAppend | ts/Sound.ts:273 | reversing a concatenation reverses the order of its parts |
| JsArray.Lift | ts/Sound.ts:270-272 | the work list of nodes seen as nullable slots: same length, every slot filled |
| JsArray.LiftAppend | ts/Sound.ts:271-272 | filling slots distributes over concatenation |
| JsArray.LiftFacts | ts/Sound.ts:271-273 | filling slots commutes with `reverse()` and distributes over concatenation |
| AudioGraph.DisconnectFacts | ts/Sound.ts:257 | a bare `disconnect()` only takes edges away, leaves no edge leaving the node, keeps every edge leaving another node, is idempotent, and two of them commute |
| AudioGraph.EdgeSetAppend | ts/Sound.ts:279 | the edges left by a run of connect calls are those of its two parts together |
| AudioGraph.EdgeSetPush | ts/Sound.ts:279 | one more connect call adds exactly its edge |
| Linking.ProcessedIsHalf | ts/Sound.ts:253-254 | a loop that shifts its n-entry list while counting up from i runs ceil((n - i)/2) times, never more than n |
| Linking.ProcessedStep | ts/Sound.ts:253-254 | each iteration of a shifting loop takes one entry and leaves one iteration fewer |
| Linking.UnlinkLoopLogs | ts/Sound.ts:253-258 | the unlink loop disconnects exactly the first ceil(n/2) work-list entries, in order |
| Linking.UnlinkLoopConnectsNothing | ts/Sound.ts:253-259 | the unlink loop makes no connect call |
| Linking.UnlinkLoopEdges | ts/Sound.ts:253-257 | after the unlink loop, an edge remains exactly when it was there and its start was not handled |
| Linking.UnlinkLoopShrinks | ts/Sound.ts:258 | the unlink loop only takes entries out of `_connectedNodes` |
| Linking.UnlinkDisconnectsOnlyRecorded | ts/Sound.ts:245-260 | `unlinkNodes` only appends to the disconnect log, only disconnects nodes recorded in `_connectedNodes` when it was called, connects nothing, and removes only edges leaving a node it disconnected |
| Linking.UnlinkOnlyRemovesEdges | ts/Sound.ts:257 | `unlinkNodes` never adds an edge |
| Linking.UnlinkNeverGrows | ts/Sound.ts:258 | `_connectedNodes` never grows during `unlinkNodes`: as a multiset, in length, and in membership |
| Linking.UnlinkWithNothingRecorded | ts/Sound.ts:246-252 | with `_connectedNodes` empty, `unlinkNodes` changes nothing and calls nothing |
| Linking.LinkLoopDone | ts/Sound.ts:274 | the link loop past the end of its list does nothing |
| Linking.LinkLoopStops | ts/Sound.ts:275-278 | a null node ends the link loop with nothing recorded; a node with nothing non-null after it is recorded and ends it without a connect call |
| Linking.LinkLoopGoesOn | ts/Sound.ts:275-279 | a node followed by a node is recorded, connected to that node, and the loop goes on |
| Linking.LinkListWalksFromSource | ts/Sound.ts:270-273 | the link work list is the source, then the effects from last to first, then panner, stereo panner, gain, destination |
| Linking.LinkListOfSource | ts/Sound.ts:270-273 | with a source, every slot of that list holds a node, and it has n + 5 entries for n effects |
| Linking.EffectOrder | ts/Sound.ts:285-294 | the effect pushed last (front of `nodes`) sits right before the panner; the one at the back of `nodes` sits right after the source |
| Linking.TwoPushesOrder | ts/Sound.ts:293-294 | after pushing `a` then `b`, the list runs source, a, b, panner, stereo panner, gain, destination |
| Linking.LinkLoopChain | ts/Sound.ts:274-280 | on a list with no null slot, the link loop records the first ceil(n/2) nodes and joins each of them to its successor |
| Linking.LinkStepsOfSource | ts/Sound.ts:270-280 | with a source and n effects, the link loop records the first ceil((5+n)/2) nodes of the chain and makes the connect calls joining each to the next |
| Linking.LinkConnectCalls | ts/Sound.ts:270-280 | with a source and n effects, `linkNodes` makes exactly ceil((5+n)/2) connect calls, the k-th joining the k-th node of the chain to the next |
| Linking.LinkWithoutSource | ts/Sound.ts:272-278 | without a source, the link loop records and connects nothing; only the destination filter acts |
| Linking.LinkAddsOnlyItsCalls | ts/Sound.ts:274-281 | after linking, the destination is not in `_connectedNodes`, and an edge is present exactly when it was there before or a connect call made it |
| Linking.LinkKeepsCut | ts/Sound.ts:268-281 | a node with no outgoing edge still has none after `linkNodes` when no connect call starts at it |
| Linking.FirstLinkSteps | ts/Sound.ts:270-280 | the first link with a source and no effect records source, panner, stereo panner and connects source to panner, panner to stereo panner, stereo panner to gain |
| Linking.FirstLinkWiring | ts/Sound.ts:268-282 | that first link on a freshly created sound gives the main edges plus those three, with exactly three connect calls and no disconnect |
| Linking.FirstLinkWiresWholePath | ts/Sound.ts:268-282 | once the first source is linked, the whole path source, panner, stereo panner, gain, destination is wired, and `_connectedNodes` is source, panner, stereo panner |
| Linking.UnlinkListAfterFirstLink | ts/Sound.ts:246-252 | in that state the unlink work list has six entries, with duplicates |
| Linking.UnlinkFirstLinked | ts/Sound.ts:253-259 | on the wiring the first link leaves, the unlink loop disconnects exactly the source, the stereo panner and the panner, and no edge leaves the stereo panner afterwards |
| Linking.UnlinkAfterFirstLinkCutsStereoPanner | ts/Sound.ts:253-259 | `unlinkNodes` in that state disconnects exactly the source, the stereo panner and the panner (three of the six entries), and leaves the stereo panner with no outgoing edge |
| Linking.PushLinkSteps | ts/Sound.ts:274-280 | with a source and one effect, the link loop connects source to effect, effect to panner, panner to stereo panner, and stops there |
| Linking.PushAfterLoadCutsStereoPanner | ts/Sound.ts:293-297 | pushing one effect onto a loaded sound leaves the stereo panner with no outgoing edge |
| Resolution.Contains | ts/Sound.ts:4 | the unanchored search succeeds exactly when the pattern occurs at some index |
| Resolution.IsDirectURL | ts/Sound.ts:3-5 | `isDirectURL(s)` holds exactly when `http://` or `https://` occurs anywhere in `s` |
| Resolution.FetchLinkIsDirect | ts/Sound.ts:334-336 | when the page origin is an http(s) URL, every link requested is a direct URL |
| Resolution.UnanchoredMatch | ts/Sound.ts:3-5 | any string with `https://` anywhere in it, such as a relative path with a URL in its query, is a direct URL and is requested as it is |
| Resolution.RelativePath | ts/Sound.ts:334-336 | a path mentioning neither `http://` nor `https://` is not direct and is requested as the origin, `/`, then the path |
| Resolution.PlanBranches | ts/Sound.ts:324-351 | a held buffer is used exactly when there is one; the bytes, URL and decoded-buffer branches are each taken exactly when no buffer is held and the source has that type, and a URL is requested at its fetch link |
| Resolution.CachedBufferWins | ts/Sound.ts:326-327 | once a buffer is held, every load settles with it whatever the source now is |
| SimpleSound.ClampPan | ts/Sound.ts:179 | the pan clamp always lands in [-100, 100], keeps values inside that range, and maps values beyond it to the nearer bound |
| SimpleSound.PopEffectFacts | ts/Sound.ts:306-320 | `popNode(x)` for an absent `x` changes nothing and returns null; for a present `x` it removes exactly its first occurrence, keeps the rest in order and returns `x`; `popNode()` removes and returns the last effect, or returns null on an empty stack |
| SimpleSound.SoundPosition.constructor | ts/SoundPosition.ts:20-24 | the new position holds exactly the coordinates given, 0 for each omitted one |
| SimpleSound.SoundPosition.Copy | ts/SoundPosition.ts:31-37 | `copy` returns a fresh object with the same coordinates, so later writes to either leave the other alone |
| SimpleSound.SoundPosition.UpdateSoundPosition | ts/SoundPosition.ts:44-48 | `updateSoundPosition` needs a panner, writes the coordinates into its position and changes nothing on the sound |
| SimpleSound.Sound.constructor | ts/Sound.ts:36-61 | defaults volume 1, pitch 1, pan 0, loop false; no buffer or source; empty effects and `_connectedNodes`; position at the origin; `createNodes` leaves exactly the panner, stereo panner, gain, destination edges; readers give 100, 1, 0, false and 0 for duration, channels and sample rate; the first load is begun |
| SimpleSound.Sound.ConfigureNodes | ts/Sound.ts:207-216 | the gain, stereo pan and panner position take the config and position; the source's detune and loop are set only when there is a source |
| SimpleSound.Sound.SetVolume | ts/Sound.ts:110-117 | stores v/100, so reading `volume` gives v back, and the gain takes the stored value |
| SimpleSound.Sound.SetPitch | ts/Sound.ts:123-125 | stores the pitch 1:1, so reading gives it back |
| SimpleSound.Sound.SetPan | ts/Sound.ts:174-181 | reading `pan` gives the value clamped to [-100, 100]; the stored pan stays in [-1, 1] |
| SimpleSound.Sound.SetLoop | ts/Sound.ts:187-194 | reading `loop` gives the value set |
| SimpleSound.Sound.SetPos | ts/Sound.ts:101-108 | the sound holds the object given and the panner takes its coordinates |
| SimpleSound.Sound.SetSrc | ts/Sound.ts:87-95 | the source is stored either way; it throws exactly when nothing is loaded, and then the offset, the stop log, the context flag and the pending loads are as they were; otherwise the offset is 0, the context is suspended, the source is stopped, and the two loads begun settle with the buffer held |
| SimpleSound.Sound.Samples | ts/Sound.ts:65-79 | throws exactly when nothing is loaded; fills the cache with the buffer's channels when it is empty; otherwise returns the cache unchanged |
| SimpleSound.Sound.UnlinkNodes | ts/Sound.ts:245-260 | the wiring afterwards is `Unlink` of the wiring before, and the destination stays out of `_connectedNodes` |
| SimpleSound.Sound.LinkNodes | ts/Sound.ts:268-282 | the wiring afterwards is `LinkNodes` of the wiring before, and the invariant holds |
| SimpleSound.Sound.ConnectChain | ts/Sound.ts:270-281 | after `linkNodes`' own unlink, the wiring is `Link` of the wiring before: the loop's records, calls and edges, then the destination filter; the invariant holds |
| SimpleSound.Sound.ConnectLoop | ts/Sound.ts:274-280 | the recorded nodes, the connect calls and the edges added are exactly those of `LinkLoop` on the work list |
| SimpleSound.Sound.Relink | ts/Sound.ts:295-296 | `unlinkNodes(); linkNodes()` gives `LinkNodes` of `Unlink` of the wiring before |
| SimpleSound.Sound.PushNode | ts/Sound.ts:293-297 | `nodes` becomes `[n]` followed by the old `nodes`, and the graph is relinked |
| SimpleSound.Sound.PopNode | ts/Sound.ts:306-320 | the stack and the result are as `PopEffect` says (see `PopEffectFacts`); an absent node returns null with the graph untouched, and every other case relinks |
| SimpleSound.Sound.MakeSourceNode | ts/Sound.ts:356-369 | unlinks an existing source, holds the resolved buffer, and makes a new source node under the next creation number, so two loads never give the same node; the new node has detune 0 and loop false, the gain and stereo pan stay; clears `_hasPlayedYet`, settles the oldest load and relinks; with a buffer already held, the resolved buffer is that buffer |
| SimpleSound.Sound.DropSource | ts/Sound.ts:358-361 | an existing source is unlinked and dropped; with none, nothing changes |
| SimpleSound.Sound.LoadFails | ts/Sound.ts:329-346 | a request or decode that fails settles only its load and changes nothing else |
| SimpleSound.Sound.Play | ts/Sound.ts:387-410 | throws exactly when nothing is loaded; a source that has played gets a new load instead, with the offset, the start log and the context flag untouched; otherwise a nonzero saved offset replaces `when` and is reset to 0, the context resumes, `_hasPlayedYet` becomes true and the source starts with those arguments |
| SimpleSound.Sound.Pause | ts/Sound.ts:416-425 | throws exactly when nothing is loaded; otherwise saves the current time, suspends, stops the source and begins a load that settles with the buffer held |
| SimpleSound.Sound.Stop | ts/Sound.ts:431-440 | throws exactly when nothing is loaded; otherwise resets the offset to 0, suspends, stops the source and begins a load that settles with the buffer held |
| SimpleSound.Sound.CopyTone | ts/Sound.ts:449-452 | the copy takes the pitch, volume, loop and the same effect array |
| SimpleSound.Sound.CopyPlace | ts/Sound.ts:453-455 | the copy takes the position, the offset and the pan |
| SimpleSound.Sound.Copy | ts/Sound.ts:447-457 | a fresh sound with the same config, a fresh position with the same coordinates, the same offset and the same effect array object; no buffer or source yet, its own first load begun |
| SimpleSound.LoadThenPush | ts/Sound.ts:293-297 | a sound made from a decoded buffer, loaded, then given one effect, has a stereo panner with no outgoing edge |

## Left out

- The request, the decoding and the promise plumbing of `getSoundBuffer`
  are not modelled. A load is the branch it takes, a `BufferPlan`; the
  buffer it settles with is a parameter of `MakeSourceNode`; `LoadFails`
  is a failure.
- The order in which loads settle is fixed: oldest first. JavaScript
  could interleave overlapping `makeSourceNode` calls differently.
- `window.location.origin` is a constructor parameter.
- `context.currentTime` is the parameter `now` of `Pause`.
- The `onload` and `onended` callbacks are not modelled. That includes the
  retry that `play` installs for a source that has played and the
  end-of-playback handler it sets on the source. They are event-driven.
- `setValueAtTime` is modelled as an immediate write of the value. Its
  scheduling time is not modelled.
- The `resume` and `suspend` calls are a ghost flag.
- `start` and `stop` on the source are ghost logs. The log records a stop
  even where the host would throw on an unstarted node, since the code
  catches that error.
- Numbers are reals. There is no floating-point rounding or NaN, so v/100
  times 100 gives v exactly.
- The gain, stereo panner and destination are fixed identifiers without
  parameters beyond the ones the sound writes. The source node does not
  carry its `buffer` attribute; the sound's `buffer` field stands for it.
- Each sound's host graph is its own ghost state. An effect array shared
  by `copy` can therefore appear in two graphs. The host's refusal to
  connect nodes of different audio contexts is not modelled.
- The registrations on `window` and the typings in Sound.d.ts and
  SoundPosition.d.ts are not part of this model.
- Samples: channel data is a sequence of reals held by the buffer. The
  copy of each `Float32Array` into a plain array is not modelled, so the
  cache holds the channel sequences themselves.
- The `pos` getter returns `_pos` itself. The model reads the `pos`
  field, so it has no separate row.
- The plain getters (`src`, `volume`, `pitch`, `pan`, `loop`, `duration`,
  `numOfChannels`, `sampleRate`) are functions without a contract of
  their own. The setters' and `MakeSourceNode`'s rows state what they read.
