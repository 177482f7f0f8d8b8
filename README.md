# Narrative progression of the WebXR audio walk, in Dafny

This project models the part of the audio walk that moves the story forward. It covers three scripts:

- **The `path-manager` system** (`scripts/path-manager.js`). It keeps the set of played node ids and the map of active nodes. It spawns the four root directions `front_1`, `back_1`, `left_1` and `right_1` at fixed world positions. When a node completes, it records the node as played, removes it, and spawns each successor that the narrative graph `PATH_GRAPH` defines.
- **The `path-node` component** (`scripts/proximity.js`). One is attached to every spawned sphere. It triggers when the camera comes closer than 0.75 (off iOS) or when the sphere is tapped (on iOS). It writes itself into the process-wide "current audio node" slot and plays its clip. When the clip ends, `forceFinish` empties the slot and reports the completion to the path manager. A node without a clip finishes inside the trigger itself.
- **The page script** (`scripts/start.js`). It plays the intro once after the start click. It hands over to the root directions through the idempotent `finishIntro`. The X key is meant to skip the current audio, but only the intro can be skipped: the call on a node throws.

Modules:

- `Paths` (`paths.dfy`) holds the values: positions, graph entries, the camera pose and spheres.
- `PathManagerSystem` (`path_manager.dfy`) holds the path manager.
- `Globals` (`globals.dfy`) holds the `window` globals.
- `Proximity` (`proximity.dfy`) holds the path node.
- `Start` (`start.dfy`) holds the page script.

Each stateful part is written twice:

- as pure functions on values (`Spawn`, `SpawnSuccessors`, `Complete`, `Trigger`, `Finish`, `Step`, `Run`), about which the lemmas are proved;
- as classes (`PathManager`, `PathNode`, `Window`, `Experience`). Their methods change fields in place. The postconditions of `PathManager` and `PathNode` tie the new state to those functions. `Experience` has no such functions: its methods state their new state directly.

`PATH_GRAPH` is a parameter, a map from id to offset, colour and `next` list. The camera orientation is a parameter too: the two axes that the camera's quaternion gives for "forward" and "right". So is the camera distance seen by `tick`.

The model follows the code as written. In several places the code lacks behaviour that a narrative engine of this kind would be expected to have: admission control for the single audio slot, a guard against replaying played nodes, a pinned height for spawned nodes, and branch locking with a loop restart. The details:

- `spawnNode` checks only `active`, never `played`. A completed id can come back.
- `completeNode` has no already-played guard. Completing the same node twice in a row still gives the same state as completing it once (`CompleteTwiceIsCompleteOnce`).
- The roots are spawned with the default empty `next` list. Completing a root therefore spawns nothing, whatever the graph says.
- `handleTrigger` takes the audio slot with no admission check. `forceFinish` empties the slot whoever holds it. Two clips can therefore play at once, and the slot can be empty while one plays (`OverlappingClips`).
- `lockRootPath` and `lockChoice` are not defined on the path manager. Their optional calls do nothing, so no branch locking and no loop restart exist here.
- The X key calls `finish()` on the current node. The component defines only `forceFinish`, so that call throws. A node that is playing cannot be skipped (`SkipWhileNodePlays`). Only the intro can be skipped.
- `computePosition` does not pin the height. A pitched camera raises or lowers the successors (`ComputePositionFollowsPitch`).

## Model

| member | source | states |
|---|---|---|
| `Paths.Forward` | scripts/path-manager.js:63-69 | a root placed ahead or behind sits at height 1 |
| `Paths.Right` | scripts/path-manager.js:63-69 | a root placed left or right sits at height 1 |
| `Paths.RootPositionsAreUnrotatedPlacements` | scripts/path-manager.js:63-69 | the fixed root positions are what computePosition would give from (0,1,0) with an unturned camera |
| `Paths.ComputePosition` | scripts/path-manager.js:51-61 | with level forward and right axes the successor keeps its parent's height; with no deltas it sits on its parent |
| `Paths.ComputePositionNoOffset` | scripts/path-manager.js:51-61 | a successor whose offset has neither delta is placed on its parent's position |
| `Paths.ComputePositionUnrotated` | scripts/path-manager.js:51-61 | with the camera unturned, the forward delta moves along -z, the right delta along +x, and the height is kept |
| `Paths.ComputePositionFollowsPitch` | scripts/path-manager.js:52-58 | the height is not pinned: a camera pitched up lifts a successor placed ahead |
| `PathManagerSystem.Spawn` | scripts/path-manager.js:25-36 | the spawned id is active afterwards; if it already was, its entry is kept, otherwise it maps to the new sphere; every other entry is unchanged; keying by id is preserved |
| `PathManagerSystem.RootMap` | scripts/path-manager.js:11-18 | after the reset, active holds exactly front_1, back_1, left_1, right_1 at (0,1,-1), (0,1,1), (-1,1,0), (1,1,0), all at height 1 and all with an empty next list |
| `PathManagerSystem.SpawnSuccessors` | scripts/path-manager.js:42-48 | the successor loop never removes an active id and keeps keying by id |
| `PathManagerSystem.Complete` | scripts/path-manager.js:38-49 | completion adds exactly the id to played and keeps every other active id active |
| `PathManagerSystem.SpawnSuccessorsResult` | scripts/path-manager.js:42-48 | the successor loop adds exactly the listed ids that the graph defines, keeps the entries already active, and gives each new one its graph colour, its graph next list and a position computed from the origin |
| `PathManagerSystem.CompleteResult` | scripts/path-manager.js:38-49 | after completion the id is played; it is active only if it is its own defined successor; the other active entries are kept and the defined successors are added from their graph entries |
| `PathManagerSystem.CompleteKeepsKeyed` | scripts/path-manager.js:38-49 | completion keeps every active sphere filed under its own id |
| `PathManagerSystem.CompleteTwiceIsCompleteOnce` | scripts/path-manager.js:38-49 | with no played guard, completing the same node twice in a row with the same arguments equals completing it once |
| `PathManagerSystem.CompletedNodeCanRespawn` | scripts/path-manager.js:26 | a completed id is played and inactive, and spawning it again succeeds because played is not consulted |
| `PathManagerSystem.RootCompletionSpawnsNothing` | scripts/path-manager.js:14-17 | roots carry the default empty next list, so completing a root only records and removes it |
| `PathManagerSystem.PathManager.constructor` | scripts/path-manager.js:2-9 | init: played is empty and active holds exactly the four roots |
| `PathManagerSystem.PathManager.SpawnInitialDirections` | scripts/path-manager.js:11-18 | active becomes exactly the four roots; played is unchanged |
| `PathManagerSystem.PathManager.ClearAll` | scripts/path-manager.js:20-23 | active becomes empty; played is unchanged |
| `PathManagerSystem.PathManager.SpawnNode` | scripts/path-manager.js:25-36 | the new active map is Spawn of the old one; played is unchanged |
| `PathManagerSystem.PathManager.CompleteNode` | scripts/path-manager.js:38-49 | the loop over nextIds leaves played and active as Complete of the old state, in list order |
| `Globals.Window.constructor` | scripts/start.js:9-11 | both audio slots start null and debug mode starts false |
| `Proximity.Initial` | scripts/proximity.js:15-45 | a new node is not triggered, not finished, has no clip and is not playing; it probes for a clip exactly when its id is not explore_more |
| `Proximity.Trigger` | scripts/proximity.js:64-81 | afterwards the node is triggered; a second trigger does nothing; a first one claims the slot first and finishes the node at once exactly when it has no clip |
| `Proximity.Finish` | scripts/proximity.js:86-107 | afterwards the node is finished; a second finish does nothing; a first one stops the clip and completes exactly once |
| `Proximity.Step` | scripts/proximity.js:47-59 | a node becomes triggered only by a tick off iOS at distance below 0.75 or by a tap on iOS; a tick on iOS and a tap off iOS change nothing |
| `Proximity.StepCounts` | scripts/proximity.js:64-107 | one event never resets triggered or finished, claims the slot exactly when it sets triggered, completes exactly when it sets finished, and releases the slot exactly as often as it completes |
| `Proximity.RunCounts` | scripts/proximity.js:64-107 | over any sequence of events the trigger body and the finish body each run at most once, and the slot is released once per completion |
| `Proximity.AtMostOneCompletion` | scripts/proximity.js:86-104 | from a fresh node, however often ticks, taps, ended events or direct finishes arrive, completeNode is reached at most once, and exactly once if and only if the node is finished |
| `Proximity.NoProbeNoSound` | scripts/proximity.js:29-44 | a node with no clip and no pending probe never gets a clip |
| `Proximity.SilentTriggerFinishes` | scripts/proximity.js:73-75 | triggering a node with no clip claims the slot, releases it and completes, all within the trigger |
| `Proximity.SilentIdFinishesOnTrigger` | scripts/proximity.js:29 | the explore_more node never probes, so whatever happened before, its trigger completes it synchronously |
| `Proximity.TriggerSlot` | scripts/proximity.js:71 | after a trigger the slot holds the node while its clip plays, or null for a silent node, whatever it held before |
| `Proximity.FinishSlot` | scripts/proximity.js:95 | forceFinish empties the slot even when another node holds it |
| `Proximity.PathNode.constructor` | scripts/proximity.js:15-45 | init: not triggered, not finished, no clip, and a probe pending unless the id is explore_more |
| `Proximity.PathNode.HandleTrigger` | scripts/proximity.js:64-81 | flags, slot and path manager change as Trigger says: the slot is overwritten and a silent node completes with its own id, next list and position |
| `Proximity.PathNode.ForceFinish` | scripts/proximity.js:86-107 | flags, slot and path manager change as Finish says: guarded by finished; stops the clip, empties the slot, then calls completeNode with the node's id, next list and position |
| `Proximity.PathNode.Tick` | scripts/proximity.js:47-59 | follows Step for a tick: nothing on iOS or once triggered; a trigger when the distance is below 0.75 |
| `Proximity.PathNode.Tap` | scripts/proximity.js:22-26 | follows Step for a tap: a trigger on iOS, nothing elsewhere |
| `Proximity.PathNode.SoundEnded` | scripts/proximity.js:79-80 | follows Step for the clip's end: the once-only listener runs forceFinish |
| `Proximity.PathNode.ProbeSettled` | scripts/proximity.js:33-44 | follows Step for the HEAD probe: while pending, success attaches a clip and failure leaves the node silent |
| `Proximity.OverlappingClips` | scripts/proximity.js:71-95 | two nodes with clips can play at once, and the slot is emptied while the second still plays |
| `Start.Dispatch` | scripts/start.js:116-125 | every key but X is ignored; with X, a set node slot is addressed and the intro is never finished then; otherwise a set intro slot is finished; otherwise nothing |
| `Start.IntroSound.constructor` | scripts/start.js:16 | the intro sound starts not playing and with no listener |
| `Start.Experience.constructor` | scripts/start.js:23-24 | introPlayed and debugMode start false |
| `Start.Experience.FinishIntro` | scripts/start.js:41-53 | a no-op when the intro slot is empty; otherwise stops the intro, empties the slot and respawns the roots with played kept; the slot is empty afterwards, so a second call is a no-op |
| `Start.Experience.StartExperience` | scripts/start.js:88-96 | the first call sets introPlayed, puts the intro in its slot and starts it with finishIntro as listener; later calls leave the intro alone |
| `Start.Experience.StartClick` | scripts/start.js:102-108 | debug mode, in the closure and on window, follows the Shift key of the click, then the experience starts |
| `Start.Experience.IntroEnded` | scripts/start.js:95 | the intro's end runs finishIntro once through its once-only listener: while it listens (and so the intro holds its slot) the slot is emptied, the intro stops and the roots are respawned with played kept; afterwards it changes nothing |
| `Start.Experience.KeyDown` | scripts/start.js:113-128 | the outcome follows Dispatch; calling the missing finish member throws and changes nothing; only a skipped intro changes state, to the roots with played kept |
| `Start.SkipWhileNodePlays` | scripts/start.js:118-120 | X pressed while a triggered node plays throws, and the node keeps playing, unfinished and not played |

## Left out

- The DOM and A-Frame plumbing is not modelled. That covers element creation, `appendChild`, `innerHTML` clearing and `el.remove()`, sphere attributes, visibility, the guidance glow and listener registration. As a result, the model keeps no order of the scene's children, and a detached node can still receive events.
- `computePosition` rotates by the camera's quaternion in floating point. The model takes the rotated forward and right axes as input (`Pose`) and sums over exact reals.
- The camera distance in `tick` is float-based. It is an input to `Tick`. Only the comparison `< 0.75` is modelled.
- The HEAD probe and the creation of the sound entity are asynchronous I/O. They are the `ProbeSettled(ok)` event, and a clip counts as usable as soon as the probe succeeds.
- Audio playback itself is left out; only its start, stop and the once-only "sound-ended" listener appear as flags.
- `Start.Experience.StartExperience`: the awaited `unlockAudio` is not modelled as a suspension point. The first call sets `introPlayed` and fills the intro slot in one step, so the order "slot set before playback starts" is not observable.
- Also left out of `startExperience`: the overlay fade, the debug camera settings, AR entry and audio-context unlocking, which are platform I/O and UI.
- The info poster, `scripts/audio.js` (floating-point crossfade driven by animation frames) and the desktop debug button scripts are UI or timing code outside the progression logic.
- `startPosition` (`scripts/path-manager.js:6`) is set but never read, so it is not modelled.
- Branch locking and the loop restart do not exist in these scripts, so they are not modelled. The optional calls to the lock hooks do nothing.
- `IS_IOS` is defined twice, in `scripts/proximity.js:7` and `scripts/start.js:4`. Both come from the same user-agent test, so the model uses the single `Window.isIOS`.
