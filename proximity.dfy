/// The `path-node` component (scripts/proximity.js): one per spawned sphere.
/// It is triggered by distance (or, on iOS, by a tap), plays its clip if the
/// clip was found, and on finishing reports to the path manager.
///
/// The first half states the component's life as a value: its flags
/// (`NodeStatus`), what each event does to them and which outside effects it
/// has (`Step`), and what any sequence of events adds up to (`Run`). The class
/// `PathNode` at the end does the same work on objects and is proved to follow
/// `Step`.
module Proximity {
  import opened Paths
  import PathManagerSystem
  import Globals

  /** The one id whose `init` never looks for a clip. */
  const SilentId: string := "explore_more"

  /** The `tick` trigger fires when the camera is closer than this. */
  const TriggerRadius: real := 0.75

  /**
   * The component's flags. `hasSound`: a sound entity is attached (the HEAD
   * probe succeeded); `probing`: the probe has not settled yet; `playing`:
   * the clip was started and its once-only "sound-ended" listener is waiting.
   */
  datatype NodeStatus = NodeStatus(triggered: bool, finished: bool, hasSound: bool, probing: bool, playing: bool)

  /**
   * What the component does outside itself: `Claim` writes itself into the
   * current-audio-node slot, `Release` writes null there, `Complete` calls the
   * path manager's `completeNode` with the node's id, `next` list and position.
   */
  datatype Effect = Claim | Release | Complete

  /** The inputs a node reacts to. `ForceFinish` is a direct call of `forceFinish`. */
  datatype Event = Tick(distance: real) | Tap | SoundEnded | ProbeSettled(ok: bool) | ForceFinish

  /** `init`: no flag set; the probe is started for every id but the silent one. */
  function Initial(id: string): (n: NodeStatus)
    ensures !n.triggered && !n.finished && !n.hasSound && !n.playing
    ensures n.probing <==> id != SilentId
  {
    NodeStatus(false, false, false, id != SilentId, false)
  }

  /** `forceFinish`: guarded by `finished`; stops the clip, clears the slot, reports completion. */
  function Finish(n: NodeStatus): (r: (NodeStatus, seq<Effect>))
    ensures r.0.finished
    ensures n.finished ==> r == (n, [])
    ensures !n.finished ==> !r.0.playing
    ensures Count(r.1, Complete) == (if n.finished then 0 else 1)
  {
    if n.finished then (n, [])
    else (n.(finished := true, playing := false), [Release, Complete])
  }

  /**
   * `handleTrigger`: guarded by `triggered`; claims the slot with no check of
   * its holder, then finishes at once when no clip is attached, or starts it.
   */
  function Trigger(n: NodeStatus): (r: (NodeStatus, seq<Effect>))
    ensures r.0.triggered
    ensures n.triggered ==> r == (n, [])
    ensures !n.triggered ==> |r.1| > 0 && r.1[0] == Claim && (r.0.finished <==> n.finished || !n.hasSound)
  {
    if n.triggered then (n, [])
    else if !n.hasSound then
      var (m, effects) := Finish(n.(triggered := true));
      (m, [Claim] + effects)
    else (n.(triggered := true, playing := true), [Claim])
  }

  /**
   * One event. Distance triggers only off iOS; taps reach the node only on iOS,
   * where their listeners are installed; "sound-ended" reaches it only while
   * its listener waits; the probe's result counts only while it is pending.
   */
  function Step(isIOS: bool, n: NodeStatus, e: Event): (r: (NodeStatus, seq<Effect>))
    ensures e.Tick? && isIOS ==> r == (n, [])
    ensures e.Tap? && !isIOS ==> r == (n, [])
    ensures r.0.triggered != n.triggered <==>
              !n.triggered && ((e.Tick? && !isIOS && e.distance < TriggerRadius) || (e.Tap? && isIOS))
  {
    match e
    case Tick(d) => if isIOS || n.triggered || !(d < TriggerRadius) then (n, []) else Trigger(n)
    case Tap => if isIOS then Trigger(n) else (n, [])
    case SoundEnded => if n.playing then Finish(n.(playing := false)) else (n, [])
    case ProbeSettled(ok) => if n.probing then (n.(probing := false, hasSound := ok), []) else (n, [])
    case ForceFinish => Finish(n)
  }

  /** A sequence of events, in order, with the effects they have. */
  function Run(isIOS: bool, n: NodeStatus, events: seq<Event>): (NodeStatus, seq<Effect>)
    decreases |events|
  {
    if events == [] then (n, [])
    else
      var (m, first) := Step(isIOS, n, events[0]);
      var (f, rest) := Run(isIOS, m, events[1..]);
      (f, first + rest)
  }

  function Count(effects: seq<Effect>, x: Effect): nat
    decreases |effects|
  {
    if effects == [] then 0
    else (if effects[0] == x then 1 else 0) + Count(effects[1..], x)
  }

  /** The slot after the node with identity `self` has had the given effects. */
  function SlotAfter(slot: object?, self: object, effects: seq<Effect>): object?
    decreases |effects|
  {
    if effects == [] then slot
    else
      var next := match effects[0]
        case Claim => self
        case Release => null
        case Complete => slot;
      SlotAfter(next, self, effects[1..])
  }

  lemma {:induction false} CountAppend(a: seq<Effect>, b: seq<Effect>, x: Effect)
    ensures Count(a + b, x) == Count(a, x) + Count(b, x)
    decreases |a|
  {
    if a != [] {
      assert (a + b)[1..] == a[1..] + b;
      CountAppend(a[1..], b, x);
    } else {
      assert a + b == b;
    }
  }

  /** `triggered` and `finished` are never reset, and each is set together with the effects that go with it. */
  lemma StepCounts(isIOS: bool, n: NodeStatus, e: Event)
    ensures var (m, effects) := Step(isIOS, n, e);
      && (n.triggered ==> m.triggered)
      && (n.finished ==> m.finished)
      && Count(effects, Claim) + (if n.triggered then 1 else 0) == (if m.triggered then 1 else 0)
      && Count(effects, Complete) + (if n.finished then 1 else 0) == (if m.finished then 1 else 0)
      && Count(effects, Release) == Count(effects, Complete)
  {
  }

  /**
   * Whatever events arrive, and however often, the body of `handleTrigger`
   * runs at most once (one `Claim`) and the body of `forceFinish` at most
   * once (one `Complete`, so one call of `completeNode`); a node has
   * completed exactly when it is finished.
   */
  lemma {:induction false} RunCounts(isIOS: bool, n: NodeStatus, events: seq<Event>)
    ensures var (m, effects) := Run(isIOS, n, events);
      && (n.triggered ==> m.triggered)
      && (n.finished ==> m.finished)
      && Count(effects, Claim) + (if n.triggered then 1 else 0) == (if m.triggered then 1 else 0)
      && Count(effects, Complete) + (if n.finished then 1 else 0) == (if m.finished then 1 else 0)
      && Count(effects, Release) == Count(effects, Complete)
    decreases |events|
  {
    if events != [] {
      var (m, first) := Step(isIOS, n, events[0]);
      var (f, rest) := Run(isIOS, m, events[1..]);
      StepCounts(isIOS, n, events[0]);
      RunCounts(isIOS, m, events[1..]);
      CountAppend(first, rest, Claim);
      CountAppend(first, rest, Complete);
      CountAppend(first, rest, Release);
    }
  }

  /** From a fresh node: at most one trigger and at most one completion, ever. */
  lemma AtMostOneCompletion(isIOS: bool, id: string, events: seq<Event>)
    ensures var (m, effects) := Run(isIOS, Initial(id), events);
      && Count(effects, Claim) <= 1
      && Count(effects, Complete) <= 1
      && (Count(effects, Complete) == 1 <==> m.finished)
  {
    RunCounts(isIOS, Initial(id), events);
  }

  /** A node without a clip that has neither a clip nor a pending probe never gets one. */
  lemma {:induction false} NoProbeNoSound(isIOS: bool, n: NodeStatus, events: seq<Event>)
    requires !n.hasSound && !n.probing
    ensures !Run(isIOS, n, events).0.hasSound && !Run(isIOS, n, events).0.probing
    decreases |events|
  {
    if events != [] {
      NoProbeNoSound(isIOS, Step(isIOS, n, events[0]).0, events[1..]);
    }
  }

  /**
   * A trigger of a node with no clip attached finishes it within the same
   * call: the slot is claimed, released and the completion reported.
   */
  lemma SilentTriggerFinishes(n: NodeStatus)
    requires !n.triggered && !n.finished && !n.hasSound
    ensures Trigger(n) == (n.(triggered := true, finished := true, playing := false), [Claim, Release, Complete])
  {
    assert [Claim] + [Release, Complete] == [Claim, Release, Complete];
  }

  /** The `explore_more` node, whatever happened to it before, finishes synchronously when triggered. */
  lemma SilentIdFinishesOnTrigger(isIOS: bool, events: seq<Event>)
    ensures var m := Run(isIOS, Initial(SilentId), events).0;
      !m.triggered && !m.finished ==> Trigger(m).0.finished && Trigger(m).1 == [Claim, Release, Complete]
  {
    NoProbeNoSound(isIOS, Initial(SilentId), events);
  }

  /**
   * The slot after a trigger: the node itself while its clip plays, null once a
   * silent node has finished; what was there before plays no part.
   */
  lemma TriggerSlot(n: NodeStatus, before: object?, self: object)
    requires !n.triggered && !n.finished
    ensures SlotAfter(before, self, Trigger(n).1) == (if n.hasSound then self else null)
  {
  }

  /** `forceFinish` empties the slot even when another node holds it. */
  lemma FinishSlot(n: NodeStatus, holder: object, self: object)
    requires !n.finished
    ensures SlotAfter(holder, self, Finish(n).1) == null
  {
  }

  class PathNode {
    const id: string
    const next: seq<string>
    /** The position of the sphere, `this.el.object3D.position`. */
    const position: Vec3
    const system: PathManagerSystem.PathManager
    const window: Globals.Window
    var triggered: bool
    var finished: bool
    var hasSound: bool
    var probing: bool
    var playing: bool

    function Status(): NodeStatus
      reads this
    {
      NodeStatus(triggered, finished, hasSound, probing, playing)
    }

    /** What the path manager's state becomes when it receives the given effects. */
    function Reported(s: PathManagerSystem.ManagerState, effects: seq<Effect>, pose: Pose): PathManagerSystem.ManagerState
    {
      if Complete in effects then PathManagerSystem.Complete(s, system.graph, id, next, position, pose) else s
    }

    /** `init` for the component of a spawned sphere. */
    constructor (sphere: Sphere, system: PathManagerSystem.PathManager, window: Globals.Window)
      ensures id == sphere.id && next == sphere.next && position == sphere.position
      ensures this.system == system && this.window == window
      ensures Status() == Initial(sphere.id)
    {
      id := sphere.id;
      next := sphere.next;
      position := sphere.position;
      this.system := system;
      this.window := window;
      triggered := false;
      finished := false;
      hasSound := false;
      probing := sphere.id != SilentId;
      playing := false;
    }

    /** `handleTrigger`; `pose` is the camera's orientation, read if the node completes. */
    method HandleTrigger(pose: Pose)
      requires system.Valid()
      modifies this, window`currentAudioNode, system
      ensures system.Valid()
      ensures Status() == Trigger(old(Status())).0
      ensures window.currentAudioNode == SlotAfter(old(window.currentAudioNode), this, Trigger(old(Status())).1)
      ensures system.State() == Reported(old(system.State()), Trigger(old(Status())).1, pose)
    {
      if triggered {
        return;
      }
      triggered := true;
      window.currentAudioNode := this;
      if !hasSound {
        ForceFinish(pose);
        return;
      }
      playing := true;
    }

    /**
     * `forceFinish`. The two lock hooks it calls first are not defined on
     * the path manager, so their optional calls do nothing.
     */
    method ForceFinish(pose: Pose)
      requires system.Valid()
      modifies this, window`currentAudioNode, system
      ensures system.Valid()
      ensures Status() == Finish(old(Status())).0
      ensures window.currentAudioNode == SlotAfter(old(window.currentAudioNode), this, Finish(old(Status())).1)
      ensures system.State() == Reported(old(system.State()), Finish(old(Status())).1, pose)
    {
      if finished {
        return;
      }
      finished := true;
      playing := false;
      window.currentAudioNode := null;
      system.CompleteNode(id, next, position, pose);
    }

    /** `tick`, with the camera's distance to the node as input. */
    method Tick(distance: real, pose: Pose)
      requires system.Valid()
      modifies this, window`currentAudioNode, system
      ensures system.Valid()
      ensures Status() == Step(window.isIOS, old(Status()), Event.Tick(distance)).0
      ensures window.currentAudioNode
           == SlotAfter(old(window.currentAudioNode), this, Step(window.isIOS, old(Status()), Event.Tick(distance)).1)
      ensures system.State() == Reported(old(system.State()), Step(window.isIOS, old(Status()), Event.Tick(distance)).1, pose)
    {
      if window.isIOS {
        return;
      }
      if triggered {
        return;
      }
      if distance < TriggerRadius {
        HandleTrigger(pose);
      }
    }

    /** A click or touchstart on the sphere; the listeners exist only on iOS. */
    method Tap(pose: Pose)
      requires system.Valid()
      modifies this, window`currentAudioNode, system
      ensures system.Valid()
      ensures Status() == Step(window.isIOS, old(Status()), Event.Tap).0
      ensures window.currentAudioNode
           == SlotAfter(old(window.currentAudioNode), this, Step(window.isIOS, old(Status()), Event.Tap).1)
      ensures system.State() == Reported(old(system.State()), Step(window.isIOS, old(Status()), Event.Tap).1, pose)
    {
      if window.isIOS {
        HandleTrigger(pose);
      }
    }

    /** The clip's "sound-ended" event; the once-only listener calls `forceFinish`. */
    method SoundEnded(pose: Pose)
      requires system.Valid()
      modifies this, window`currentAudioNode, system
      ensures system.Valid()
      ensures Status() == Step(window.isIOS, old(Status()), Event.SoundEnded).0
      ensures window.currentAudioNode
           == SlotAfter(old(window.currentAudioNode), this, Step(window.isIOS, old(Status()), Event.SoundEnded).1)
      ensures system.State() == Reported(old(system.State()), Step(window.isIOS, old(Status()), Event.SoundEnded).1, pose)
    {
      if playing {
        playing := false;
        ForceFinish(pose);
      }
    }

    /** The HEAD probe settles: on success a sound entity is attached. */
    method ProbeSettled(ok: bool)
      modifies this
      ensures Status() == Step(window.isIOS, old(Status()), Event.ProbeSettled(ok)).0
    {
      if probing {
        probing := false;
        hasSound := ok;
      }
    }
  }

  /**
   * Two nodes with clips, triggered one after the other, both play: the second
   * takes the slot from the first without any check, and when the first clip
   * ends the slot is emptied while the second one is still playing.
   */
  method OverlappingClips(graph: Graph, pose: Pose) returns (bothPlaying: bool, slotEmptyWhileSecondPlays: bool)
    ensures bothPlaying && slotEmptyWhileSecondPlays
  {
    var window := new Globals.Window(false);
    var system := new PathManagerSystem.PathManager(graph);
    var first := new PathNode(Sphere("front_1", Forward(1.0), "#ffffff", []), system, window);
    var second := new PathNode(Sphere("back_1", Forward(-1.0), "#000000", []), system, window);
    first.ProbeSettled(true);
    second.ProbeSettled(true);
    var ready := NodeStatus(false, false, true, false, false);
    assert first.Status() == ready && second.Status() == ready;
    assert Trigger(ready) == (ready.(triggered := true, playing := true), [Claim]);
    first.HandleTrigger(pose);
    assert first.playing && window.currentAudioNode == first && second.Status() == ready;
    second.HandleTrigger(pose);
    assert first.playing && second.playing && window.currentAudioNode == second;
    bothPlaying := first.playing && second.playing && window.currentAudioNode == second;
    first.SoundEnded(pose);
    assert second.playing;
    slotEmptyWhileSecondPlays := window.currentAudioNode == null && second.playing;
  }
}
