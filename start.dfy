/// The page script scripts/start.js: the intro clip that plays once after the
/// start click, `finishIntro` handing over to the path manager's root
/// directions, and the X key meant to skip the current audio.
module Start {
  import opened Paths
  import PathManagerSystem
  import Globals
  import Proximity

  /** What the keydown handler sets out to do. */
  datatype KeyAction =
    | Ignore            // not the X key
    | CallFinishOnNode  // `__CURRENT_AUDIO_NODE__.finish()`
    | SkipIntro         // `finishIntro()`
    | NoAudio           // X with both slots empty

  /** The handler's branches, from the key code and which slots are set. */
  function Dispatch(code: string, nodeSet: bool, introSet: bool): (a: KeyAction)
    ensures code != "KeyX" <==> a == Ignore
    ensures a == CallFinishOnNode <==> code == "KeyX" && nodeSet
    ensures a == SkipIntro <==> code == "KeyX" && !nodeSet && introSet
    ensures a == NoAudio <==> code == "KeyX" && !nodeSet && !introSet
  {
    if code != "KeyX" then Ignore
    else if nodeSet then CallFinishOnNode
    else if introSet then SkipIntro
    else NoAudio
  }

  /**
   * How the handler ends. The path-node component defines `forceFinish` but no
   * `finish`, so calling `finish` on the current node throws a TypeError.
   */
  datatype KeyOutcome = Ignored | NotAFunction | IntroFinished | NothingToSkip

  /** The `#intro` entity's sound: not playing and with no listener until the experience starts. */
  class IntroSound {
    var playing: bool
    /** `finishIntro` is registered as its once-only "sound-ended" listener. */
    var listening: bool

    constructor ()
      ensures !playing && !listening
    {
      playing := false;
      listening := false;
    }
  }

  /** The DOMContentLoaded closure and the state it captures. */
  class Experience {
    const window: Globals.Window
    const system: PathManagerSystem.PathManager
    const intro: IntroSound
    var introPlayed: bool
    var debugMode: bool

    /**
     * The intro slot only ever holds the intro; while `finishIntro` waits for
     * the intro's end, the intro is in the slot; the path manager keeps its
     * invariant.
     */
    ghost predicate Valid()
      reads this, window, intro, system
    {
      && (window.currentAudioEntity == null || window.currentAudioEntity == intro)
      && (intro.listening ==> window.currentAudioEntity == intro)
      && system.Valid()
    }

    constructor (window: Globals.Window, system: PathManagerSystem.PathManager, intro: IntroSound)
      requires window.currentAudioEntity == null && !intro.listening && system.Valid()
      ensures Valid()
      ensures this.window == window && this.system == system && this.intro == intro
      ensures !introPlayed && !debugMode
    {
      this.window := window;
      this.system := system;
      this.intro := intro;
      introPlayed := false;
      debugMode := false;
    }

    /**
     * `finishIntro`: does nothing when the intro slot is empty; otherwise stops
     * the intro, drops its listener, empties the slot and respawns the roots
     * (the played set is kept). Either way the slot is empty afterwards, so a
     * second call does nothing.
     */
    method FinishIntro()
      requires Valid()
      modifies window`currentAudioEntity, intro, system
      ensures Valid()
      ensures window.currentAudioEntity == null
      ensures old(window.currentAudioEntity) == null ==> unchanged(intro, system)
      ensures old(window.currentAudioEntity) != null ==>
                && !intro.playing && !intro.listening
                && system.played == old(system.played)
                && system.active == PathManagerSystem.RootMap()
    {
      if window.currentAudioEntity == null {
        return;
      }
      intro.playing := false;
      intro.listening := false;
      window.currentAudioEntity := null;
      system.SpawnInitialDirections();
    }

    /**
     * The intro part of `startExperience`: the first call sets `introPlayed`,
     * puts the intro in the slot and starts it with `finishIntro` as its
     * once-only listener; later calls leave the intro alone.
     */
    method StartExperience()
      requires Valid()
      modifies this`introPlayed, window`currentAudioEntity, intro
      ensures Valid()
      ensures introPlayed
      ensures old(introPlayed) ==> window.currentAudioEntity == old(window.currentAudioEntity) && unchanged(intro)
      ensures !old(introPlayed) ==> window.currentAudioEntity == intro && intro.playing && intro.listening
    {
      if !introPlayed {
        introPlayed := true;
        window.currentAudioEntity := intro;
        intro.playing := true;
        intro.listening := true;
      }
    }

    /** The start button's click: debug mode follows the Shift key, then the experience starts. */
    method StartClick(shiftKey: bool)
      requires Valid()
      modifies this`introPlayed, this`debugMode, window`debugMode, window`currentAudioEntity, intro
      ensures Valid()
      ensures debugMode == shiftKey && window.debugMode == shiftKey
      ensures introPlayed
      ensures old(introPlayed) ==> window.currentAudioEntity == old(window.currentAudioEntity) && unchanged(intro)
      ensures !old(introPlayed) ==> window.currentAudioEntity == intro && intro.playing && intro.listening
    {
      debugMode := shiftKey;
      window.debugMode := debugMode;
      StartExperience();
    }

    /** The intro's "sound-ended" event: the once-only listener runs `finishIntro`. */
    method IntroEnded()
      requires Valid()
      modifies window`currentAudioEntity, intro, system
      ensures Valid()
      ensures !old(intro.listening) ==> unchanged(window, intro, system)
      ensures old(intro.listening) ==>
                && window.currentAudioEntity == null && !intro.playing && !intro.listening
                && system.played == old(system.played)
                && system.active == PathManagerSystem.RootMap()
    {
      if intro.listening {
        intro.listening := false;
        intro.playing := false;
        FinishIntro();
      }
    }

    /**
     * The keydown handler. Only X is handled. With a current node set, the call
     * of its missing `finish` member throws and nothing changes (the intro is
     * not finished either); otherwise a playing intro is finished.
     */
    method KeyDown(code: string) returns (outcome: KeyOutcome)
      requires Valid()
      modifies window`currentAudioEntity, intro, system
      ensures Valid()
      ensures var action := Dispatch(code, old(window.currentAudioNode) != null, old(window.currentAudioEntity) != null);
        outcome == match action
          case Ignore => Ignored
          case CallFinishOnNode => NotAFunction
          case SkipIntro => IntroFinished
          case NoAudio => NothingToSkip
      ensures outcome != IntroFinished ==> unchanged(window, intro, system)
      ensures outcome == IntroFinished ==>
                && window.currentAudioEntity == null && !intro.playing && !intro.listening
                && system.played == old(system.played)
                && system.active == PathManagerSystem.RootMap()
    {
      var action := Dispatch(code, window.currentAudioNode != null, window.currentAudioEntity != null);
      match action
      case Ignore =>
        outcome := Ignored;
      case CallFinishOnNode =>
        outcome := NotAFunction;
      case SkipIntro =>
        FinishIntro();
        outcome := IntroFinished;
      case NoAudio =>
        outcome := NothingToSkip;
    }
  }

  /**
   * A node with a clip is triggered and plays; X is pressed. The handler
   * throws, the node keeps playing, is not finished, and the path manager has
   * not heard of its completion: only the clip's own end can finish it.
   */
  method SkipWhileNodePlays(graph: Graph, pose: Pose) returns (outcome: KeyOutcome, playing: bool, finished: bool, played: set<string>)
    ensures outcome == NotAFunction && playing && !finished && played == {}
  {
    var window := new Globals.Window(false);
    var system := new PathManagerSystem.PathManager(graph);
    var intro := new IntroSound();
    var experience := new Experience(window, system, intro);
    var front := PathManagerSystem.RootMap()["front_1"];
    var node := new Proximity.PathNode(front, system, window);
    node.ProbeSettled(true);
    node.Tick(0.5, pose);
    assert window.currentAudioNode == node;
    outcome := experience.KeyDown("KeyX");
    playing, finished, played := node.playing, node.finished, system.played;
  }
}
