/// The process-wide state that scripts/start.js declares on `window` and
/// that the path nodes of scripts/proximity.js also write.
module Globals {

  class Window {
    /** `IS_IOS`, decided once from the user agent. */
    const isIOS: bool
    /** `__CURRENT_AUDIO_NODE__`: the path node that last claimed the audio, or null. */
    var currentAudioNode: object?
    /** `__CURRENT_AUDIO_ENTITY__`: the intro entity while the intro plays, or null. */
    var currentAudioEntity: object?
    /** `__DEBUG_MODE__`. */
    var debugMode: bool

    /** Both slots start empty and debug mode starts off. */
    constructor (isIOS: bool)
      ensures this.isIOS == isIOS
      ensures currentAudioNode == null && currentAudioEntity == null && !debugMode
    {
      this.isIOS := isIOS;
      currentAudioNode := null;
      currentAudioEntity := null;
      debugMode := false;
    }
  }
}
