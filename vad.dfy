/** The voice-activity classifier wrapper (src/audio/vad.py). The external
    classifier is an oracle: whether its library could be loaded, and what it
    answered (or that it raised) for a given frame. */
module Vad {
  import opened Clamp

  /** What the external classifier did with one frame. */
  datatype ClassifierOutcome = Verdict(speech: bool) | Raised

  class VadProcessor {
    /** `_aggressiveness`, always within [0, 3]. */
    var aggressiveness: int
    /** `_vad is not None`: the classifier library was loaded. */
    var classifierLoaded: bool

    /** `VADProcessor(aggressiveness)`: clamps the level to [0, 3] and then
        tries to load the classifier library. */
    constructor (aggressiveness: int, libraryPresent: bool)
      ensures 0 <= this.aggressiveness <= 3
      ensures 0 <= aggressiveness <= 3 ==> this.aggressiveness == aggressiveness
      ensures aggressiveness < 0 ==> this.aggressiveness == 0
      ensures aggressiveness > 3 ==> this.aggressiveness == 3
      ensures classifierLoaded == libraryPresent
    {
      classifierLoaded := false;
      this.aggressiveness := ClampInt(0, 3, aggressiveness);
      new;
      InitVad(libraryPresent);
    }

    /** `_init_vad`: the classifier is present exactly when its import succeeds. */
    method InitVad(libraryPresent: bool)
      modifies this
      ensures classifierLoaded == libraryPresent
      ensures aggressiveness == old(aggressiveness)
    {
      if libraryPresent {
        classifierLoaded := true;
      } else {
        classifierLoaded := false;
      }
    }

    /** `is_speech`: fails open. Without a classifier, or when the classifier
        raises, every frame counts as speech; otherwise the classifier decides. */
    function IsSpeech(outcome: ClassifierOutcome): (r: bool)
      reads this
      ensures !classifierLoaded ==> r
      ensures classifierLoaded && outcome.Raised? ==> r
      ensures classifierLoaded && outcome.Verdict? ==> r == outcome.speech
      ensures !r ==> classifierLoaded && outcome == Verdict(false)
    {
      if !classifierLoaded then true
      else match outcome
        case Verdict(speech) => speech
        case Raised => true
    }
  }
}
