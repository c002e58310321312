/** Option, Outcome and Result, and the errors eng.py raises. */
module Outcomes {

  datatype Option<+T> = None | Some(value: T) {
    function GetOr(default: T): T {
      match this
      case Some(v) => v
      case None => default
    }
  }

  /** The result of an operation that returns nothing but may raise. */
  datatype Outcome<+E> = Pass | Fail(error: E)

  /** The result of an operation that returns a value or raises. */
  datatype Result<+T, +E> = Success(value: T) | Failure(error: E)

  /** The RuntimeErrors raised by ensure_pygame and TTSPlayer, one per message. */
  datatype Error =
    | PygameMissing     // 'pygame is required for audio playback. ...'
    | DeviceInitFailed  // 'Failed to initialize audio device: ...'
    | NoAudioFile       // 'No audio file to play. Generate it first.'
    | PlaybackFailed    // 'Playback failed: ...'
    | LoadFailed        // the pygame error a failing music.load raises in replay
    | PlayFailed        // the pygame error a failing music.play raises in replay
    | GttsUnavailable   // 'gTTS not available. ...'
    | GttsFailed        // 'gTTS generation failed: ...'
}
