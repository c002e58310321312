/** The TTSPlayer playback and temp-file state machine of eng.py as pure
    transitions over a snapshot of the player, the mixer and the disk. */
module PlayerModel {
  import opened Outcomes
  import opened Storage
  import opened Audio

  /** Which of the optional imports at the top of eng.py succeeded. */
  datatype Modules = Modules(pyttsx3: bool, gtts: bool, audioSegment: bool, pygame: bool)

  /** TTSPlayer's four fields, with the mixer and the disk they refer to. */
  datatype World = World(
    audioFile: Option<Path>,
    rawMp3: Option<Path>,
    playing: bool,
    paused: bool,
    device: Device,
    disk: Disk)

  /** What holds of the paths, the mixer and the disk: a tracked raw MP3 is
      also the final file, and tracked paths were handed out by mkstemp. */
  ghost predicate WellFormed(m: Modules, w: World) {
    && DeviceOk(m.pygame, w.device)
    && DiskOk(w.disk)
    && (w.rawMp3.Some? ==> w.audioFile == w.rawMp3)
    && (w.audioFile.Some? ==> w.audioFile.value.id < w.disk.next)
  }

  /** What holds between operations: besides the above, the two flags are
      never both set, and a set flag means the mixer is initialized. */
  ghost predicate Inv(m: Modules, w: World) {
    && WellFormed(m, w)
    && !(w.playing && w.paused)
    && (w.playing || w.paused ==> w.device.initialized)
  }

  /** The paths cleanup collects: audio_file and _raw_mp3 when set. */
  function Tracked(w: World): (s: set<Path>)
    ensures forall p :: p in s <==> Some(p) == w.audioFile || Some(p) == w.rawMp3
  {
    (if w.audioFile.Some? then {w.audioFile.value} else {}) +
    (if w.rawMp3.Some? then {w.rawMp3.value} else {})
  }

  /** TTSPlayer.__init__: nothing tracked, neither flag set. */
  function Initial(device: Device, disk: Disk): (w: World)
    ensures w.audioFile == None && w.rawMp3 == None && !w.playing && !w.paused
    ensures forall m: Modules :: DeviceOk(m.pygame, device) && DiskOk(disk) ==> Inv(m, w)
  {
    World(None, None, false, false, device, disk)
  }

  /** The offline engine is tried only for an English language code, with
      pyttsx3 present and gTTS absent. */
  predicate OfflineChosen(m: Modules, lang: string): (b: bool)
    ensures b <==> m.pyttsx3 && !m.gtts && |lang| >= 2 && lang[..2] == "en"
  {
    "en" <= lang && m.pyttsx3 && !m.gtts
  }

  /** _stop_and_cleanup_playback: music.stop() and mixer.quit() when pygame is
      present and the mixer initialized, so the device lets go of its file. */
  function StopAndCleanupPlayback(m: Modules, w: World): (r: World)
    ensures Inv(m, w) ==> r == w.(device := Quiet)
  {
    if m.pygame && w.device.initialized then w.(device := Quiet) else w
  }

  /** cleanup: deletes the tracked files that exist, forgets both paths and
      clears both flags; the mixer is left as it is. */
  function Cleanup(w: World): (r: World)
    ensures forall p :: p in r.disk.files <==> p in w.disk.files && p !in Tracked(w)
    ensures r.audioFile == None && r.rawMp3 == None && !r.playing && !r.paused
    ensures r.device == w.device && r.disk.next == w.disk.next
    ensures forall m: Modules :: Inv(m, w) ==> Inv(m, r)
  {
    World(None, None, false, false, w.device, Disk(w.disk.files - Tracked(w), w.disk.next))
  }

  /** The files an operation created that were not there before. */
  function Created(before: World, after: World): set<Path> {
    after.disk.files - before.disk.files
  }

  /** generate after its two cleanup calls (eng.py:85-138): the offline
      engine, else gTTS to a fresh MP3, then an optional conversion to a fresh
      WAV. The outcomes of the three back-ends are arguments. */
  function Synthesize(m: Modules, w: World, lang: string, offlineOk: bool, gttsOk: bool, convertOk: bool)
    : (r: (World, Result<Path, Error>))
    // every file it adds is fresh, and which files those are
    ensures DiskOk(w.disk) ==> DiskOk(r.0.disk) && w.disk.next <= r.0.disk.next
    ensures DiskOk(w.disk) ==> forall p :: p in Created(w, r.0) ==> w.disk.next <= p.id
    ensures DiskOk(w.disk) ==> forall p :: p in w.disk.files ==> p in r.0.disk.files
    ensures DiskOk(w.disk) && OfflineChosen(m, lang) && offlineOk ==>
      r.1.Success? && Created(w, r.0) == {r.1.value}
    ensures DiskOk(w.disk) && m.gtts && gttsOk && !(m.audioSegment && !convertOk) ==>
      r.1.Success? && Created(w, r.0) == {r.1.value}
    ensures DiskOk(w.disk) && m.gtts && gttsOk && m.audioSegment && !convertOk ==>
      r.1.Success? && exists q: Path :: q.suffix == Wav && q != r.1.value && Created(w, r.0) == {r.1.value, q}
    ensures DiskOk(w.disk) && r.1 == Failure(GttsFailed) ==> Created(w, r.0) == {}
    ensures DiskOk(w.disk) && r.1 == Failure(GttsUnavailable) ==>
      if OfflineChosen(m, lang) then exists q: Path :: q.suffix == Wav && Created(w, r.0) == {q}
      else Created(w, r.0) == {}
  {
    if OfflineChosen(m, lang) && offlineOk then
      var t := MakeTemp(w.disk, Wav);
      (w.(audioFile := Some(t.1), disk := t.0), Success(t.1))
    else
      // a failed offline attempt leaves its mkstemp file behind
      var disk := if OfflineChosen(m, lang) then MakeTemp(w.disk, Wav).0 else w.disk;
      if !m.gtts then
        (w.(disk := disk), Failure(GttsUnavailable))
      else
        var mp3 := MakeTemp(disk, Mp3);
        if !gttsOk then
          (w.(disk := Removed(mp3.0, mp3.1)), Failure(GttsFailed))
        else if m.audioSegment then
          var wav := MakeTemp(mp3.0, Wav);
          if convertOk then
            (w.(audioFile := Some(wav.1), rawMp3 := None, disk := Removed(wav.0, mp3.1)), Success(wav.1))
          else
            // a failed conversion leaves its mkstemp file behind
            (w.(audioFile := Some(mp3.1), rawMp3 := Some(mp3.1), disk := wav.0), Success(mp3.1))
        else
          (w.(audioFile := Some(mp3.1), rawMp3 := Some(mp3.1), disk := mp3.0), Success(mp3.1))
  }

  /** TTSPlayer.generate (eng.py:76-138). */
  function GenerateStep(m: Modules, w: World, lang: string, offlineOk: bool, gttsOk: bool, convertOk: bool)
    : (r: (World, Result<Path, Error>))
    // the earlier files are gone, the mixer has been quit, nothing plays
    ensures Inv(m, w) ==> Inv(m, r.0)
    ensures Inv(m, w) ==> r.0.device == Quiet && !r.0.playing && !r.0.paused
    ensures Inv(m, w) ==> forall p :: p in Tracked(w) ==> p !in r.0.disk.files
    ensures Inv(m, w) ==> forall p :: p in w.disk.files && p !in Tracked(w) ==> p in r.0.disk.files
    // which back-end fails the call
    ensures r.1 == Failure(GttsUnavailable) <==> !m.gtts && !(OfflineChosen(m, lang) && offlineOk)
    ensures r.1 == Failure(GttsFailed) <==> m.gtts && !gttsOk
    ensures r.1.Failure? ==> r.0.audioFile == None && r.0.rawMp3 == None
    ensures Inv(m, w) && r.1 == Failure(GttsFailed) ==> r.0.disk.files == w.disk.files - Tracked(w)
    // a success tracks a fresh, existing file as the final file
    ensures Inv(m, w) && r.1.Success? ==>
      && r.0.audioFile == Some(r.1.value)
      && r.1.value in r.0.disk.files
      && r.1.value !in w.disk.files
    ensures OfflineChosen(m, lang) && offlineOk ==>
      r.1.Success? && r.1.value.suffix == Wav && r.0.rawMp3 == None
    ensures Inv(m, w) && OfflineChosen(m, lang) && offlineOk ==> Created(w, r.0) == {r.1.value}
    // with a working conversion the MP3 is deleted and only the WAV is new
    ensures m.gtts && gttsOk && m.audioSegment && convertOk ==>
      r.1.Success? && r.1.value.suffix == Wav && r.0.rawMp3 == None
    ensures Inv(m, w) && m.gtts && gttsOk && m.audioSegment && convertOk ==>
      Created(w, r.0) == {r.1.value}
    // without one the MP3 is both the raw and the final file
    ensures m.gtts && gttsOk && !(m.audioSegment && convertOk) ==>
      r.1.Success? && r.1.value.suffix == Mp3 && r.0.rawMp3 == Some(r.1.value)
    ensures Inv(m, w) && m.gtts && gttsOk && !m.audioSegment ==> Created(w, r.0) == {r.1.value}
    // a failed conversion leaves its WAV beside the MP3
    ensures Inv(m, w) && m.gtts && gttsOk && m.audioSegment && !convertOk ==>
      exists q: Path :: q.suffix == Wav && q != r.1.value && Created(w, r.0) == {r.1.value, q}
    // a failed offline attempt leaves its WAV; otherwise nothing is new
    ensures Inv(m, w) && r.1 == Failure(GttsUnavailable) ==>
      if OfflineChosen(m, lang) then exists q: Path :: q.suffix == Wav && Created(w, r.0) == {q}
      else Created(w, r.0) == {}
  {
    var w1 := Cleanup(StopAndCleanupPlayback(m, w));
    var r := Synthesize(m, w1, lang, offlineOk, gttsOk, convertOk);
    assert Inv(m, w) ==> Created(w, r.0) == Created(w1, r.0);
    r
  }

  /** TTSPlayer.play (eng.py:140-156). */
  function PlayStep(m: Modules, w: World, initOk: bool, decodes: bool, starts: bool)
    : (r: (World, Outcome<Error>))
    ensures r.1 == Pass <==>
      && m.pygame && (w.device.initialized || initOk)
      && w.audioFile.Some? && w.audioFile.value in w.disk.files && decodes && starts
    ensures r.1 == Fail(NoAudioFile) <==>
      m.pygame && (w.device.initialized || initOk) &&
      (w.audioFile.None? || w.audioFile.value !in w.disk.files)
    ensures r.1 == Fail(PlaybackFailed) <==>
      m.pygame && (w.device.initialized || initOk) &&
      w.audioFile.Some? && w.audioFile.value in w.disk.files && !(decodes && starts)
    ensures Ensure(m.pygame, w.device, initOk).1.Fail? ==> r.1 == Ensure(m.pygame, w.device, initOk).1
    // a raise leaves the paths, the flags and the disk as they were
    ensures r.1.Fail? ==> r.0 == w.(device := r.0.device)
    // the existence test comes before music.stop; a failing load comes after it
    ensures r.1 == Fail(NoAudioFile) ==> r.0.device == w.device.(initialized := r.0.device.initialized)
    ensures r.1 == Fail(PlaybackFailed) ==> !r.0.device.busy && !r.0.device.suspended
    // a failing music.play comes after the new file has been loaded
    ensures r.1 == Fail(PlaybackFailed) && decodes ==> r.0.device.loaded == w.audioFile
    // a failing music.load keeps the old music loaded
    ensures r.1 == Fail(PlaybackFailed) && !decodes ==> r.0.device.loaded == w.device.loaded
    // only ensure_pygame's mixer.init touches the initialization
    ensures r.0.device.initialized == Ensure(m.pygame, w.device, initOk).0.initialized
    ensures r.1 == Pass ==>
      r.0 == w.(playing := true, paused := false, device := Device(true, w.audioFile, true, false))
    ensures Inv(m, w) ==> Inv(m, r.0)
  {
    var e := Ensure(m.pygame, w.device, initOk);
    if e.1.Fail? then
      (w.(device := e.0), e.1)
    else if w.audioFile.None? || w.audioFile.value !in w.disk.files then
      (w.(device := e.0), Fail(NoAudioFile))
    else
      var l := MusicLoad(MusicStop(e.0), w.audioFile.value, w.disk.files, decodes);
      if !l.1 || !starts then
        (w.(device := l.0), Fail(PlaybackFailed))
      else
        (w.(device := MusicPlay(l.0), playing := true, paused := false), Pass)
  }

  /** TTSPlayer.pause (eng.py:158-166); a raise is printed and swallowed. */
  function PauseStep(m: Modules, w: World, initOk: bool): (r: World)
    ensures Inv(m, w) && w.device.busy && !w.paused ==>
      r == w.(playing := false, paused := true, device := w.device.(busy := false, suspended := true))
    // otherwise only ensure_pygame's mixer.init can have happened
    ensures !(w.device.busy && !w.paused) ==>
      r == w.(device := w.device.(initialized := r.device.initialized))
    ensures r.device.initialized == Ensure(m.pygame, w.device, initOk).0.initialized
    ensures Inv(m, w) ==> Inv(m, r)
  {
    var e := Ensure(m.pygame, w.device, initOk);
    if e.1.Pass? && e.0.busy && !w.paused then
      w.(device := MusicPause(e.0), paused := true, playing := false)
    else
      w.(device := e.0)
  }

  /** TTSPlayer.resume (eng.py:168-176); a raise is printed and swallowed. */
  function ResumeStep(m: Modules, w: World, initOk: bool): (r: World)
    ensures Inv(m, w) && w.paused ==>
      r == w.(playing := true, paused := false, device := MusicUnpause(w.device))
    ensures !w.paused ==> r == w.(device := w.device.(initialized := r.device.initialized))
    ensures r.device.initialized == Ensure(m.pygame, w.device, initOk).0.initialized
    ensures Inv(m, w) ==> Inv(m, r)
  {
    var e := Ensure(m.pygame, w.device, initOk);
    if e.1.Pass? && w.paused then
      w.(device := MusicUnpause(e.0), paused := false, playing := true)
    else
      w.(device := e.0)
  }

  /** TTSPlayer.stop (eng.py:178-185); it raises nothing. */
  function StopStep(m: Modules, w: World, initOk: bool): (r: World)
    ensures Inv(m, w) ==> !r.playing && !r.paused && !r.device.busy && !r.device.suspended
    ensures r == w.(playing := r.playing, paused := r.paused, device := r.device)
    ensures r.device.loaded == w.device.loaded
    ensures r.device.initialized == Ensure(m.pygame, w.device, initOk).0.initialized
    ensures Inv(m, w) ==> Inv(m, r)
  {
    var e := Ensure(m.pygame, w.device, initOk);
    if e.1.Pass? then
      w.(device := MusicStop(e.0), playing := false, paused := false)
    else
      w.(device := e.0)
  }

  /** TTSPlayer.replay (eng.py:187-201): like play, but without the existence
      test, so a missing or unloadable file surfaces as music.load's error
      after the music has been stopped, and music.play's error is not wrapped. */
  function ReplayStep(m: Modules, w: World, initOk: bool, decodes: bool, starts: bool)
    : (r: (World, Outcome<Error>))
    ensures r.1 == Pass <==>
      && m.pygame && (w.device.initialized || initOk)
      && w.audioFile.Some? && w.audioFile.value in w.disk.files && decodes && starts
    ensures Ensure(m.pygame, w.device, initOk).1.Fail? ==> r.1 == Ensure(m.pygame, w.device, initOk).1
    ensures r.1 == Fail(LoadFailed) <==>
      m.pygame && (w.device.initialized || initOk) &&
      !(w.audioFile.Some? && w.audioFile.value in w.disk.files && decodes)
    ensures r.1.Fail? ==> r.0 == w.(device := r.0.device)
    ensures r.1 == Fail(PlayFailed) <==>
      m.pygame && (w.device.initialized || initOk) &&
      w.audioFile.Some? && w.audioFile.value in w.disk.files && decodes && !starts
    ensures r.1 == Fail(LoadFailed) || r.1 == Fail(PlayFailed) ==>
      !r.0.device.busy && !r.0.device.suspended
    ensures r.1 == Fail(PlayFailed) ==> r.0.device.loaded == w.audioFile
    ensures r.1 == Fail(LoadFailed) ==> r.0.device.loaded == w.device.loaded
    ensures r.0.device.initialized == Ensure(m.pygame, w.device, initOk).0.initialized
    ensures r.1 == Pass ==>
      r.0 == w.(playing := true, paused := false, device := Device(true, w.audioFile, true, false))
    ensures Inv(m, w) ==> Inv(m, r.0)
  {
    var e := Ensure(m.pygame, w.device, initOk);
    if e.1.Fail? then
      (w.(device := e.0), e.1)
    else
      var stopped := MusicStop(e.0);
      if w.audioFile.None? then
        (w.(device := stopped), Fail(LoadFailed))
      else
        var l := MusicLoad(stopped, w.audioFile.value, w.disk.files, decodes);
        if !l.1 then
          (w.(device := l.0), Fail(LoadFailed))
        else if !starts then
          (w.(device := l.0), Fail(PlayFailed))
        else
          (w.(device := MusicPlay(l.0), playing := true, paused := false), Pass)
  }

  /** Everything that can happen to a player: its public operations with the
      outcomes of the libraries they call, the music ending by itself, and a
      file being deleted by someone else. */
  datatype Op =
    | Generate(lang: string, offlineOk: bool, gttsOk: bool, convertOk: bool)
    | Play(initOk: bool, decodes: bool, starts: bool)
    | Pause(initOk: bool)
    | Resume(initOk: bool)
    | Stop(initOk: bool)
    | Replay(initOk: bool, decodes: bool, starts: bool)
    | CleanupFiles
    | MusicEnded
    | ExternalDelete(p: Path)

  function Apply(m: Modules, w: World, op: Op): (r: World)
    ensures Inv(m, w) ==> Inv(m, r)
  {
    match op
    case Generate(lang, offlineOk, gttsOk, convertOk) => GenerateStep(m, w, lang, offlineOk, gttsOk, convertOk).0
    case Play(initOk, decodes, starts) => PlayStep(m, w, initOk, decodes, starts).0
    case Pause(initOk) => PauseStep(m, w, initOk)
    case Resume(initOk) => ResumeStep(m, w, initOk)
    case Stop(initOk) => StopStep(m, w, initOk)
    case Replay(initOk, decodes, starts) => ReplayStep(m, w, initOk, decodes, starts).0
    case CleanupFiles => Cleanup(w)
    case MusicEnded => w.(device := MusicEnds(w.device))
    case ExternalDelete(p) => w.(disk := Removed(w.disk, p))
  }

  /** The state after a sequence of operations, the first applied first. */
  function Run(m: Modules, w: World, ops: seq<Op>): World
    decreases |ops|
  {
    if ops == [] then w else Run(m, Apply(m, w, ops[0]), ops[1..])
  }

  lemma {:induction false} RunKeepsInv(m: Modules, w: World, ops: seq<Op>)
    requires Inv(m, w)
    ensures Inv(m, Run(m, w, ops))
    decreases |ops|
  {
    if ops != [] {
      RunKeepsInv(m, Apply(m, w, ops[0]), ops[1..]);
    }
  }

  /** is_playing and paused are never both true, after any history. */
  lemma FlagsNeverBoth(m: Modules, device: Device, disk: Disk, ops: seq<Op>)
    requires DeviceOk(m.pygame, device) && DiskOk(disk)
    ensures !(Run(m, Initial(device, disk), ops).playing && Run(m, Initial(device, disk), ops).paused)
  {
    RunKeepsInv(m, Initial(device, disk), ops);
  }

  /** stop twice is stop once. */
  lemma StopIdempotent(m: Modules, w: World, initOk: bool)
    ensures StopStep(m, StopStep(m, w, initOk), initOk) == StopStep(m, w, initOk)
  {
  }

  /** cleanup twice is cleanup once. */
  lemma CleanupIdempotent(w: World)
    ensures Cleanup(Cleanup(w)) == Cleanup(w)
  {
  }

  /** pause then resume of playing music returns to the same state, with the
      same file loaded and nothing reloaded. */
  lemma PauseThenResume(m: Modules, w: World, initOk1: bool, initOk2: bool)
    requires Inv(m, w) && w.playing && w.device.busy
    ensures ResumeStep(m, PauseStep(m, w, initOk1), initOk2) == w
  {
  }

  /** What generate returns can be played: after a successful generate, a
      play whose mixer.init, music.load and music.play succeed plays that file. */
  lemma GenerateThenPlay(m: Modules, w: World, lang: string, offlineOk: bool, gttsOk: bool, convertOk: bool)
    requires Inv(m, w) && m.pygame
    requires GenerateStep(m, w, lang, offlineOk, gttsOk, convertOk).1.Success?
    ensures
      var g := GenerateStep(m, w, lang, offlineOk, gttsOk, convertOk);
      var p := PlayStep(m, g.0, true, true, true);
      p.1 == Pass && p.0.device.loaded == Some(g.1.value) && p.0.device.busy && p.0.playing
  {
  }

  /** With gTTS installed the offline engine is never tried, for English too:
      its outcome does not matter. */
  lemma GttsPreferred(m: Modules, w: World, lang: string, gttsOk: bool, convertOk: bool)
    requires m.gtts
    ensures GenerateStep(m, w, lang, true, gttsOk, convertOk) == GenerateStep(m, w, lang, false, gttsOk, convertOk)
  {
  }

  /** A second generate deletes the first one's file and tracks a new one. */
  lemma GenerateSupersedes(m: Modules, w: World, lang1: string, lang2: string,
                           offlineOk1: bool, gttsOk1: bool, convertOk1: bool,
                           offlineOk2: bool, gttsOk2: bool, convertOk2: bool)
    requires Inv(m, w)
    requires GenerateStep(m, w, lang1, offlineOk1, gttsOk1, convertOk1).1.Success?
    ensures
      var g1 := GenerateStep(m, w, lang1, offlineOk1, gttsOk1, convertOk1);
      var g2 := GenerateStep(m, g1.0, lang2, offlineOk2, gttsOk2, convertOk2);
      && g1.1.value !in g2.0.disk.files
      && (g2.1.Success? ==> g2.1.value != g1.1.value)
  {
  }

  /** A failed conversion leaves its WAV file on disk, untracked. */
  lemma ConversionFailureLeavesWav(m: Modules, w: World, lang: string, offlineOk: bool)
    requires Inv(m, w) && m.gtts && m.audioSegment
    ensures
      var g := GenerateStep(m, w, lang, offlineOk, true, false);
      exists q :: q in Created(w, g.0) && q.suffix == Wav && q !in Tracked(g.0)
  {
    var w1 := Cleanup(StopAndCleanupPlayback(m, w));
    var mp3 := MakeTemp(w1.disk, Mp3);
    var wav := MakeTemp(mp3.0, Wav);
    var g := GenerateStep(m, w, lang, offlineOk, true, false);
    assert wav.1 in Created(w, g.0);
  }

  /** A failed offline attempt leaves its WAV file on disk and raises. */
  lemma OfflineFailureLeavesWav(m: Modules, w: World, lang: string, gttsOk: bool, convertOk: bool)
    requires Inv(m, w) && OfflineChosen(m, lang)
    ensures
      var g := GenerateStep(m, w, lang, false, gttsOk, convertOk);
      && g.1 == Failure(GttsUnavailable)
      && exists q :: q in Created(w, g.0) && q.suffix == Wav && q !in Tracked(g.0)
  {
  }

  /** The flags record what the player last asked for, not what the mixer
      does: a replay whose music.load fails after the stop leaves paused set,
      and the resume that follows sets is_playing with nothing busy. */
  lemma FailedReplayThenResume(m: Modules, w: World, initOk: bool)
    requires Inv(m, w) && w.paused
    ensures
      var r := ReplayStep(m, w, initOk, false, true);
      var s := ResumeStep(m, r.0, initOk);
      r.1 == Fail(LoadFailed) && r.0.paused && s.playing && !s.device.busy
  {
  }
}
