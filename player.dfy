/** TTSPlayer (eng.py:63-231) as a class over the filesystem and the mixer.
    Every method is proved to move the player, the mixer and the disk exactly
    as the matching step of PlayerModel says. */
module Player {
  import opened Outcomes
  import opened Storage
  import opened Audio
  import opened PlayerModel

  class TTSPlayer {
    var audioFile: Option<Path>   // final playable file (WAV preferred)
    var rawMp3: Option<Path>      // raw MP3 path, if one was made
    var isPlaying: bool
    var paused: bool
    const modules: Modules
    const fs: FileSystem
    const mixer: Mixer

    function Snapshot(): World
      reads this, fs, mixer
    {
      World(audioFile, rawMp3, isPlaying, paused, mixer.State(), fs.State())
    }

    ghost predicate Valid()
      reads this, fs, mixer
    {
      Inv(modules, Snapshot())
    }

    constructor (modules: Modules, fs: FileSystem, mixer: Mixer)
      requires fs.Valid() && DeviceOk(modules.pygame, mixer.State())
      ensures Valid()
      ensures this.modules == modules && this.fs == fs && this.mixer == mixer
      ensures Snapshot() == Initial(mixer.State(), fs.State())
    {
      this.modules, this.fs, this.mixer := modules, fs, mixer;
      audioFile, rawMp3 := None, None;
      isPlaying, paused := false, false;
    }

    method Generate(lang: string, offlineOk: bool, gttsOk: bool, convertOk: bool)
      returns (r: Result<Path, Error>)
      requires Valid()
      modifies this, fs, mixer
      ensures Valid()
      ensures (Snapshot(), r) == GenerateStep(modules, old(Snapshot()), lang, offlineOk, gttsOk, convertOk)
    {
      StopAndCleanupPlayback();
      Cleanup();
      if OfflineChosen(modules, lang) {
        var path := fs.Mkstemp(Wav);
        if offlineOk {
          audioFile := Some(path);
          return Success(path);
        }
      }
      if !modules.gtts {
        return Failure(GttsUnavailable);
      }
      var mp3Path := fs.Mkstemp(Mp3);
      if !gttsOk {
        fs.Remove(mp3Path);
        return Failure(GttsFailed);
      }
      rawMp3 := Some(mp3Path);
      if modules.audioSegment {
        var wavPath := fs.Mkstemp(Wav);
        if convertOk {
          audioFile := Some(wavPath);
          fs.Remove(rawMp3.value);
          rawMp3 := None;
          return Success(wavPath);
        }
      }
      audioFile := rawMp3;
      r := Success(mp3Path);
    }

    method Play(initOk: bool, decodes: bool, starts: bool) returns (o: Outcome<Error>)
      requires Valid()
      modifies this, mixer
      ensures Valid()
      ensures (Snapshot(), o) == PlayStep(modules, old(Snapshot()), initOk, decodes, starts)
    {
      o := EnsurePygame(modules.pygame, mixer, initOk);
      if o.Fail? {
        return;
      }
      if audioFile.None? || audioFile.value !in fs.files {
        return Fail(NoAudioFile);
      }
      mixer.Stop();
      var ok := mixer.Load(audioFile.value, fs, decodes);
      if !ok {
        return Fail(PlaybackFailed);
      }
      ok := mixer.Play(starts);
      if !ok {
        return Fail(PlaybackFailed);
      }
      isPlaying, paused := true, false;
    }

    method Pause(initOk: bool)
      requires Valid()
      modifies this, mixer
      ensures Valid()
      ensures Snapshot() == PauseStep(modules, old(Snapshot()), initOk)
    {
      var o := EnsurePygame(modules.pygame, mixer, initOk);
      if o.Pass? && mixer.busy && !paused {
        mixer.Pause();
        paused, isPlaying := true, false;
      }
    }

    method Resume(initOk: bool)
      requires Valid()
      modifies this, mixer
      ensures Valid()
      ensures Snapshot() == ResumeStep(modules, old(Snapshot()), initOk)
    {
      var o := EnsurePygame(modules.pygame, mixer, initOk);
      if o.Pass? && paused {
        mixer.Unpause();
        paused, isPlaying := false, true;
      }
    }

    method Stop(initOk: bool)
      requires Valid()
      modifies this, mixer
      ensures Valid()
      ensures Snapshot() == StopStep(modules, old(Snapshot()), initOk)
    {
      var o := EnsurePygame(modules.pygame, mixer, initOk);
      if o.Pass? {
        mixer.Stop();
        isPlaying, paused := false, false;
      }
    }

    method Replay(initOk: bool, decodes: bool, starts: bool) returns (o: Outcome<Error>)
      requires Valid()
      modifies this, mixer
      ensures Valid()
      ensures (Snapshot(), o) == ReplayStep(modules, old(Snapshot()), initOk, decodes, starts)
    {
      o := EnsurePygame(modules.pygame, mixer, initOk);
      if o.Fail? {
        return;
      }
      mixer.Stop();
      if audioFile.None? {
        return Fail(LoadFailed);
      }
      var ok := mixer.Load(audioFile.value, fs, decodes);
      if !ok {
        return Fail(LoadFailed);
      }
      ok := mixer.Play(starts);
      if !ok {
        return Fail(PlayFailed);
      }
      isPlaying, paused := true, false;
    }

    method StopAndCleanupPlayback()
      requires Valid()
      modifies mixer
      ensures Snapshot() == PlayerModel.StopAndCleanupPlayback(modules, old(Snapshot()))
      ensures WellFormed(modules, Snapshot()) && mixer.State() == Quiet
    {
      if modules.pygame && mixer.initialized {
        mixer.Stop();
        mixer.Quit();
      }
    }

    /** Collects the tracked paths in a list and deletes each that still
        exists; a path listed twice is found missing the second time. */
    method Cleanup()
      requires WellFormed(modules, Snapshot())
      modifies this, fs
      ensures Valid()
      ensures Snapshot() == PlayerModel.Cleanup(old(Snapshot()))
    {
      ghost var tracked := Tracked(Snapshot());
      var paths: seq<Path> := [];
      if audioFile.Some? {
        paths := paths + [audioFile.value];
      }
      if rawMp3.Some? {
        paths := paths + [rawMp3.value];
      }
      assert forall p :: p in paths <==> p in tracked;
      var i := 0;
      while i < |paths|
        modifies fs
        invariant 0 <= i <= |paths|
        invariant fs.Valid() && fs.next == old(fs.next)
        invariant forall p :: p in fs.files <==> p in old(fs.files) && p !in paths[..i]
      {
        if paths[i] in fs.files {
          fs.Remove(paths[i]);
        }
        i := i + 1;
      }
      assert paths[..i] == paths;
      assert fs.State() == Disk(old(fs.files) - tracked, old(fs.next));
      audioFile, rawMp3 := None, None;
      isPlaying, paused := false, false;
    }
  }
}
