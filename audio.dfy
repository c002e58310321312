/** pygame.mixer and pygame.mixer.music as eng.py uses them, and ensure_pygame. */
module Audio {
  import opened Outcomes
  import opened Storage

  /** The mixer's state: whether mixer.init has run, which file music.load
      last loaded, whether get_busy() reports sound, and whether the music is
      paused (pygame 2 reports a paused stream as not busy). */
  datatype Device = Device(initialized: bool, loaded: Option<Path>, busy: bool, suspended: bool)

  /** The mixer before mixer.init and after mixer.quit. */
  const Quiet := Device(false, None, false, false)

  /** What pygame keeps true of its mixer: nothing is initialized without
      pygame, nothing is loaded before init, only loaded music plays or is
      paused, and paused music is not busy. */
  ghost predicate DeviceOk(pygame: bool, d: Device) {
    && (d.initialized ==> pygame)
    && (d.loaded.Some? ==> d.initialized)
    && (d.busy || d.suspended ==> d.loaded.Some?)
    && !(d.busy && d.suspended)
  }

  /** ensure_pygame (eng.py:51-59): fails when pygame did not import, calls
      mixer.init only when the mixer is not initialized yet, and reports a
      failing mixer.init (`initOk` is its outcome). */
  function Ensure(pygame: bool, d: Device, initOk: bool): (r: (Device, Outcome<Error>))
    ensures r.1 == Pass <==> pygame && (d.initialized || initOk)
    ensures r.1 == Fail(PygameMissing) <==> !pygame
    ensures r.1 == Fail(DeviceInitFailed) <==> pygame && !d.initialized && !initOk
    ensures r.1.Pass? ==> r.0.initialized
    ensures r.0 == d.(initialized := r.0.initialized)
    ensures d.initialized || r.1.Fail? ==> r.0 == d
    ensures DeviceOk(pygame, d) ==> DeviceOk(pygame, r.0)
  {
    if !pygame then (d, Fail(PygameMissing))
    else if d.initialized then (d, Pass)
    else if initOk then (d.(initialized := true), Pass)
    else (d, Fail(DeviceInitFailed))
  }

  /** music.stop(): silences the stream and drops a pause, keeping the music loaded. */
  function MusicStop(d: Device): (r: Device)
    requires d.initialized
    ensures !r.busy && !r.suspended && r.loaded == d.loaded && r.initialized
  {
    d.(busy := false, suspended := false)
  }

  /** music.load(p): succeeds when the file exists and decodes (`decodes`);
      on failure the previously loaded music stays loaded. */
  function MusicLoad(d: Device, p: Path, files: set<Path>, decodes: bool): (r: (Device, bool))
    requires d.initialized
    ensures r.1 <==> p in files && decodes
    ensures r.1 ==> r.0 == Device(true, Some(p), false, false)
    ensures !r.1 ==> r.0 == d
  {
    if p in files && decodes then (Device(true, Some(p), false, false), true) else (d, false)
  }

  /** music.play(): starts the loaded music from the beginning. */
  function MusicPlay(d: Device): (r: Device)
    requires d.loaded.Some?
    ensures r.busy && !r.suspended && r.loaded == d.loaded && r.initialized == d.initialized
  {
    d.(busy := true, suspended := false)
  }

  /** music.pause(): suspends a busy stream; otherwise nothing happens. */
  function MusicPause(d: Device): (r: Device)
    ensures d.busy ==> !r.busy && r.suspended
    ensures !d.busy ==> r == d
    ensures r.loaded == d.loaded && r.initialized == d.initialized
  {
    if d.busy then d.(busy := false, suspended := true) else d
  }

  /** music.unpause(): resumes a suspended stream; otherwise nothing happens. */
  function MusicUnpause(d: Device): (r: Device)
    ensures d.suspended ==> r.busy && !r.suspended
    ensures !d.suspended ==> r == d
    ensures r.loaded == d.loaded && r.initialized == d.initialized
  {
    if d.suspended then d.(busy := true, suspended := false) else d
  }

  /** The music reaching its end: get_busy() turns false. */
  function MusicEnds(d: Device): (r: Device)
    ensures !r.busy
    ensures r.loaded == d.loaded && r.initialized == d.initialized && r.suspended == d.suspended
  {
    d.(busy := false)
  }

  /** pygame.mixer together with pygame.mixer.music. */
  class Mixer {
    var initialized: bool
    var loaded: Option<Path>
    var busy: bool
    var suspended: bool

    function State(): Device
      reads this
    {
      Device(initialized, loaded, busy, suspended)
    }

    /** The mixer before anything calls mixer.init. */
    constructor ()
      ensures State() == Quiet
    {
      initialized, loaded, busy, suspended := false, None, false, false;
    }

    /** mixer.init() when it succeeds. */
    method Init()
      modifies this
      ensures State() == old(State()).(initialized := true)
    {
      initialized := true;
    }

    /** mixer.quit(): the mixer forgets the loaded music and releases its file. */
    method Quit()
      modifies this
      ensures State() == Quiet
    {
      initialized, loaded, busy, suspended := false, None, false, false;
    }

    method Stop()
      requires initialized
      modifies this
      ensures State() == MusicStop(old(State()))
    {
      busy, suspended := false, false;
    }

    method Load(p: Path, fs: FileSystem, decodes: bool) returns (ok: bool)
      requires initialized
      modifies this
      ensures (State(), ok) == MusicLoad(old(State()), p, fs.files, decodes)
    {
      ok := p in fs.files && decodes;
      if ok {
        loaded, busy, suspended := Some(p), false, false;
      }
    }

    /** music.play(): `starts` is whether it succeeds; a failing call changes nothing. */
    method Play(starts: bool) returns (ok: bool)
      requires loaded.Some?
      modifies this
      ensures ok == starts
      ensures State() == if starts then MusicPlay(old(State())) else old(State())
    {
      ok := starts;
      if ok {
        busy, suspended := true, false;
      }
    }

    method Pause()
      modifies this
      ensures State() == MusicPause(old(State()))
    {
      if busy {
        busy, suspended := false, true;
      }
    }

    method Unpause()
      modifies this
      ensures State() == MusicUnpause(old(State()))
    {
      if suspended {
        busy, suspended := true, false;
      }
    }
  }

  /** ensure_pygame on the mixer object; `pygame` says whether the import succeeded. */
  method EnsurePygame(pygame: bool, m: Mixer, initOk: bool) returns (o: Outcome<Error>)
    modifies m
    ensures (m.State(), o) == Ensure(pygame, old(m.State()), initOk)
  {
    if !pygame {
      return Fail(PygameMissing);
    }
    if !m.initialized {
      if !initOk {
        return Fail(DeviceInitFailed);
      }
      m.Init();
    }
    o := Pass;
  }
}
