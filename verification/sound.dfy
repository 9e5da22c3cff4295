/** `Sound`: a handle that plays through whichever voice it currently holds. Every
    call that touches the device first obtains a voice through `getSource`, which
    allocates one when the sound has none and then re-synchronises it. */
module Sound {
  import opened Base
  import opened AL
  import opened ALBuffer
  import opened ALBufferBank
  import opened World
  import opened ALSource
  import SoundManager

  /** `source = voice; voice.couple(this)`: both sides of the link are set. */
  function Link(w: World, s: SoundId, v: VoiceId): (r: World)
    requires Inv(w) && s < |w.sounds| && v < |w.voices|
    requires w.sounds[s].source.None? && w.voices[v].sound.None?
    ensures Inv(r) && Coupled(r, s, v) && !IsUncoupled(r.voices[v])
    ensures r.log == w.log && r.gains == w.gains
    ensures r.voices == w.voices[v := w.voices[v].(sound := Some(s))]
    ensures r.sounds == w.sounds[s := w.sounds[s].(source := Some(v))]
  {
    w.(sounds := w.sounds[s := w.sounds[s].(source := Some(v))],
       voices := w.voices[v := w.voices[v].(sound := Some(s))])
  }

  /** `getSelectedBuffer`: `buffers[selectedBuffer]`, with Java's exceptions. */
  function SelectedBuffer(x: Sound): (r: Result<Option<Buffer>>)
    ensures x.buffers.None? ==> r == Err(NullPointer)
    ensures x.buffers.Some? ==>
              (r.Ok? <==> 0 <= x.selected < |x.buffers.value|) &&
              (r.Ok? ==> r.value == x.buffers.value[x.selected]) &&
              (r.Err? ==> r.fault == IndexOutOfBounds)
  {
    match x.buffers
    case None => Err(NullPointer)
    case Some(bs) => if 0 <= x.selected < |bs| then Ok(bs[x.selected]) else Err(IndexOutOfBounds)
  }

  /** `setBuffer(buffers[selectedBuffer])` on the sound's voice. */
  function BindSelected(w: World, s: SoundId, v: VoiceId): (r: Step<()>)
    requires Inv(w) && Coupled(w, s, v)
    ensures Inv(r.w) && Coupled(r.w, s, v)
    ensures r.w.sounds == w.sounds && r.w.gains == w.gains && |r.w.voices| == |w.voices|
    ensures forall u :: 0 <= u < |w.voices| && u != v ==> r.w.voices[u] == w.voices[u]
    ensures r.w.voices[v] == w.voices[v].(buffer := r.w.voices[v].buffer)
    ensures r.r.Ok? <==> SelectedBuffer(w.sounds[s]).Ok? && SelectedBuffer(w.sounds[s]).value.Some?
    ensures r.r.Ok? ==>
              var b := SelectedBuffer(w.sounds[s]).value.value;
              r.w.voices[v].buffer == Some(b) && r.w.log == w.log + [AlBind(v, b.bufferId)]
  {
    match SelectedBuffer(w.sounds[s])
    case Err(f) => Step(w, Err(f))
    case Ok(b) => ALSource.SetBuffer(w, v, b)
  }

  /** The parameters `initSource` pushes after the buffer, in its order: gain (times
      the category's gain), looping, offset (with the bound buffer's size), pitch,
      position, velocity. */
  function Pushes(x: Sound, v: VoiceId, categoryGain: real, size: int): seq<Command> {
    [AlGain(v, x.gain, categoryGain), AlLooping(v, x.looping), AlOffset(v, size, x.offset),
     AlPitch(v, x.pitch), AlPosition(v, x.position), AlVelocity(v, x.velocity)]
  }

  /** The commands the cached state calls for at the end of `initSource`. */
  function Replay(x: Voice, v: VoiceId): seq<Command> {
    (if IsPlaying(x) then [AlPlay(v)] else []) +
    (if IsPaused(x) then [AlPause(v)] else []) +
    (if IsStopped(x) then [AlStop(v)] else [])
  }

  /** At most one of play, pause and stop is replayed: the one the voice's cached
      state names, whatever sound that state was polled for. */
  lemma ReplayFollowsCachedState(x: Voice, v: VoiceId)
    ensures |Replay(x, v)| <= 1
    ensures IsPlaying(x) <==> Replay(x, v) == [AlPlay(v)]
    ensures IsPaused(x) <==> Replay(x, v) == [AlPause(v)]
    ensures IsStopped(x) <==> Replay(x, v) == [AlStop(v)]
  {
    var r := Replay(x, v);
    if IsPlaying(x) {
      assert r == [AlPlay(v)];
    } else if IsPaused(x) {
      assert r == [AlPause(v)];
    } else if IsStopped(x) {
      assert r == [AlStop(v)];
    } else {
      assert r == [];
    }
  }

  /** `initSource` after its `selectBuffer`, on a voice that holds a buffer: each
      setter stores the value it already has and pushes it, then the cached state is
      replayed. Nothing cached changes. */
  function Refresh(w: World, s: SoundId, v: VoiceId): (r: World)
    requires Inv(w) && Coupled(w, s, v) && w.voices[v].buffer.Some?
    ensures r == w.(log := r.log)
    ensures r.log == w.log + Pushes(w.sounds[s], v, w.gains[w.sounds[s].category], w.voices[v].buffer.value.size)
                           + Replay(w.voices[v], v)
  {
    var x := w.sounds[s];
    var w1 := Emit(w, AlGain(v, x.gain, w.gains[x.category]));
    var w2 := Emit(w1, AlLooping(v, x.looping));
    var w3 := ALSource.SetOffset(w2, v, x.offset).w;
    var w4 := Emit(w3, AlPitch(v, x.pitch));
    var w5 := Emit(w4, AlPosition(v, x.position));
    var w6 := Emit(w5, AlVelocity(v, x.velocity));
    assert w6.voices == w.voices;
    assert w6.log == w.log + Pushes(x, v, w.gains[x.category], w.voices[v].buffer.value.size);
    var w7 := if IsPlaying(w6.voices[v]) then Emit(w6, AlPlay(v)) else w6;
    var w8 := if IsPaused(w7.voices[v]) then Emit(w7, AlPause(v)) else w7;
    var w9 := if IsStopped(w8.voices[v]) then Emit(w8, AlStop(v)) else w8;
    assert w9.log == w6.log + Replay(w.voices[v], v);
    w9
  }

  /** `initSource` on a coupled sound: the selected buffer is bound, the parameters
      pushed, and the cached state replayed; an unusable selected buffer throws before
      anything is pushed. */
  function Resync(w: World, s: SoundId, v: VoiceId): (r: Step<()>)
    requires Inv(w) && Coupled(w, s, v)
    ensures Inv(r.w) && Coupled(r.w, s, v)
    ensures r.w.sounds == w.sounds && r.w.gains == w.gains && |r.w.voices| == |w.voices|
    ensures forall u :: 0 <= u < |w.voices| && u != v ==> r.w.voices[u] == w.voices[u]
    ensures r.w.voices[v] == w.voices[v].(buffer := r.w.voices[v].buffer)
    ensures w.log <= r.w.log
    ensures r.r.Ok? <==> SelectedBuffer(w.sounds[s]).Ok? && SelectedBuffer(w.sounds[s]).value.Some?
    ensures r.r.Ok? ==>
              var x := w.sounds[s];
              var b := SelectedBuffer(x).value.value;
              && r.w.voices[v].buffer == Some(b)
              && r.w.log == w.log + [AlBind(v, b.bufferId)] + Pushes(x, v, w.gains[x.category], b.size)
                                  + Replay(w.voices[v], v)
  {
    var bound := BindSelected(w, s, v);
    if bound.r.Err? then bound
    else Step(Refresh(bound.w, s, v), Ok(()))
  }

  /** Every sound keeps its fields other than its link. */
  ghost predicate FieldsKept(w: World, w': World) {
    && |w'.sounds| == |w.sounds|
    && forall t :: 0 <= t < |w.sounds| ==> w'.sounds[t] == w.sounds[t].(source := w'.sounds[t].source)
  }

  lemma FieldsKeptTransitive(w1: World, w2: World, w3: World)
    requires FieldsKept(w1, w2) && FieldsKept(w2, w3)
    ensures FieldsKept(w1, w3)
  {
  }

  /** Changing one sound's link keeps every sound's other fields. */
  lemma RelinkKeepsFields(w: World, w': World, t: SoundId, o: Option<VoiceId>)
    requires t < |w.sounds| && w'.sounds == w.sounds[t := w.sounds[t].(source := o)]
    ensures FieldsKept(w, w')
  {
  }

  /** The selected entry of the sound's buffer array is a buffer. */
  predicate BufferUsable(x: Sound) {
    SelectedBuffer(x).Ok? && SelectedBuffer(x).value.Some?
  }

  /** Only voice `v` changed, and it kept its cached state, byte offset and pool slot. */
  ghost predicate OnlyVoice(w: World, v: VoiceId, w': World) {
    && v < |w.voices| && |w'.voices| == |w.voices|
    && (forall u :: 0 <= u < |w.voices| && u != v ==> w'.voices[u] == w.voices[u])
    && w'.voices[v].state == w.voices[v].state
    && w'.voices[v].byteOffset == w.voices[v].byteOffset
    && w'.voices[v].inPool == w.voices[v].inPool
  }

  /** The sound that held voice `v` in `w` (if any) lost it; no link changed except
      those of that sound and `s`. */
  ghost predicate Evicted(w: World, s: SoundId, v: VoiceId, w': World)
    requires v < |w.voices| && |w'.sounds| == |w.sounds|
  {
    && (w.voices[v].sound.Some? && w.voices[v].sound.value < |w.sounds| ==>
          w'.sounds[w.voices[v].sound.value].source.None?)
    && (forall t :: 0 <= t < |w.sounds| && t != s && Some(t) != w.voices[v].sound ==>
          w'.sounds[t].source == w.sounds[t].source)
  }

  /** What `getSource` does for an uncoupled sound `s`: when the scan finds an emptied
      slot or nothing, it throws (`couple` is called on null) and nothing changed;
      otherwise the picked voice is coupled to `s` even if re-synchronising it throws,
      which it does exactly when the selected buffer is unusable; its previous sound
      (if any) lost it, no other voice or link changed, and the voice kept its cached
      state. */
  ghost predicate Allocated(w: World, s: SoundId, g: Step<VoiceId>)
    requires Inv(w) && s < |w.sounds| && |g.w.voices| == |w.voices| && |g.w.sounds| == |w.sounds|
  {
    var p := SoundManager.ScanPool(w.voices, w.sounds[s].priority);
    if p.NullSlot? || p.Exhausted? then g == Step(w, Err(NullPointer))
    else
      var v := p.slot;
      && v < |w.voices|
      && Coupled(g.w, s, v)
      && (g.r.Ok? ==> g.r.value == v)
      && (g.r.Ok? <==> BufferUsable(w.sounds[s]))
      && OnlyVoice(w, v, g.w)
      && Evicted(w, s, v, g.w)
  }

  /** The branch of `getSource` for a sound without a voice: the pool is asked for a
      voice with the sound's own priority, which is then coupled and re-synchronised. */
  function Allocate(w: World, s: SoundId): (g: Step<VoiceId>)
    requires Inv(w) && s < |w.sounds| && w.sounds[s].source.None?
    ensures Inv(g.w) && g.w.gains == w.gains && |g.w.voices| == |w.voices| && FieldsKept(w, g.w)
    ensures w.log <= g.w.log
    ensures g.r.Ok? ==> Coupled(g.w, s, g.r.value)
  {
    var a := SoundManager.GetFreeSource(w, w.sounds[s].priority);
    match a.r
    case Err(f) => Step(a.w, Err(f))
    case Ok(None) => Step(a.w, Err(NullPointer))
    case Ok(Some(v)) =>
      var linked := Link(a.w, s, v);
      var i := Resync(linked, s, v);
      AllocationKeepsFields(w, v, a.w, linked, i.w, s);
      Step(i.w, if i.r.Ok? then Ok(v) else Err(i.r.fault))
  }

  lemma AllocationKeepsFields(w: World, v: VoiceId, a: World, linked: World, r: World, s: SoundId)
    requires SoundManager.HandedOut(w, a, v)
    requires s < |a.sounds| && linked.sounds == a.sounds[s := a.sounds[s].(source := Some(v))]
    requires r.sounds == linked.sounds
    ensures FieldsKept(w, r)
  {
    if !IsUncoupled(w.voices[v]) {
      RelinkKeepsFields(w, a, w.voices[v].sound.value, None);
    }
    RelinkKeepsFields(a, linked, s, Some(v));
    FieldsKeptTransitive(w, a, linked);
  }

  lemma AllocateMeetsAllocated(w: World, s: SoundId)
    requires Inv(w) && s < |w.sounds| && w.sounds[s].source.None?
    ensures Allocated(w, s, Allocate(w, s))
  {
    var a := SoundManager.GetFreeSource(w, w.sounds[s].priority);
    if a.r.Ok? && a.r.value.Some? {
      var v := a.r.value.value;
      var linked := Link(a.w, s, v);
      var i := Resync(linked, s, v);
      AllocatedVoices(w, v, a.w, linked, i.w);
      AllocatedSounds(w, s, v, a.w, linked, i.w);
      assert linked.sounds[s] == w.sounds[s].(source := Some(v));
      AllocatedStep(w, s, v, i);
    }
  }

  lemma AllocatedStep(w: World, s: SoundId, v: VoiceId, i: Step<()>)
    requires Inv(w) && s < |w.sounds|
    requires !SoundManager.ScanPool(w.voices, w.sounds[s].priority).NullSlot?
    requires !SoundManager.ScanPool(w.voices, w.sounds[s].priority).Exhausted?
    requires v == SoundManager.ScanPool(w.voices, w.sounds[s].priority).slot
    requires |i.w.sounds| == |w.sounds| && Coupled(i.w, s, v)
    requires i.r.Ok? <==> BufferUsable(i.w.sounds[s])
    requires i.w.sounds[s] == w.sounds[s].(source := Some(v))
    requires OnlyVoice(w, v, i.w) && Evicted(w, s, v, i.w)
    ensures Allocated(w, s, Step(i.w, if i.r.Ok? then Ok(v) else Err(i.r.fault)))
  {
    assert BufferUsable(i.w.sounds[s]) == BufferUsable(w.sounds[s]);
  }

  lemma AllocatedVoices(w: World, v: VoiceId, a: World, linked: World, r: World)
    requires SoundManager.HandedOut(w, a, v)
    requires v < |linked.voices| && linked.voices == a.voices[v := a.voices[v].(sound := linked.voices[v].sound)]
    requires |r.voices| == |linked.voices|
    requires forall u :: 0 <= u < |linked.voices| && u != v ==> r.voices[u] == linked.voices[u]
    requires r.voices[v] == linked.voices[v].(buffer := r.voices[v].buffer)
    ensures OnlyVoice(w, v, r)
  {
  }

  lemma AllocatedSounds(w: World, s: SoundId, v: VoiceId, a: World, linked: World, r: World)
    requires Inv(w) && s < |w.sounds| && w.sounds[s].source.None?
    requires SoundManager.HandedOut(w, a, v)
    requires linked.sounds == a.sounds[s := a.sounds[s].(source := Some(v))]
    requires r.sounds == linked.sounds
    ensures |r.sounds| == |w.sounds| && Evicted(w, s, v, r)
  {
    if !IsUncoupled(w.voices[v]) {
      var t := w.voices[v].sound.value;
      assert t != s;
    }
  }

  /** `getSource`: a coupled sound's voice as it is; an uncoupled sound is allocated one. */
  function GetSource(w: World, s: SoundId): (g: Step<VoiceId>)
    requires Inv(w) && s < |w.sounds|
    ensures Inv(g.w) && g.w.gains == w.gains && |g.w.voices| == |w.voices| && FieldsKept(w, g.w)
    ensures w.log <= g.w.log
    ensures g.r.Ok? ==> Coupled(g.w, s, g.r.value)
    ensures w.sounds[s].source.Some? ==> g == Step(w, Ok(w.sounds[s].source.value))
    ensures w.sounds[s].source.None? ==> g == Allocate(w, s)
  {
    match w.sounds[s].source
    case Some(v) => Step(w, Ok(v))
    case None => Allocate(w, s)
  }

  /** What `getSource` promises for an uncoupled sound, stated through the pool scan. */
  lemma GetSourceAllocates(w: World, s: SoundId)
    requires Inv(w) && s < |w.sounds| && w.sounds[s].source.None?
    ensures Allocated(w, s, GetSource(w, s))
  {
    AllocateMeetsAllocated(w, s);
  }

  /** Writes the sound's fields, keeping its link and category. */
  function Store(w: World, s: SoundId, x: Sound): (r: World)
    requires Inv(w) && s < |w.sounds|
    requires x.source == w.sounds[s].source && x.category == w.sounds[s].category
    ensures Inv(r) && r == w.(sounds := w.sounds[s := x])
  {
    var r := w.(sounds := w.sounds[s := x]);
    LinksFrame(w, r);
    r
  }

  /** `getSource()` and then one command on the voice it returns. */
  function Issue(w: World, s: SoundId, c: VoiceId -> Command): (r: Step<()>)
    requires Inv(w) && s < |w.sounds|
    ensures Inv(r.w) && FieldsKept(w, r.w) && r.w.gains == w.gains && |r.w.voices| == |w.voices|
    ensures r.r.Ok? <==> GetSource(w, s).r.Ok?
    ensures r.r.Err? ==> r.w == GetSource(w, s).w
    ensures r.r.Ok? ==>
              var v := GetSource(w, s).r.value;
              Coupled(r.w, s, v) && r.w.log == GetSource(w, s).w.log + [c(v)]
              && r.w == GetSource(w, s).w.(log := r.w.log)
  {
    var g := GetSource(w, s);
    match g.r
    case Err(f) => Step(g.w, Err(f))
    case Ok(v) => Step(Emit(g.w, c(v)), Ok(()))
  }

  /** `play`, through `getSource`: on a coupled sound exactly one play goes to its
      voice; otherwise the voice comes from the pool first. */
  function Play(w: World, s: SoundId): (r: Step<()>)
    requires Inv(w) && s < |w.sounds|
    ensures Inv(r.w) && |r.w.sounds| == |w.sounds| && (r.r.Ok? <==> GetSource(w, s).r.Ok?)
    ensures w.sounds[s].source.Some? ==> r == Step(Emit(w, AlPlay(w.sounds[s].source.value)), Ok(()))
    ensures r.r.Ok? ==>
              r.w.sounds[s].source.Some? && r.w.log == GetSource(w, s).w.log + [AlPlay(r.w.sounds[s].source.value)]
  {
    Issue(w, s, (v: VoiceId) => AlPlay(v))
  }

  /** `stop`, as `play`. */
  function Stop(w: World, s: SoundId): (r: Step<()>)
    requires Inv(w) && s < |w.sounds|
    ensures Inv(r.w) && |r.w.sounds| == |w.sounds| && (r.r.Ok? <==> GetSource(w, s).r.Ok?)
    ensures w.sounds[s].source.Some? ==> r == Step(Emit(w, AlStop(w.sounds[s].source.value)), Ok(()))
    ensures r.r.Ok? ==>
              r.w.sounds[s].source.Some? && r.w.log == GetSource(w, s).w.log + [AlStop(r.w.sounds[s].source.value)]
  {
    Issue(w, s, (v: VoiceId) => AlStop(v))
  }

  /** `pause`, as `play`. */
  function Pause(w: World, s: SoundId): (r: Step<()>)
    requires Inv(w) && s < |w.sounds|
    ensures Inv(r.w) && |r.w.sounds| == |w.sounds| && (r.r.Ok? <==> GetSource(w, s).r.Ok?)
    ensures w.sounds[s].source.Some? ==> r == Step(Emit(w, AlPause(w.sounds[s].source.value)), Ok(()))
    ensures r.r.Ok? ==>
              r.w.sounds[s].source.Some? && r.w.log == GetSource(w, s).w.log + [AlPause(r.w.sounds[s].source.value)]
  {
    Issue(w, s, (v: VoiceId) => AlPause(v))
  }

  /** `isStopped`, `isPaused` and `isPlaying`, through `getSource`: the test `t` of the
      voice's cached state; on a coupled sound nothing is sent or changed. */
  function Ask(w: World, s: SoundId, t: Voice -> bool): (r: Step<bool>)
    requires Inv(w) && s < |w.sounds|
    ensures Inv(r.w) && r.w == GetSource(w, s).w
    ensures r.r.Ok? <==> GetSource(w, s).r.Ok?
    ensures r.r.Ok? ==> r.r.value == t(r.w.voices[GetSource(w, s).r.value])
    ensures w.sounds[s].source.Some? ==> r == Step(w, Ok(t(w.voices[w.sounds[s].source.value])))
  {
    var g := GetSource(w, s);
    match g.r
    case Err(f) => Step(g.w, Err(f))
    case Ok(v) => Step(g.w, Ok(t(g.w.voices[v])))
  }

  function Stopped(w: World, s: SoundId): (r: Step<bool>)
    requires Inv(w) && s < |w.sounds|
    ensures r.w == GetSource(w, s).w && (r.r.Ok? <==> GetSource(w, s).r.Ok?)
    ensures r.r.Ok? ==> (r.r.value <==> r.w.voices[GetSource(w, s).r.value].state == AL_STOPPED)
    ensures w.sounds[s].source.Some? ==> r.w == w
  {
    Ask(w, s, x => IsStopped(x))
  }

  function Paused(w: World, s: SoundId): (r: Step<bool>)
    requires Inv(w) && s < |w.sounds|
    ensures r.w == GetSource(w, s).w && (r.r.Ok? <==> GetSource(w, s).r.Ok?)
    ensures r.r.Ok? ==> (r.r.value <==> r.w.voices[GetSource(w, s).r.value].state == AL_PAUSED)
    ensures w.sounds[s].source.Some? ==> r.w == w
  {
    Ask(w, s, x => IsPaused(x))
  }

  function Playing(w: World, s: SoundId): (r: Step<bool>)
    requires Inv(w) && s < |w.sounds|
    ensures r.w == GetSource(w, s).w && (r.r.Ok? <==> GetSource(w, s).r.Ok?)
    ensures r.r.Ok? ==> (r.r.value <==> r.w.voices[GetSource(w, s).r.value].state == AL_PLAYING)
    ensures w.sounds[s].source.Some? ==> r.w == w
  {
    Ask(w, s, x => IsPlaying(x))
  }

  /** `setPosition`: pushed through `getSource`, then stored, so a throw leaves the old
      value. */
  function SetPosition(w: World, s: SoundId, p: Vec): (r: Step<()>)
    requires Inv(w) && s < |w.sounds|
    ensures Inv(r.w) && |r.w.sounds| == |w.sounds| && (r.r.Ok? <==> GetSource(w, s).r.Ok?)
    ensures r.r.Ok? ==>
              && r.w.sounds[s].position == p && r.w.sounds[s].source.Some?
              && r.w.log == GetSource(w, s).w.log + [AlPosition(r.w.sounds[s].source.value, p)]
    ensures r.r.Err? ==> r.w.sounds[s].position == w.sounds[s].position
    ensures w.sounds[s].source.Some? ==>
              r.w.voices == w.voices && r.w.log == w.log + [AlPosition(w.sounds[s].source.value, p)]
  {
    var i := Issue(w, s, (v: VoiceId) => AlPosition(v, p));
    if i.r.Err? then i else Step(Store(i.w, s, i.w.sounds[s].(position := p)), Ok(()))
  }

  /** `setVelocity`: pushed, then stored. */
  function SetVelocity(w: World, s: SoundId, p: Vec): (r: Step<()>)
    requires Inv(w) && s < |w.sounds|
    ensures Inv(r.w) && |r.w.sounds| == |w.sounds| && (r.r.Ok? <==> GetSource(w, s).r.Ok?)
    ensures r.r.Ok? ==>
              && r.w.sounds[s].velocity == p && r.w.sounds[s].source.Some?
              && r.w.log == GetSource(w, s).w.log + [AlVelocity(r.w.sounds[s].source.value, p)]
    ensures r.r.Err? ==> r.w.sounds[s].velocity == w.sounds[s].velocity
    ensures w.sounds[s].source.Some? ==>
              r.w.voices == w.voices && r.w.log == w.log + [AlVelocity(w.sounds[s].source.value, p)]
  {
    var i := Issue(w, s, (v: VoiceId) => AlVelocity(v, p));
    if i.r.Err? then i else Step(Store(i.w, s, i.w.sounds[s].(velocity := p)), Ok(()))
  }

  /** `setPitch`: pushed, then stored. */
  function SetPitch(w: World, s: SoundId, p: real): (r: Step<()>)
    requires Inv(w) && s < |w.sounds|
    ensures Inv(r.w) && |r.w.sounds| == |w.sounds| && (r.r.Ok? <==> GetSource(w, s).r.Ok?)
    ensures r.r.Ok? ==>
              && r.w.sounds[s].pitch == p && r.w.sounds[s].source.Some?
              && r.w.log == GetSource(w, s).w.log + [AlPitch(r.w.sounds[s].source.value, p)]
    ensures r.r.Err? ==> r.w.sounds[s].pitch == w.sounds[s].pitch
    ensures w.sounds[s].source.Some? ==>
              r.w.voices == w.voices && r.w.log == w.log + [AlPitch(w.sounds[s].source.value, p)]
  {
    var i := Issue(w, s, (v: VoiceId) => AlPitch(v, p));
    if i.r.Err? then i else Step(Store(i.w, s, i.w.sounds[s].(pitch := p)), Ok(()))
  }

  /** `setLooping`: pushed, then stored. */
  function SetLooping(w: World, s: SoundId, b: bool): (r: Step<()>)
    requires Inv(w) && s < |w.sounds|
    ensures Inv(r.w) && |r.w.sounds| == |w.sounds| && (r.r.Ok? <==> GetSource(w, s).r.Ok?)
    ensures r.r.Ok? ==>
              && r.w.sounds[s].looping == b && r.w.sounds[s].source.Some?
              && r.w.log == GetSource(w, s).w.log + [AlLooping(r.w.sounds[s].source.value, b)]
    ensures r.r.Err? ==> r.w.sounds[s].looping == w.sounds[s].looping
    ensures w.sounds[s].source.Some? ==>
              r.w.voices == w.voices && r.w.log == w.log + [AlLooping(w.sounds[s].source.value, b)]
  {
    var i := Issue(w, s, (v: VoiceId) => AlLooping(v, b));
    if i.r.Err? then i else Step(Store(i.w, s, i.w.sounds[s].(looping := b)), Ok(()))
  }

  /** `updateGain`: the sound's gain and its category's gain go to its voice. */
  function UpdateGain(w: World, s: SoundId): (r: Step<()>)
    requires Inv(w) && s < |w.sounds|
    ensures Inv(r.w) && |r.w.sounds| == |w.sounds| && FieldsKept(w, r.w) && r.w.gains == w.gains
    ensures r.r.Ok? <==> GetSource(w, s).r.Ok?
    ensures r.r.Ok? ==>
              r.w.sounds[s].source.Some? &&
              r.w.log == GetSource(w, s).w.log +
                         [AlGain(r.w.sounds[s].source.value, w.sounds[s].gain, w.gains[w.sounds[s].category])]
    ensures w.sounds[s].source.Some? ==>
              r == Step(Emit(w, AlGain(w.sounds[s].source.value, w.sounds[s].gain, w.gains[w.sounds[s].category])), Ok(()))
  {
    var x := w.sounds[s];
    Issue(w, s, (v: VoiceId) => AlGain(v, x.gain, w.gains[x.category]))
  }

  /** `setGain`: the gain is stored first, then pushed with the category's gain. */
  function SetGain(w: World, s: SoundId, gain: real): (r: Step<()>)
    requires Inv(w) && s < |w.sounds|
    ensures Inv(r.w) && |r.w.sounds| == |w.sounds| && r.w.sounds[s].gain == gain
    ensures r.r.Ok? ==>
              r.w.sounds[s].source.Some? &&
              |r.w.log| > 0 && r.w.log[|r.w.log| - 1] == AlGain(r.w.sounds[s].source.value, gain, w.gains[w.sounds[s].category])
    ensures w.sounds[s].source.Some? ==>
              && r.r.Ok? && r.w.voices == w.voices
              && r.w.log == w.log + [AlGain(w.sounds[s].source.value, gain, w.gains[w.sounds[s].category])]
  {
    UpdateGain(Store(w, s, w.sounds[s].(gain := gain)), s)
  }

  /** `setOffset`: pushed through `getSource` (the voice needs a buffer to scale the
      offset by), then stored. */
  function SetOffset(w: World, s: SoundId, offset: real): (r: Step<()>)
    requires Inv(w) && s < |w.sounds|
    ensures Inv(r.w) && |r.w.sounds| == |w.sounds|
    ensures r.r.Ok? ==>
              && r.w.sounds[s].offset == offset && r.w.sounds[s].source.Some?
              && var v := r.w.sounds[s].source.value;
                 r.w.voices[v].buffer.Some? && |r.w.log| > 0 &&
                 r.w.log[|r.w.log| - 1] == AlOffset(v, r.w.voices[v].buffer.value.size, offset)
    ensures r.r.Err? ==> r.w.sounds[s].offset == w.sounds[s].offset
    ensures w.sounds[s].source.Some? ==>
              var v := w.sounds[s].source.value;
              && r.w.voices == w.voices
              && (r.r.Ok? <==> w.voices[v].buffer.Some?)
              && (r.r.Ok? ==> r.w.log == w.log + [AlOffset(v, w.voices[v].buffer.value.size, offset)])
  {
    var g := GetSource(w, s);
    match g.r
    case Err(f) => Step(g.w, Err(f))
    case Ok(v) =>
      var o := ALSource.SetOffset(g.w, v, offset);
      if o.r.Err? then o else Step(Store(o.w, s, o.w.sounds[s].(offset := offset)), Ok(()))
  }

  /** `setCategory`: stored only; nothing is pushed, so a coupled voice keeps the gain
      of the old category until the next push. */
  function SetCategory(w: World, s: SoundId, c: CategoryId): (r: World)
    requires Inv(w) && s < |w.sounds| && c < |w.gains|
    ensures Inv(r) && r.log == w.log && r.voices == w.voices && r.gains == w.gains
    ensures |r.sounds| == |w.sounds| && r.sounds[s] == w.sounds[s].(category := c)
    ensures forall t :: 0 <= t < |w.sounds| && t != s ==> r.sounds[t] == w.sounds[t]
  {
    w.(sounds := w.sounds[s := w.sounds[s].(category := c)])
  }

  /** Assigning the public `priority` field: only the sound's own priority changes; the
      voice it may hold keeps `PRIORITY_MODERATE`. */
  function SetPriority(w: World, s: SoundId, p: int): (r: World)
    requires Inv(w) && s < |w.sounds|
    ensures Inv(r) && r.log == w.log && r.voices == w.voices
    ensures |r.sounds| == |w.sounds| && r.sounds[s] == w.sounds[s].(priority := p)
    ensures forall t :: 0 <= t < |w.sounds| && t != s ==> r.sounds[t] == w.sounds[t]
  {
    Store(w, s, w.sounds[s].(priority := p))
  }

  /** `setUncoupled`: `stop()` through `getSource`, then the sound forgets its voice.
      The voice still names the sound afterwards, so a direct call breaks the link
      invariant; `uncouple` clears the voice's side right after. */
  function SetUncoupled(w: World, s: SoundId): (r: Step<()>)
    requires Inv(w) && s < |w.sounds|
    ensures |r.w.sounds| == |w.sounds| && (r.r.Ok? <==> GetSource(w, s).r.Ok?)
    ensures r.r.Ok? ==>
              && r.w.sounds[s].source.None?
              && r.w.log == GetSource(w, s).w.log + [AlStop(GetSource(w, s).r.value)]
    ensures r.r.Ok? ==>
              var v := GetSource(w, s).r.value;
              && v < |r.w.voices| && r.w.voices[v].sound == Some(s)
              && !Inv(r.w)
  {
    var st := Stop(w, s);
    if st.r.Err? then st
    else Step(st.w.(sounds := st.w.sounds[s := st.w.sounds[s].(source := None)]), Ok(()))
  }

  /** `uncouple` as the voice's side of the protocol: it is `setUncoupled` on the
      coupled sound followed by the voice forgetting the sound, which restores the
      invariant. */
  lemma UncoupleIsSetUncoupled(w: World, v: VoiceId)
    requires Inv(w) && v < |w.voices| && !IsUncoupled(w.voices[v])
    ensures var s := w.voices[v].sound.value;
            var u := SetUncoupled(w, s);
            && u.r.Ok?
            && ALSource.Uncouple(w, v) == Step(u.w.(voices := u.w.voices[v := u.w.voices[v].(sound := None)]), Ok(()))
            && !Inv(u.w)
  {
    var s := w.voices[v].sound.value;
    var u := SetUncoupled(w, s);
    assert u.w.voices[v].sound == Some(s) && u.w.sounds[s].source.None?;
  }

  /** The restart `update` issues is `play` on the voice's sound: the same single
      command, on the same voice. */
  lemma RestartIsPlay(w: World, v: VoiceId)
    requires Inv(w) && v < |w.voices| && !IsUncoupled(w.voices[v])
    ensures Play(w, w.voices[v].sound.value) == Step(Emit(w, AlPlay(v)), Ok(()))
  {
  }

  /** A refresh of the pool reaches a voice as its sound's own `updateGain`. */
  lemma PoolGainPushIsUpdateGain(w: World, v: VoiceId, c: Option<CategoryId>)
    requires Inv(w) && v < |w.voices| && GainTarget(w, v, c)
    ensures UpdateGain(w, w.voices[v].sound.value) == Step(ALSource.UpdateGain(w, v, c), Ok(()))
  {
  }

  /** `selectBuffer(i)`: the index is stored first, then the entry it selects is bound
      on the voice `getSource` returns. */
  function SelectBuffer(w: World, s: SoundId, i: int): (r: Step<()>)
    requires Inv(w) && s < |w.sounds|
    ensures Inv(r.w) && |r.w.sounds| == |w.sounds| && r.w.gains == w.gains
    ensures r.w.sounds[s] == w.sounds[s].(selected := i, source := r.w.sounds[s].source)
    ensures r.r.Ok? ==>
              && r.w.sounds[s].source.Some?
              && var v := r.w.sounds[s].source.value;
                 && Coupled(r.w, s, v)
                 && BufferUsable(r.w.sounds[s])
                 && r.w.voices[v].buffer == Some(r.w.sounds[s].buffers.value[i].value)
                 && |r.w.log| > 0 && r.w.log[|r.w.log| - 1] == AlBind(v, r.w.voices[v].buffer.value.bufferId)
  {
    var w1 := Store(w, s, w.sounds[s].(selected := i));
    var g := GetSource(w1, s);
    match g.r
    case Err(f) => Step(g.w, Err(f))
    case Ok(v) => BindSelected(g.w, s, v)
  }

  /** `initSource`: the selected buffer is bound again, the parameters pushed, and the
      voice's cached state replayed. */
  function InitSource(w: World, s: SoundId): (r: Step<()>)
    requires Inv(w) && s < |w.sounds|
    ensures Inv(r.w) && |r.w.sounds| == |w.sounds|
  {
    var sel := SelectBuffer(w, s, w.sounds[s].selected);
    if sel.r.Err? then sel
    else Step(Refresh(sel.w, s, sel.w.sounds[s].source.value), Ok(()))
  }

  /** The selected index lies within the buffer array. */
  predicate SelectionInRange(x: Sound) {
    x.buffers.Some? && 0 <= x.selected < |x.buffers.value|
  }

  /** `nextBuffer`: the index after the current one, wrapping to 0 after the last. */
  function NextBuffer(w: World, s: SoundId): (r: Step<()>)
    requires Inv(w) && s < |w.sounds|
    ensures Inv(r.w) && |r.w.sounds| == |w.sounds|
    ensures w.sounds[s].buffers.None? ==> r == Step(w, Err(NullPointer))
    ensures SelectionInRange(w.sounds[s]) ==>
              && r.w.sounds[s].selected == (w.sounds[s].selected + 1) % |w.sounds[s].buffers.value|
              && SelectionInRange(r.w.sounds[s])
  {
    match w.sounds[s].buffers
    case None => Step(w, Err(NullPointer))
    case Some(bs) =>
      var next := if w.sounds[s].selected + 1 == |bs| then 0 else w.sounds[s].selected + 1;
      assert SelectionInRange(w.sounds[s]) ==> next == (w.sounds[s].selected + 1) % |bs| && 0 <= next < |bs|;
      SelectBuffer(w, s, next)
  }

  /** `randomizeBuffer`, where `draw` stands for what `Random.nextInt` draws: an index
      of the array; an empty array makes `nextInt` throw. */
  function RandomizeBuffer(w: World, s: SoundId, draw: nat): (r: Step<()>)
    requires Inv(w) && s < |w.sounds|
    ensures Inv(r.w) && |r.w.sounds| == |w.sounds|
    ensures w.sounds[s].buffers.None? ==> r == Step(w, Err(NullPointer))
    ensures w.sounds[s].buffers == Some([]) ==> r == Step(w, Err(IllegalArgument))
    ensures w.sounds[s].buffers.Some? && |w.sounds[s].buffers.value| > 0 ==>
              && r.w.sounds[s].selected == draw % |w.sounds[s].buffers.value|
              && SelectionInRange(r.w.sounds[s])
  {
    match w.sounds[s].buffers
    case None => Step(w, Err(NullPointer))
    case Some(bs) =>
      if |bs| == 0 then Step(w, Err(IllegalArgument))
      else SelectBuffer(w, s, draw % |bs|)
  }

  /** The world and the bank after the constructor, and the new sound's id, or the
      exception that escaped the constructor. */
  datatype Made = Made(w: World, bank: Bank, r: Result<SoundId>)

  /** The constructor's catch clause names `OpenALException` and `IOException`; any
      other exception (a null pointer from the extension switch, say) escapes it. */
  predicate CaughtByConstructor(f: Fault) {
    f.IOFailure? || f.OpenALFailure?
  }

  /** The constructor `Sound(category, filenames, position, velocity, looping, gain,
      pitch)`: the buffers come from `getBuffers`. A caught failure leaves the array
      null; an uncaught one escapes and no sound is made, though the bank keeps what
      loading did to it. The sound starts with index 0, moderate priority, offset 0 and
      no voice. */
  function New(w: World, bank: Bank, load: Loader, category: CategoryId, filenames: seq<string>,
               position: Vec, velocity: Vec, looping: bool, gain: real, pitch: real): (m: Made)
    requires Inv(w) && category < |w.gains|
    ensures var loaded := GetBuffers(bank, filenames, load);
            && m.bank == loaded.bank
            && (m.r.Err? <==> loaded.r.Err? && !CaughtByConstructor(loaded.r.fault))
            && (m.r.Err? ==> m.w == w && m.r.fault == loaded.r.fault)
    ensures m.r.Ok? ==>
              && Inv(m.w) && m.r.value == |w.sounds| && |m.w.sounds| == |w.sounds| + 1
              && m.w.sounds[..|w.sounds|] == w.sounds
              && m.w.voices == w.voices && m.w.gains == w.gains && m.w.log == w.log
              && var x := m.w.sounds[m.r.value];
                 && x.source.None? && x.selected == 0 && x.priority == PRIORITY_MODERATE && x.offset == 0.0
                 && x.category == category && x.position == position && x.velocity == velocity
                 && x.looping == looping && x.gain == gain && x.pitch == pitch
                 && var loaded := GetBuffers(bank, filenames, load);
                    x.buffers == (if loaded.r.Ok? then Some(loaded.r.value) else None)
  {
    var loaded := GetBuffers(bank, filenames, load);
    if loaded.r.Err? && !CaughtByConstructor(loaded.r.fault) then
      Made(w, loaded.bank, Err(loaded.r.fault))
    else
      var x := Sound(if loaded.r.Ok? then Some(loaded.r.value) else None, 0, PRIORITY_MODERATE,
                     position, velocity, gain, pitch, looping, 0.0, category, None);
      Made(w.(sounds := w.sounds + [x]), loaded.bank, Ok(|w.sounds|))
  }

  /** A file name without an extension makes the extension switch throw a null pointer
      exception, which the constructor does not catch: no sound is made, and the bank
      has generated a buffer it never fills. */
  lemma NameWithoutExtensionEscapesNew(w: World, bank: Bank, load: Loader, category: CategoryId,
                                       name: string, position: Vec, velocity: Vec,
                                       looping: bool, gain: real, pitch: real)
    requires Inv(w) && category < |w.gains|
    requires name !in bank.entries && ExtensionOf(name) == None
    ensures var m := New(w, bank, load, category, [name], position, velocity, looping, gain, pitch);
            && m.r == Err(NullPointer) && m.w == w
            && m.bank == bank.(log := bank.log + [GenBuffer])
  {
    var first := GetSound(bank, name, load);
    assert first == Loaded(bank.(log := bank.log + [GenBuffer]), Err(NullPointer));
    assert GetBuffers(bank, [name], load) == Loaded(first.bank, Err(NullPointer));
  }

  /** On a coupled sound `initSource` is the re-synchronisation `getSource` runs after
      coupling. */
  lemma InitSourceOnCoupled(w: World, s: SoundId)
    requires Inv(w) && s < |w.sounds| && w.sounds[s].source.Some?
    ensures InitSource(w, s) == Resync(w, s, w.sounds[s].source.value)
  {
    var v := w.sounds[s].source.value;
    assert w.sounds[s].(selected := w.sounds[s].selected) == w.sounds[s];
    assert Store(w, s, w.sounds[s].(selected := w.sounds[s].selected)) == w;
    assert SelectBuffer(w, s, w.sounds[s].selected) == BindSelected(w, s, v);
  }

  /** The commands `getSource` sends when it allocates voice `v` to an uncoupled sound
      whose selected buffer is usable: the stop of the evicted sound (if any), the
      bind, the pushes, and then the replay of the state the voice had cached for its
      previous sound. A voice taken from a Playing sound starts the new sound at once;
      one reclaimed because it was Stopped gets a stop. */
  lemma AllocationReplaysStaleState(w: World, s: SoundId)
    requires Inv(w) && s < |w.sounds| && w.sounds[s].source.None? && BufferUsable(w.sounds[s])
    requires !SoundManager.ScanPool(w.voices, w.sounds[s].priority).NullSlot?
    requires !SoundManager.ScanPool(w.voices, w.sounds[s].priority).Exhausted?
    ensures var v := SoundManager.ScanPool(w.voices, w.sounds[s].priority).slot;
            var x := w.sounds[s];
            var b := SelectedBuffer(x).value.value;
            && v < |w.voices|
            && GetSource(w, s).r == Ok(v)
            && GetSource(w, s).w.log ==
                 w.log + (if IsUncoupled(w.voices[v]) then [] else [AlStop(v)])
                       + [AlBind(v, b.bufferId)] + Pushes(x, v, w.gains[x.category], b.size)
                       + Replay(w.voices[v], v)
  {
    var v := SoundManager.ScanPool(w.voices, w.sounds[s].priority).slot;
    var a := SoundManager.GetFreeSource(w, w.sounds[s].priority);
    assert a.r == Ok(Some(v));
    var linked := Link(a.w, s, v);
    var i := Resync(linked, s, v);
    ReplayStep(w, s, v, a.w, linked, i);
    assert GetSource(w, s) == Allocate(w, s) == Step(i.w, Ok(v));
  }

  lemma ReplayStep(w: World, s: SoundId, v: VoiceId, a: World, linked: World, i: Step<()>)
    requires Inv(w) && s < |w.sounds| && w.sounds[s].source.None? && BufferUsable(w.sounds[s])
    requires SoundManager.HandedOut(w, a, v) && Inv(a) && a.voices[v].sound.None?
    requires linked == Link(a, s, v) && i == Resync(linked, s, v)
    ensures var x := w.sounds[s];
            var b := SelectedBuffer(x).value.value;
            && i.r.Ok?
            && i.w.log ==
                 w.log + (if IsUncoupled(w.voices[v]) then [] else [AlStop(v)])
                       + [AlBind(v, b.bufferId)] + Pushes(x, v, w.gains[x.category], b.size)
                       + Replay(w.voices[v], v)
  {
    var x := w.sounds[s];
    LinkAfterHandOut(w, s, v, a, linked);
    assert SelectedBuffer(linked.sounds[s]) == SelectedBuffer(x);
    assert Replay(linked.voices[v], v) == Replay(w.voices[v], v);
  }

  /** The world `initSource` starts from after a hand-out and the link: the sound as
      it was, now linked, and the voice's cached state as it was. */
  lemma LinkAfterHandOut(w: World, s: SoundId, v: VoiceId, a: World, linked: World)
    requires Inv(w) && s < |w.sounds| && w.sounds[s].source.None?
    requires SoundManager.HandedOut(w, a, v) && Inv(a) && a.voices[v].sound.None?
    requires linked == Link(a, s, v)
    ensures linked.sounds[s] == w.sounds[s].(source := Some(v))
    ensures linked.voices[v].state == w.voices[v].state
    ensures linked.gains == w.gains
    ensures linked.log == w.log + (if IsUncoupled(w.voices[v]) then [] else [AlStop(v)])
  {
    if !IsUncoupled(w.voices[v]) {
      assert a.sounds[s] == w.sounds[s];
    }
  }
}
