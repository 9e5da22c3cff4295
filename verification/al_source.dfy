/** `ALSource`: one playback voice of the device. A voice keeps the buffer last set on
    it, the byte offset and state it last polled, and the sound it is coupled to; every
    other call goes straight to the device. */
module ALSource {
  import opened Base
  import opened AL
  import opened ALBuffer
  import opened World

  /** A voice as `new ALSource()` leaves it: no buffer, moderate priority, byte offset
      and state at Java's default 0, uncoupled, held by its pool slot. */
  const FRESH: Voice := Voice(None, PRIORITY_MODERATE, 0, 0, None, true)

  predicate IsUncoupled(x: Voice) {
    x.sound.None?
  }

  // The state tests read the cached state only; they never poll the device.
  predicate IsStopped(x: Voice) {
    x.state == AL_STOPPED
  }

  predicate IsPaused(x: Voice) {
    x.state == AL_PAUSED
  }

  predicate IsPlaying(x: Voice) {
    x.state == AL_PLAYING
  }

  /** The voice's fields other than its link are those of `x`. */
  predicate SameButLink(x: Voice, y: Voice) {
    y == x.(sound := y.sound)
  }

  /** `new ALSource()`: a device source is generated and its rolloff factor set; the
      new voice goes to the end of the arena. */
  function Create(w: World): (r: World)
    ensures |r.voices| == |w.voices| + 1 && r.voices[|w.voices|] == FRESH
    ensures forall v :: 0 <= v < |w.voices| ==> r.voices[v] == w.voices[v]
    ensures r.sounds == w.sounds && r.gains == w.gains
    ensures r.log == w.log + [AlGenSource(|w.voices|), AlRolloff(|w.voices|, DEFAULT_ROLLOFF_FACTOR)]
    ensures Inv(w) ==> Inv(r)
  {
    var v := |w.voices|;
    World(w.voices + [FRESH], w.sounds, w.gains,
          w.log + [AlGenSource(v), AlRolloff(v, DEFAULT_ROLLOFF_FACTOR)])
  }

  /** `uncouple`: the coupled sound's `setUncoupled` stops this voice (under the
      invariant the sound's voice is this one, so no allocation happens) and forgets
      it, then the voice forgets the sound. An uncoupled voice throws a null pointer
      exception before anything happens. */
  function Uncouple(w: World, v: VoiceId): (r: Step<()>)
    requires Inv(w) && v < |w.voices|
    ensures Inv(r.w) && r.w.gains == w.gains
    ensures r.r.Err? <==> IsUncoupled(w.voices[v])
    ensures r.r.Err? ==> r.r.fault == NullPointer && r.w == w
    ensures r.r.Ok? ==>
              var s := w.voices[v].sound.value;
              && r.w.voices == w.voices[v := w.voices[v].(sound := None)]
              && r.w.sounds == w.sounds[s := w.sounds[s].(source := None)]
              && IsUncoupled(r.w.voices[v]) && r.w.sounds[s].source.None?
              && r.w.log == w.log + [AlStop(v)]
  {
    match w.voices[v].sound
    case None => Step(w, Err(NullPointer))
    case Some(s) =>
      var stopped := Emit(w, AlStop(v));
      var w1 := stopped.(sounds := stopped.sounds[s := stopped.sounds[s].(source := None)]);
      Step(w1.(voices := w1.voices[v := w1.voices[v].(sound := None)]), Ok(()))
  }

  /** `setBuffer`: the buffer is recorded first, then bound on the device; binding a
      null buffer throws after it has been recorded. The cached state is untouched. */
  function SetBuffer(w: World, v: VoiceId, b: Option<Buffer>): (r: Step<()>)
    requires v < |w.voices|
    ensures r.w.voices == w.voices[v := w.voices[v].(buffer := b)]
    ensures r.w.sounds == w.sounds && r.w.gains == w.gains
    ensures r.r.Ok? <==> b.Some?
    ensures b.None? ==> r.r == Err(NullPointer) && r.w.log == w.log
    ensures b.Some? ==> r.w.log == w.log + [AlBind(v, b.value.bufferId)]
    ensures Inv(w) ==> Inv(r.w)
  {
    var w1 := w.(voices := w.voices[v := w.voices[v].(buffer := b)]);
    match b
    case None => Step(w1, Err(NullPointer))
    case Some(buf) => Step(Emit(w1, AlBind(v, buf.bufferId)), Ok(()))
  }

  /** `setOffset`: the device receives the relative offset together with the size of
      the voice's buffer; a voice without a buffer throws. */
  function SetOffset(w: World, v: VoiceId, offset: real): (r: Step<()>)
    requires v < |w.voices|
    ensures r.w.voices == w.voices && r.w.sounds == w.sounds && r.w.gains == w.gains
    ensures r.r.Err? <==> w.voices[v].buffer.None?
    ensures r.r.Err? ==> r.r.fault == NullPointer && r.w.log == w.log
    ensures r.r.Ok? ==> r.w.log == w.log + [AlOffset(v, w.voices[v].buffer.value.size, offset)]
  {
    match w.voices[v].buffer
    case None => Step(w, Err(NullPointer))
    case Some(buf) => Step(Emit(w, AlOffset(v, buf.size, offset)), Ok(()))
  }

  /** The answer of one device query: a value, or an `OpenALException`. */
  datatype Reply = Answer(value: int) | Fails

  /** What the device answers when a voice polls its byte offset and then its state. */
  datatype Probe = Probe(byteOffset: Reply, state: Reply)

  /** The voice after polling: the offset poll comes first and a failure skips the
      state poll; whatever was not answered keeps its previous value. */
  function Polled(x: Voice, p: Probe): (r: Voice)
    ensures SameButPoll(x, r)
    ensures r.byteOffset == (if p.byteOffset.Answer? then p.byteOffset.value else x.byteOffset)
    ensures r.state == (if p.byteOffset.Answer? && p.state.Answer? then p.state.value else x.state)
  {
    match p.byteOffset
    case Fails => x
    case Answer(o) =>
      match p.state
      case Fails => x.(byteOffset := o)
      case Answer(st) => x.(byteOffset := o, state := st)
  }

  predicate SameButPoll(x: Voice, y: Voice) {
    y == x.(byteOffset := y.byteOffset, state := y.state)
  }

  /** The queries a poll sends. */
  function Queries(v: VoiceId, p: Probe): seq<Command> {
    [AlQueryOffset(v)] + (if p.byteOffset.Answer? then [AlQueryState(v)] else [])
  }

  /** The poll leaves a coupled voice Stopped while its sound loops: `update` restarts it. */
  predicate Restarts(w: World, v: VoiceId, p: Probe)
    requires Inv(w) && v < |w.voices|
  {
    && !IsUncoupled(w.voices[v])
    && IsStopped(Polled(w.voices[v], p))
    && w.sounds[w.voices[v].sound.value].looping
  }

  /** `update`: an uncoupled voice does nothing. A coupled one polls, then divides the
      byte offset by its buffer's size (a voice without a buffer throws here, after
      polling), then restarts playback through its sound when it is Stopped and the
      sound loops. The restart goes to this voice, since under the invariant it is
      the sound's voice, and leaves the cached state Stopped. */
  function Update(w: World, v: VoiceId, p: Probe): (r: Step<()>)
    requires Inv(w) && v < |w.voices|
    ensures Inv(r.w) && r.w.sounds == w.sounds && r.w.gains == w.gains
    ensures IsUncoupled(w.voices[v]) ==> r == Step(w, Ok(()))
    ensures !IsUncoupled(w.voices[v]) ==>
              && r.w.voices == w.voices[v := Polled(w.voices[v], p)]
              && (r.r.Err? <==> w.voices[v].buffer.None?)
              && (r.r.Err? ==> r.r.fault == NullPointer && r.w.log == w.log + Queries(v, p))
              && (r.r.Ok? ==> r.w.log == w.log + Queries(v, p) +
                                (if Restarts(w, v, p) then [AlPlay(v)] else []))
  {
    if IsUncoupled(w.voices[v]) then Step(w, Ok(()))
    else
      var polled := Polled(w.voices[v], p);
      var w1 := w.(voices := w.voices[v := polled], log := w.log + Queries(v, p));
      LinksFrame(w, w1);
      if polled.buffer.None? then Step(w1, Err(NullPointer))
      else if IsStopped(polled) && w1.sounds[polled.sound.value].looping then
        Step(Emit(w1, AlPlay(v)), Ok(()))
      else Step(w1, Ok(()))
  }

  /** The gain push a voice's sound makes: its own gain and its category's gain. */
  function GainPush(w: World, v: VoiceId): Command
    requires Inv(w) && v < |w.voices| && !IsUncoupled(w.voices[v])
  {
    var x := w.sounds[w.voices[v].sound.value];
    AlGain(v, x.gain, w.gains[x.category])
  }

  /** The voice is coupled and its sound belongs to the category (any category when
      `None`, which stands for the source's null). */
  predicate GainTarget(w: World, v: VoiceId, c: Option<CategoryId>)
    requires Inv(w) && v < |w.voices|
  {
    && !IsUncoupled(w.voices[v])
    && (c.None? || c.value == w.sounds[w.voices[v].sound.value].category)
  }

  /** `updateGain(category)`: a coupled voice whose sound matches has the sound push
      its gain times its category's gain. */
  function UpdateGain(w: World, v: VoiceId, c: Option<CategoryId>): (r: World)
    requires Inv(w) && v < |w.voices|
    ensures r.voices == w.voices && r.sounds == w.sounds && r.gains == w.gains
    ensures r.log == w.log + (if GainTarget(w, v, c) then [GainPush(w, v)] else [])
  {
    if IsUncoupled(w.voices[v]) then w
    else
      var x := w.sounds[w.voices[v].sound.value];
      if c.None? || c.value == x.category then Emit(w, AlGain(v, x.gain, w.gains[x.category]))
      else w
  }
}
