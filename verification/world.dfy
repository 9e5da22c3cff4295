/** The shared state of the sound system: the arena of voices (`ALSource` objects, the
    pool slots of `SoundManager.sources` marked by `inPool`), the sounds, the gains of
    the categories, and the log of commands sent to the device.

    References between objects are indices: a voice names the sound coupled to it, a
    sound names its voice, a sound names its category. The source's `null` is `None`. */
module World {
  import opened Base
  import opened ALBuffer

  // Sound priorities.
  const PRIORITY_DELETE: int := 0
  const PRIORITY_LOW: int := 1
  const PRIORITY_MODERATE: int := 2
  const PRIORITY_HIGH: int := 3

  /** `SoundManager.DEFAULT_ROLLOFF_FACTOR`, set on every voice when it is created. */
  const DEFAULT_ROLLOFF_FACTOR: real := 0.2

  type VoiceId = nat
  type SoundId = nat
  type CategoryId = nat

  /** A position or velocity; the source's `Vector` only ever reaches the device
      through `getX` and `getY`. */
  datatype Vec = Vec(x: real, y: real)

  /** One call into the device, named after the `ALHelper` wrapper that makes it. */
  datatype Command =
    | AlGenSource(v: VoiceId)
    | AlRolloff(v: VoiceId, factor: real)
    | AlPlay(v: VoiceId)
    | AlStop(v: VoiceId)
    | AlPause(v: VoiceId)
    | AlBind(v: VoiceId, bufferId: int)
    | AlGain(v: VoiceId, gain: real, categoryGain: real)  // the device gets their product
    | AlLooping(v: VoiceId, looping: bool)
    | AlPitch(v: VoiceId, pitch: real)
    | AlOffset(v: VoiceId, size: int, offset: real)       // the device gets offset * size
    | AlPosition(v: VoiceId, position: Vec)
    | AlVelocity(v: VoiceId, velocity: Vec)
    | AlQueryOffset(v: VoiceId)
    | AlQueryState(v: VoiceId)
    | AlDestroy(v: VoiceId)

  /** An `ALSource`: the buffer last set on it, its `priority` field, the byte offset
      and playback state it last polled (`state` starts at Java's default 0, which is
      none of the AL states), the sound coupled to it, and whether its pool slot still
      holds it. */
  datatype Voice = Voice(
    buffer: Option<Buffer>,
    priority: int,
    byteOffset: int,
    state: int,
    sound: Option<SoundId>,
    inPool: bool)

  /** A `Sound`: its buffer array (`None` when loading threw in the constructor; an
      element is `None` where the bank answered null), the selected index, priority,
      the parameters it pushes to its voice, its category and its voice. */
  datatype Sound = Sound(
    buffers: Option<seq<Option<Buffer>>>,
    selected: int,
    priority: int,
    position: Vec,
    velocity: Vec,
    gain: real,
    pitch: real,
    looping: bool,
    offset: real,
    category: CategoryId,
    source: Option<VoiceId>)

  datatype World = World(
    voices: seq<Voice>,
    sounds: seq<Sound>,
    gains: seq<real>,
    log: seq<Command>)

  /** The result of an operation that may throw: the world as it is when the operation
      returns or throws, and the returned value or the exception. */
  datatype Step<T> = Step(w: World, r: Result<T>)

  /** Sends one command to the device; nothing cached changes. */
  function Emit(w: World, c: Command): (r: World)
    ensures r.voices == w.voices && r.sounds == w.sounds && r.gains == w.gains
    ensures r.log == w.log + [c]
  {
    w.(log := w.log + [c])
  }

  /** The voice and sound are coupled to each other. */
  ghost predicate Coupled(w: World, s: SoundId, v: VoiceId) {
    && s < |w.sounds| && v < |w.voices|
    && w.sounds[s].source == Some(v) && w.voices[v].sound == Some(s)
  }

  /** The invariant of every reachable state: a voice's sound names that voice back and
      a sound's voice names that sound back (so coupling is a partial bijection between
      voices and sounds), every sound's category exists, and every voice's priority is
      still the `PRIORITY_MODERATE` it was created with. */
  ghost predicate Inv(w: World) {
    && (forall v :: 0 <= v < |w.voices| && w.voices[v].sound.Some? ==>
          w.voices[v].sound.value < |w.sounds| && w.sounds[w.voices[v].sound.value].source == Some(v))
    && (forall s :: 0 <= s < |w.sounds| && w.sounds[s].source.Some? ==>
          w.sounds[s].source.value < |w.voices| && w.voices[w.sounds[s].source.value].sound == Some(s))
    && (forall s :: 0 <= s < |w.sounds| ==> w.sounds[s].category < |w.gains|)
    && (forall v :: 0 <= v < |w.voices| ==> w.voices[v].priority == PRIORITY_MODERATE)
  }

  /** The two worlds agree on everything `Inv` looks at. */
  ghost predicate SameLinks(w: World, w': World) {
    && |w'.voices| == |w.voices| && |w'.sounds| == |w.sounds| && |w'.gains| == |w.gains|
    && (forall v :: 0 <= v < |w.voices| ==>
          w'.voices[v].sound == w.voices[v].sound && w'.voices[v].priority == w.voices[v].priority)
    && (forall s :: 0 <= s < |w.sounds| ==>
          w'.sounds[s].source == w.sounds[s].source && w'.sounds[s].category == w.sounds[s].category)
  }

  lemma LinksFrame(w: World, w': World)
    requires Inv(w) && SameLinks(w, w')
    ensures Inv(w')
  {
  }

  /** Under the invariant no two voices share a sound and no two sounds share a voice. */
  lemma PartialBijection(w: World)
    requires Inv(w)
    ensures forall v1, v2 ::
              (0 <= v1 < |w.voices| && 0 <= v2 < |w.voices| &&
               w.voices[v1].sound.Some? && w.voices[v1].sound == w.voices[v2].sound) ==> v1 == v2
    ensures forall s1, s2 ::
              (0 <= s1 < |w.sounds| && 0 <= s2 < |w.sounds| &&
               w.sounds[s1].source.Some? && w.sounds[s1].source == w.sounds[s2].source) ==> s1 == s2
  {
  }
}
