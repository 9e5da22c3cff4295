/** A concrete run of the allocator: two voices, both playing, held by moderate sounds
    A and B, and a high-priority sound C without a voice. */
module Scenarios {
  import opened Base
  import opened AL
  import opened ALBuffer
  import opened World
  import opened ALSource
  import SoundManager
  import Voices = Sound

  const A: SoundId := 0
  const B: SoundId := 1
  const C: SoundId := 2

  const CLIP: Buffer := Buffer(1, 4096, 1)

  /** A voice in its pool slot, playing for sound `s`. */
  function Busy(s: SoundId): Voice {
    Voice(Some(CLIP), PRIORITY_MODERATE, 0, AL_PLAYING, Some(s), true)
  }

  /** A sound of one clip at the origin, in category 1. */
  function Track(priority: int, source: Option<VoiceId>): Sound {
    Sound(Some([Some(CLIP)]), 0, priority, Vec(0.0, 0.0), Vec(0.0, 0.0), 1.0, 1.0, false, 0.0, 1, source)
  }

  const BEFORE: World :=
    World([Busy(A), Busy(B)],
          [Track(PRIORITY_MODERATE, Some(0)), Track(PRIORITY_MODERATE, Some(1)), Track(PRIORITY_HIGH, None)],
          [1.0, 1.0], [])

  /** What the scenario needs of its starting world: two busy voices, held by the
      moderate A and B, and the sound C, of priority at least moderate, without one. */
  ghost predicate Setup(w: World) {
    && Inv(w) && SoundManager.AllBusy(w) && |w.voices| == 2 && |w.sounds| == 3
    && w.sounds[A].source == Some(0) && w.sounds[B].source == Some(1) && w.sounds[C].source.None?
    && w.sounds[B].priority == PRIORITY_MODERATE && w.sounds[C].priority >= PRIORITY_MODERATE
    && Voices.BufferUsable(w.sounds[B]) && Voices.BufferUsable(w.sounds[C])
    && w.voices[1].state == AL_PLAYING && w.log == []
  }

  lemma BeforeIsSetup()
    ensures Setup(BEFORE)
  {
    assert SoundManager.AllBusy(BEFORE);
  }

  /** After C got a voice: A keeps voice 0, B has lost voice 1 and C holds it; the
      first command stopped voice 1 and the last one started it. */
  ghost predicate CTookLastVoice(w: World) {
    && |w.sounds| == 3 && |w.log| > 0
    && w.sounds[A].source == Some(0) && w.sounds[B].source.None? && w.sounds[C].source == Some(1)
    && w.log[0] == AlStop(1) && w.log[|w.log| - 1] == AlPlay(1)
  }

  /** `getSource` on C takes the LAST voice of the pool (ties go to the last
      candidate), so B is stopped and loses its voice while A keeps voice 0; and since
      voice 1 had cached Playing for B, the resynchronisation already starts C. */
  lemma TakesLastVoice(w: World)
    requires Setup(w)
    ensures Voices.GetSource(w, C).r == Ok(1) && CTookLastVoice(Voices.GetSource(w, C).w)
  {
    SoundManager.BusyPoolPicksLastVoice(w, w.sounds[C].priority);
    assert SoundManager.ScanPool(w.voices, w.sounds[C].priority).slot == 1;
    assert w.voices[1].sound == Some(B);
    Voices.AllocationReplaysStaleState(w, C);
    Voices.ReplayFollowsCachedState(w.voices[1], 1);
    Voices.GetSourceAllocates(w, C);
  }

  /** The scenario's own world: C's request (high) takes voice 1 from B. */
  lemma HighPrioritySoundTakesLastVoice()
    ensures Inv(BEFORE)
    ensures Voices.GetSource(BEFORE, C).r == Ok(1) && CTookLastVoice(Voices.GetSource(BEFORE, C).w)
  {
    BeforeIsSetup();
    TakesLastVoice(BEFORE);
  }

  /** `play` on C then starts voice 1 a second time, and leaves a world where B has
      no voice and both voices are busy, voice 1 still cached as Playing. */
  lemma PlayStartsTheTakenVoiceAgain(w: World)
    requires Setup(w)
    ensures var g := Voices.GetSource(w, C);
            var p := Voices.Play(w, C);
            && p.r.Ok? && CTookLastVoice(p.w) && p.w.log == g.w.log + [AlPlay(1)]
            && Inv(p.w) && SoundManager.AllBusy(p.w) && |p.w.voices| == 2
            && p.w.sounds[B] == w.sounds[B].(source := None) && p.w.voices[1].state == AL_PLAYING
  {
    TakesLastVoice(w);
    Voices.GetSourceAllocates(w, C);
    var p := Voices.Play(w, C);
    assert p == Voices.Issue(w, C, (v: VoiceId) => AlPlay(v));
    assert p.w.voices[0] == w.voices[0];
    assert p.w.voices[1].state == AL_PLAYING;
  }

  /** From a busy two-voice pool where C holds voice 1 and B has none, any question
      to B through `getSource` takes voice 1 back from C (B's priority is moderate,
      which every voice's is too) and answers with the state voice 1 had cached: a
      voice cached as Playing makes `isStopped` on B answer false. */
  lemma EvictedSoundTakesVoiceBack(w: World)
    requires Inv(w) && SoundManager.AllBusy(w) && |w.voices| == 2 && |w.sounds| == 3
    requires w.sounds[B].source.None? && w.sounds[B].priority == PRIORITY_MODERATE
    requires Voices.BufferUsable(w.sounds[B])
    requires w.sounds[A].source == Some(0) && w.sounds[C].source == Some(1)
    requires w.voices[1].state == AL_PLAYING
    ensures var q := Voices.Stopped(w, B);
            && q.r == Ok(false)
            && q.w.sounds[B].source == Some(1) && q.w.sounds[C].source.None?
            && q.w.sounds[A].source == Some(0)
  {
    SoundManager.BusyPoolPicksLastVoice(w, PRIORITY_MODERATE);
    assert SoundManager.ScanPool(w.voices, PRIORITY_MODERATE).slot == 1;
    Voices.GetSourceAllocates(w, B);
  }

  /** Asking the evicted B whether it has stopped, once C plays: B takes voice 1 back
      and the answer is the state voice 1 had cached for C, Playing. */
  lemma AskingEvictedSoundTakesVoiceBack()
    ensures Inv(Voices.Play(BEFORE, C).w)
    ensures var q := Voices.Stopped(Voices.Play(BEFORE, C).w, B);
            && q.r == Ok(false)
            && q.w.sounds[B].source == Some(1) && q.w.sounds[C].source.None?
            && q.w.sounds[A].source == Some(0)
  {
    BeforeIsSetup();
    PlayStartsTheTakenVoiceAgain(BEFORE);
    EvictedSoundTakesVoiceBack(Voices.Play(BEFORE, C).w);
  }
}
