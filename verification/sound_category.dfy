/** `SoundCategory`: a gain shared by a group of sounds. A category is an index into the
    world's `gains`; setting its gain refreshes every pooled voice playing one of its
    sounds. */
module SoundCategory {
  import opened Base
  import opened World
  import opened ALSource
  import SoundManager

  /** The two categories the library declares, and the gains they start with. */
  const MUSIC: CategoryId := 0
  const EFFECT: CategoryId := 1
  const INITIAL_GAINS: seq<real> := [1.0, 1.0]

  /** `getGain`. */
  function GetGain(w: World, c: CategoryId): (g: real)
    requires c < |w.gains|
    ensures g in w.gains
  {
    w.gains[c]
  }

  /** The gain push a voice receives when category `c` is set to `g`: the voice's sound
      gain paired with the new category gain. */
  ghost predicate PushedNewGain(w: World, c: CategoryId, g: real, r: World)
    requires Inv(w) && w.log <= r.log
  {
    var added := r.log[|w.log|..];
    && SoundManager.Within(added, 0, |w.voices|) && SoundManager.Ordered(added)
    && forall v: VoiceId :: v < |w.voices| ==>
         SoundManager.For(added, v) ==
           (if w.voices[v].inPool && !IsUncoupled(w.voices[v]) && w.sounds[w.voices[v].sound.value].category == c
            then [AlGain(v, w.sounds[w.voices[v].sound.value].gain, g)]
            else [])
  }

  /** `setGain`: the category's gain changes, nothing else in the world does, and each
      pooled voice coupled to a sound of the category is pushed the new gain once, in
      pool order. */
  function SetGain(w: World, c: CategoryId, g: real): (r: World)
    requires Inv(w) && c < |w.gains|
    ensures Inv(r)
    ensures r.gains == w.gains[c := g] && GetGain(r, c) == g
    ensures r.voices == w.voices && r.sounds == w.sounds
    ensures w.log <= r.log && PushedNewGain(w, c, g, r)
  {
    var u := w.(gains := w.gains[c := g]);
    assert Inv(u);
    var r := SoundManager.UpdateGain(u, Some(c));
    SetGainPushes(w, c, g, u, r);
    r
  }

  lemma SetGainPushes(w: World, c: CategoryId, g: real, u: World, r: World)
    requires Inv(w) && c < |w.gains|
    requires u == w.(gains := w.gains[c := g]) && Inv(u)
    requires r == SoundManager.UpdateGain(u, Some(c))
    ensures w.log <= r.log && PushedNewGain(w, c, g, r)
  {
    SoundManager.UpdateGainRefreshes(u, Some(c));
    assert u.log == w.log;
    forall v: VoiceId | v < |w.voices| && w.voices[v].inPool && GainTarget(u, v, Some(c))
      ensures GainPush(u, v) == AlGain(v, w.sounds[w.voices[v].sound.value].gain, g)
    {
    }
  }

  /** The constructors of `MUSIC` and `EFFECT` call `setGain`. That call reaches the
      manager and so brings its pool into being, but no sound exists yet: no voice is
      coupled, nothing is pushed, and only the gain is stored. */
  lemma ConstructorSetGainStoresOnly(w: World, c: CategoryId, g: real)
    requires Inv(w) && c < |w.gains| && w.sounds == []
    ensures SetGain(w, c, g) == w.(gains := w.gains[c := g])
  {
    var u := w.(gains := w.gains[c := g]);
    assert Inv(u) && u.sounds == [];
    SoundManager.UpdateGainFromUncoupled(u, 0, Some(c));
  }

  /** The library's start-up: the device's mono-source count sizes the pool, and both
      categories begin at full gain. */
  function Start(attributes: seq<int>): (r: Result<World>)
    ensures r.Ok? ==> |r.value.gains| == 2 && GetGain(r.value, MUSIC) == 1.0 && GetGain(r.value, EFFECT) == 1.0
    ensures r.Ok? ==> Inv(r.value) && r.value.sounds == []
  {
    SoundManager.Boot(attributes, INITIAL_GAINS)
  }
}
