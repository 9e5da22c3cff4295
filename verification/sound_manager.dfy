/** `SoundManager`: the pool of voices, the allocation of a voice to a sound
    (`getFreeSource`), and the loops over the pool that poll the voices, refresh their
    gains and free them. The listener is not part of this model. */
module SoundManager {
  import opened Base
  import opened ALHelper
  import opened World
  import opened ALSource
  import ALBufferBank

  /** What `getFreeSource`'s single pass over the pool finds. */
  datatype Pick =
    | NullSlot(slot: VoiceId)  // a slot `clear` emptied: the scan throws there
    | Free(slot: VoiceId)      // the first uncoupled voice
    | Reclaim(slot: VoiceId)   // the first voice whose cached state is Stopped
    | Preempt(slot: VoiceId)   // the lowest priority within the request, the last one on ties
    | Exhausted                // every voice busy with a higher priority than the request

  /** The voice ends the scan where it stands. */
  predicate EndsScan(x: Voice) {
    !x.inPool || IsUncoupled(x) || IsStopped(x)
  }

  /** The loop of `getFreeSource` from slot `i`, with `req` the running bound
      (`priority` in the source, lowered to each candidate's priority) and `cand` the
      current candidate (`newSource`). A candidate must be at or below the bound, so
      a later voice of equal priority replaces an earlier one. */
  function Scan(vs: seq<Voice>, i: nat, req: int, cand: Option<VoiceId>): (p: Pick)
    requires i <= |vs|
    requires cand.Some? ==> cand.value < i && vs[cand.value].inPool && !IsUncoupled(vs[cand.value])
    ensures !p.Exhausted? ==> p.slot < |vs|
    ensures p.Free? ==> vs[p.slot].inPool && IsUncoupled(vs[p.slot])
    ensures p.Reclaim? || p.Preempt? ==> vs[p.slot].inPool && !IsUncoupled(vs[p.slot])
    decreases |vs| - i
  {
    if i == |vs| then
      (if cand.Some? then Preempt(cand.value) else Exhausted)
    else if !vs[i].inPool then NullSlot(i)
    else if IsUncoupled(vs[i]) then Free(i)
    else if IsStopped(vs[i]) then Reclaim(i)
    else if vs[i].priority <= req then Scan(vs, i + 1, vs[i].priority, Some(i))
    else Scan(vs, i + 1, req, cand)
  }

  function ScanPool(vs: seq<Voice>, req: int): Pick {
    Scan(vs, 0, req, None)
  }

  /** No voice before slot `k` ends the scan. */
  ghost predicate BusyBefore(vs: seq<Voice>, k: int) {
    forall j :: 0 <= j < k && j < |vs| ==> !EndsScan(vs[j])
  }

  /** Voice `k` has a priority within the request, no earlier voice has a lower one,
      and every later voice has a higher one. */
  ghost predicate LowestLast(vs: seq<Voice>, req: int, k: int) {
    && 0 <= k < |vs| && vs[k].priority <= req
    && (forall j :: 0 <= j < k ==> vs[k].priority <= vs[j].priority)
    && (forall j :: k < j < |vs| ==> vs[j].priority > vs[k].priority)
  }

  /** What the pass promises, stated without the loop. */
  ghost predicate ScanSpec(vs: seq<Voice>, req: int, p: Pick) {
    match p
    case NullSlot(k) => k < |vs| && BusyBefore(vs, k) && !vs[k].inPool
    case Free(k) => k < |vs| && BusyBefore(vs, k) && vs[k].inPool && IsUncoupled(vs[k])
    case Reclaim(k) =>
      k < |vs| && BusyBefore(vs, k) && vs[k].inPool && !IsUncoupled(vs[k]) && IsStopped(vs[k])
    case Preempt(k) => BusyBefore(vs, |vs|) && LowestLast(vs, req, k)
    case Exhausted => BusyBefore(vs, |vs|) && forall j :: 0 <= j < |vs| ==> vs[j].priority > req
  }

  /** What holds of the loop when it reaches slot `i` with bound `t` and candidate `cand`. */
  ghost predicate ScanState(vs: seq<Voice>, req: int, i: nat, t: int, cand: Option<VoiceId>) {
    && i <= |vs| && BusyBefore(vs, i)
    && match cand
       case None => t == req && forall j :: 0 <= j < i ==> vs[j].priority > req
       case Some(k) =>
         && k < i && t == vs[k].priority && vs[k].priority <= req
         && (forall j :: 0 <= j < k ==> vs[k].priority <= vs[j].priority)
         && (forall j :: k < j < i ==> vs[j].priority > vs[k].priority)
  }

  lemma {:induction false} ScanFromState(vs: seq<Voice>, req: int, i: nat, t: int, cand: Option<VoiceId>)
    requires ScanState(vs, req, i, t, cand)
    ensures ScanSpec(vs, req, Scan(vs, i, t, cand))
    decreases |vs| - i
  {
    if i < |vs| && !EndsScan(vs[i]) {
      if vs[i].priority <= t {
        ScanFromState(vs, req, i + 1, vs[i].priority, Some(i));
      } else {
        ScanFromState(vs, req, i + 1, t, cand);
      }
    }
  }

  /** The pass finds what `ScanSpec` describes. */
  lemma ScanMeetsSpec(vs: seq<Voice>, req: int)
    ensures ScanSpec(vs, req, ScanPool(vs, req))
  {
    ScanFromState(vs, req, 0, req, None);
  }

  /** `ScanSpec` allows one outcome only, so it is a complete description of the pass. */
  lemma ScanSpecUnique(vs: seq<Voice>, req: int, p: Pick, q: Pick)
    requires ScanSpec(vs, req, p) && ScanSpec(vs, req, q)
    ensures p == q
  {

  }

  /** Voice `v` was handed out of `w`, giving `w'`: a free voice leaves the world as it
      was; a coupled one first had its sound stop it and both sides drop the link. */
  ghost predicate HandedOut(w: World, w': World, v: VoiceId) {
    && v < |w.voices|
    && if IsUncoupled(w.voices[v]) then w' == w
       else
         var s := w.voices[v].sound.value;
         && s < |w.sounds|
         && w'.voices == w.voices[v := w.voices[v].(sound := None)]
         && w'.sounds == w.sounds[s := w.sounds[s].(source := None)]
         && w'.gains == w.gains
         && w'.log == w.log + [AlStop(v)]
  }

  /** `getFreeSource(priority)`: the voice the pass picks, uncoupled from its sound
      when it had one; `None` (the source's null) when every voice is busy above the
      request; a null pointer exception at an emptied slot. */
  function GetFreeSource(w: World, req: int): (a: Step<Option<VoiceId>>)
    requires Inv(w)
    ensures Inv(a.w)
    ensures a.r.Err? <==> ScanPool(w.voices, req).NullSlot?
    ensures a.r.Err? ==> a.r.fault == NullPointer && a.w == w
    ensures a.r == Ok(None) <==> ScanPool(w.voices, req).Exhausted?
    ensures a.r == Ok(None) ==> a.w == w
    ensures a.r.Ok? && a.r.value.Some? ==>
              && a.r.value.value == ScanPool(w.voices, req).slot
              && HandedOut(w, a.w, a.r.value.value)
              && IsUncoupled(a.w.voices[a.r.value.value])
  {
    match ScanPool(w.voices, req)
    case NullSlot(_) => Step(w, Err(NullPointer))
    case Exhausted => Step(w, Ok(None))
    case Free(k) => Step(w, Ok(Some(k)))
    case Reclaim(k) => Step(Uncouple(w, k).w, Ok(Some(k)))
    case Preempt(k) => Step(Uncouple(w, k).w, Ok(Some(k)))
  }

  /** Every voice is in the pool, coupled and not Stopped. */
  ghost predicate AllBusy(w: World) {
    forall v :: 0 <= v < |w.voices| ==> !EndsScan(w.voices[v])
  }

  /** Voices never have their priority changed, so all of them stay at
      `PRIORITY_MODERATE`: once every voice is busy, a request below moderate gets
      nothing, and any other request evicts the last voice of the pool, whichever
      sound holds it. */
  lemma BusyPoolPicksLastVoice(w: World, req: int)
    requires Inv(w) && AllBusy(w)
    ensures req < PRIORITY_MODERATE || |w.voices| == 0 ==> GetFreeSource(w, req) == Step(w, Ok(None))
    ensures req >= PRIORITY_MODERATE && |w.voices| > 0 ==>
              GetFreeSource(w, req).r == Ok(Some(|w.voices| - 1))
  {
    var vs := w.voices;
    var expected := if req >= PRIORITY_MODERATE && |vs| > 0 then Preempt(|vs| - 1) else Exhausted;
    assert ScanSpec(vs, req, expected);
    ScanMeetsSpec(vs, req);
    ScanSpecUnique(vs, req, ScanPool(vs, req), expected);
  }

  /** The commands of `cs` addressed to voice `v`, in order. */
  function For(cs: seq<Command>, v: VoiceId): (r: seq<Command>)
    ensures |r| <= |cs|
    ensures forall k :: 0 <= k < |r| ==> r[k].v == v
  {
    if |cs| == 0 then []
    else (if cs[0].v == v then [cs[0]] else []) + For(cs[1..], v)
  }

  lemma {:induction false} ForAppend(a: seq<Command>, b: seq<Command>, v: VoiceId)
    ensures For(a + b, v) == For(a, v) + For(b, v)
  {
    if |a| == 0 {
      assert a + b == b;
    } else {
      assert (a + b)[0] == a[0];
      assert (a + b)[1..] == a[1..] + b;
      ForAppend(a[1..], b, v);
    }
  }

  /** The voices the commands address lie in `[lo, hi)`. */
  ghost predicate Within(cs: seq<Command>, lo: int, hi: int) {
    forall k :: 0 <= k < |cs| ==> lo <= cs[k].v < hi
  }

  /** The commands go to the voices in pool order. */
  ghost predicate Ordered(cs: seq<Command>) {
    forall a, b :: 0 <= a < b < |cs| ==> cs[a].v <= cs[b].v
  }

  lemma {:induction false} ForNone(cs: seq<Command>, v: VoiceId)
    requires forall k :: 0 <= k < |cs| ==> cs[k].v != v
    ensures For(cs, v) == []
  {
    if |cs| > 0 {
      ForNone(cs[1..], v);
    }
  }

  lemma {:induction false} ForEvery(cs: seq<Command>, v: VoiceId)
    requires forall k :: 0 <= k < |cs| ==> cs[k].v == v
    ensures For(cs, v) == cs
  {
    if |cs| > 0 {
      ForEvery(cs[1..], v);
      assert cs == [cs[0]] + cs[1..];
    }
  }

  /** Commands for voice `i` followed by ordered commands for voices in `(i, hi)`
      are ordered commands for voices in `[i, hi)`. */
  lemma BlockOrdered(a: seq<Command>, b: seq<Command>, i: VoiceId, hi: int)
    requires i < hi && Within(a, i, i + 1) && Within(b, i + 1, hi) && Ordered(b)
    ensures Within(a + b, i, hi) && Ordered(a + b)
  {
    var c := a + b;
    forall k | 0 <= k < |c|
      ensures i <= c[k].v < hi
    {
      if k < |a| { assert c[k] == a[k]; } else { assert c[k] == b[k - |a|]; }
    }
    forall x, y | 0 <= x < y < |c|
      ensures c[x].v <= c[y].v
    {
      if y < |a| {
        assert c[x] == a[x] && c[y] == a[y];
      } else if x < |a| {
        assert c[x] == a[x] && c[y] == b[y - |a|];
      } else {
        assert c[x] == b[x - |a|] && c[y] == b[y - |a|];
      }
    }
  }

  /** Splitting those commands by voice: voice `i` gets `a`, the others their part of `b`. */
  lemma BlockFor(a: seq<Command>, b: seq<Command>, i: VoiceId, hi: int)
    requires Within(a, i, i + 1) && Within(b, i + 1, hi)
    ensures For(a + b, i) == a
    ensures forall j: VoiceId :: j != i ==> For(a + b, j) == For(b, j)
  {
    ForAppend(a, b, i);
    ForEvery(a, i);
    ForNone(b, i);
    assert For(a + b, i) == a + [];
    forall j: VoiceId | j != i
      ensures For(a + b, j) == For(b, j)
    {
      ForAppend(a, b, j);
      ForNone(a, j);
      assert For(a + b, j) == [] + For(b, j);
    }
  }

  /** The voice is polled by `update`: its slot holds it and it is coupled. */
  predicate Polls(x: Voice) {
    x.inPool && !IsUncoupled(x)
  }

  /** What one voice's `update` sends when it does not throw. */
  function Expected(w: World, v: VoiceId, p: Probe): seq<Command>
    requires Inv(w) && v < |w.voices|
  {
    Queries(v, p) + (if Restarts(w, v, p) then [AlPlay(v)] else [])
  }

  /** The device's answers to the polls of one tick, voice by voice. */
  type Device = VoiceId -> Probe

  /** The loop of `update` from slot `i`: emptied slots are skipped; the first
      exception ends the tick. */
  function UpdateFrom(w: World, i: nat, dev: Device): (r: Step<()>)
    requires Inv(w) && i <= |w.voices|
    ensures Inv(r.w) && r.w.sounds == w.sounds && r.w.gains == w.gains
    ensures |r.w.voices| == |w.voices| && w.log <= r.w.log
    ensures r.r.Err? ==> r.r.fault == NullPointer
    decreases |w.voices| - i
  {
    if i == |w.voices| then Step(w, Ok(()))
    else if !w.voices[i].inPool then UpdateFrom(w, i + 1, dev)
    else
      var u := ALSource.Update(w, i, dev(i));
      if u.r.Err? then u else UpdateFrom(u.w, i + 1, dev)
  }

  /** `update`: one tick over the whole pool. */
  function Update(w: World, dev: Device): (r: Step<()>)
    requires Inv(w)
    ensures Inv(r.w) && r.w.sounds == w.sounds && r.w.gains == w.gains
  {
    UpdateFrom(w, 0, dev)
  }

  /** A tick from slot `i` addresses voices from `i` on, in pool order, and leaves the
      voices before `i` alone. */
  ghost predicate TickOrder(w: World, i: nat, r: Step<()>)
    requires i <= |w.voices| && |r.w.voices| == |w.voices| && w.log <= r.w.log
  {
    var added := r.w.log[|w.log|..];
    && Within(added, i, |w.voices|) && Ordered(added)
    && (forall j :: 0 <= j < i ==> r.w.voices[j] == w.voices[j])
  }

  /** A tick from slot `i` throws exactly when some voice it polls has no buffer. */
  ghost predicate TickThrows(w: World, i: nat, r: Step<()>)
    requires i <= |w.voices|
  {
    r.r.Ok? <==> forall j :: i <= j < |w.voices| && Polls(w.voices[j]) ==> w.voices[j].buffer.Some?
  }

  /** A tick from slot `i` that returns has given every polled voice the device's
      answers, its queries and, when it is Stopped with a looping sound, one restart;
      every other voice keeps its state and receives nothing. */
  ghost predicate TickEffect(w: World, i: nat, dev: Device, r: Step<()>)
    requires Inv(w) && i <= |w.voices| && |r.w.voices| == |w.voices| && w.log <= r.w.log
  {
    r.r.Ok? ==>
      forall j: VoiceId :: i <= j < |w.voices| ==>
        && r.w.voices[j] == (if Polls(w.voices[j]) then Polled(w.voices[j], dev(j)) else w.voices[j])
        && For(r.w.log[|w.log|..], j) == (if Polls(w.voices[j]) then Expected(w, j, dev(j)) else [])
  }

  lemma {:induction false} TickOrderHolds(w: World, i: nat, dev: Device)
    requires Inv(w) && i <= |w.voices|
    ensures TickOrder(w, i, UpdateFrom(w, i, dev))
    decreases |w.voices| - i, 1
  {
    if i == |w.voices| {
      assert UpdateFrom(w, i, dev).w.log[|w.log|..] == [];
    } else if !Polls(w.voices[i]) {
      UpdateFromSkips(w, i, dev);
      TickOrderHolds(w, i + 1, dev);
      TickOrderSkip(w, i, UpdateFrom(w, i + 1, dev));
    } else {
      TickOrderPolled(w, i, dev);
    }
  }

  lemma TickOrderSkip(w: World, i: nat, r: Step<()>)
    requires i < |w.voices| && |r.w.voices| == |w.voices| && w.log <= r.w.log
    requires TickOrder(w, i + 1, r)
    ensures TickOrder(w, i, r)
  {
  }

  lemma {:induction false} TickOrderPolled(w: World, i: nat, dev: Device)
    requires Inv(w) && i < |w.voices| && Polls(w.voices[i])
    ensures TickOrder(w, i, UpdateFrom(w, i, dev))
    decreases |w.voices| - i, 0
  {
    var u := ALSource.Update(w, i, dev(i));
    assert u.w.voices == w.voices[i := Polled(w.voices[i], dev(i))];
    if u.r.Err? {
      assert UpdateFrom(w, i, dev) == u;
      TickOrderThrown(w, i, dev, u);
    } else {
      var r := UpdateFrom(u.w, i + 1, dev);
      assert UpdateFrom(w, i, dev) == r;
      assert u.w.log == w.log + Expected(w, i, dev(i));
      TickOrderHolds(u.w, i + 1, dev);
      TickOrderStep(w, i, dev, u.w, r);
    }
  }

  lemma TickOrderThrown(w: World, i: nat, dev: Device, u: Step<()>)
    requires Inv(w) && i < |w.voices|
    requires u.w.voices == w.voices[i := Polled(w.voices[i], dev(i))]
    requires u.w.log == w.log + Queries(i, dev(i))
    ensures TickOrder(w, i, u)
  {
    assert u.w.log[|w.log|..] == Queries(i, dev(i));
  }

  lemma TickOrderStep(w: World, i: nat, dev: Device, u: World, r: Step<()>)
    requires Inv(w) && i < |w.voices| && Polls(w.voices[i])
    requires u.voices == w.voices[i := Polled(w.voices[i], dev(i))]
    requires u.log == w.log + Expected(w, i, dev(i))
    requires |r.w.voices| == |u.voices| && u.log <= r.w.log && TickOrder(u, i + 1, r)
    ensures TickOrder(w, i, r)
  {
    var a := Expected(w, i, dev(i));
    var b := r.w.log[|u.log|..];
    assert r.w.log[|w.log|..] == a + b;
    BlockOrdered(a, b, i, |w.voices|);
  }

  lemma {:induction false} TickThrowsHolds(w: World, i: nat, dev: Device)
    requires Inv(w) && i <= |w.voices|
    ensures TickThrows(w, i, UpdateFrom(w, i, dev))
    decreases |w.voices| - i, 1
  {
    if i < |w.voices| {
      if !Polls(w.voices[i]) {
        UpdateFromSkips(w, i, dev);
        TickThrowsHolds(w, i + 1, dev);
        TickThrowsSkip(w, i, UpdateFrom(w, i + 1, dev));
      } else {
        TickThrowsPolled(w, i, dev);
      }
    }
  }

  lemma {:induction false} TickThrowsPolled(w: World, i: nat, dev: Device)
    requires Inv(w) && i < |w.voices| && Polls(w.voices[i])
    ensures TickThrows(w, i, UpdateFrom(w, i, dev))
    decreases |w.voices| - i, 0
  {
    var u := ALSource.Update(w, i, dev(i));
    UpdateFromPolled(w, i, dev);
    if w.voices[i].buffer.Some? {
      TickThrowsHolds(u.w, i + 1, dev);
      TickThrowsJoin(w, i, dev, u.w, UpdateFrom(u.w, i + 1, dev));
    }
  }

  /** One iteration of `update`'s loop at a voice it does not poll. */
  lemma UpdateFromSkips(w: World, i: nat, dev: Device)
    requires Inv(w) && i < |w.voices| && !Polls(w.voices[i])
    ensures UpdateFrom(w, i, dev) == UpdateFrom(w, i + 1, dev)
  {
  }

  /** One iteration of `update`'s loop at a polled voice. */
  lemma UpdateFromPolled(w: World, i: nat, dev: Device)
    requires Inv(w) && i < |w.voices| && Polls(w.voices[i])
    ensures var u := ALSource.Update(w, i, dev(i));
            UpdateFrom(w, i, dev) == if u.r.Err? then u else UpdateFrom(u.w, i + 1, dev)
  {
  }

  lemma TickThrowsSkip(w: World, i: nat, r: Step<()>)
    requires i < |w.voices| && !Polls(w.voices[i]) && TickThrows(w, i + 1, r)
    ensures TickThrows(w, i, r)
  {
  }

  /** A voice polled without throwing, followed by the rest of the tick. */
  lemma TickThrowsJoin(w: World, i: nat, dev: Device, u: World, r: Step<()>)
    requires i < |w.voices| && Polls(w.voices[i]) && w.voices[i].buffer.Some?
    requires u.voices == w.voices[i := Polled(w.voices[i], dev(i))]
    requires TickThrows(u, i + 1, r)
    ensures TickThrows(w, i, r)
  {
    assert forall j :: i < j < |w.voices| ==> u.voices[j] == w.voices[j];
  }

  lemma {:induction false} TickEffectHolds(w: World, i: nat, dev: Device)
    requires Inv(w) && i <= |w.voices|
    ensures TickEffect(w, i, dev, UpdateFrom(w, i, dev))
    decreases |w.voices| - i, 2
  {
    if i < |w.voices| {
      if !Polls(w.voices[i]) {
        UpdateFromSkips(w, i, dev);
        TickEffectHolds(w, i + 1, dev);
        TickOrderHolds(w, i + 1, dev);
        TickEffectSkip(w, i, dev, UpdateFrom(w, i + 1, dev));
      } else {
        TickEffectPolled(w, i, dev);
      }
    }
  }

  lemma {:induction false} TickEffectPolled(w: World, i: nat, dev: Device)
    requires Inv(w) && i < |w.voices| && Polls(w.voices[i])
    ensures TickEffect(w, i, dev, UpdateFrom(w, i, dev))
    decreases |w.voices| - i, 1
  {
    var u := ALSource.Update(w, i, dev(i));
    if u.r.Ok? {
      assert UpdateFrom(w, i, dev) == UpdateFrom(u.w, i + 1, dev);
      TickEffectStep(w, i, dev, u.w);
    } else {
      assert UpdateFrom(w, i, dev) == u;
    }
  }

  lemma TickEffectSkip(w: World, i: nat, dev: Device, r: Step<()>)
    requires Inv(w) && i < |w.voices| && !Polls(w.voices[i])
    requires |r.w.voices| == |w.voices| && w.log <= r.w.log
    requires TickOrder(w, i + 1, r) && TickEffect(w, i + 1, dev, r)
    ensures TickEffect(w, i, dev, r)
  {
    var added := r.w.log[|w.log|..];
    ForNone(added, i);
    if r.r.Ok? {
      forall j: VoiceId | i <= j < |w.voices|
        ensures r.w.voices[j] == (if Polls(w.voices[j]) then Polled(w.voices[j], dev(j)) else w.voices[j])
        ensures For(added, j) == (if Polls(w.voices[j]) then Expected(w, j, dev(j)) else [])
      {
        if j == i {
          assert r.w.voices[i] == w.voices[i];
        }
      }
    }
  }

  lemma {:induction false} TickEffectStep(w: World, i: nat, dev: Device, u: World)
    requires Inv(w) && i < |w.voices| && Polls(w.voices[i]) && Inv(u)
    requires u.voices == w.voices[i := Polled(w.voices[i], dev(i))] && u.sounds == w.sounds
    requires u.log == w.log + Expected(w, i, dev(i))
    ensures TickEffect(w, i, dev, UpdateFrom(u, i + 1, dev))
    decreases |w.voices| - i, 0
  {
    var r := UpdateFrom(u, i + 1, dev);
    TickEffectHolds(u, i + 1, dev);
    TickOrderHolds(u, i + 1, dev);
    TickEffectJoin(w, i, dev, u, r);
  }

  /** The voice polled at slot `i` followed by the rest of the tick. */
  lemma TickEffectJoin(w: World, i: nat, dev: Device, u: World, r: Step<()>)
    requires Inv(w) && i < |w.voices| && Polls(w.voices[i]) && Inv(u)
    requires u.voices == w.voices[i := Polled(w.voices[i], dev(i))] && u.sounds == w.sounds
    requires u.log == w.log + Expected(w, i, dev(i))
    requires |r.w.voices| == |u.voices| && u.log <= r.w.log
    requires TickOrder(u, i + 1, r) && TickEffect(u, i + 1, dev, r)
    ensures TickEffect(w, i, dev, r)
  {
    var a := Expected(w, i, dev(i));
    var b := r.w.log[|u.log|..];
    var added := r.w.log[|w.log|..];
    assert added == a + b;
    BlockFor(a, b, i, |w.voices|);
    if r.r.Ok? {
      forall j: VoiceId | i <= j < |w.voices|
        ensures r.w.voices[j] == (if Polls(w.voices[j]) then Polled(w.voices[j], dev(j)) else w.voices[j])
        ensures For(added, j) == (if Polls(w.voices[j]) then Expected(w, j, dev(j)) else [])
      {
        if j == i {
          assert r.w.voices[i] == u.voices[i];
        } else {
          TickEffectLater(w, i, dev, u, r, j, For(b, j));
        }
      }
    }
  }

  /** A voice after slot `i` is polled and addressed by the rest of the tick exactly as
      if the tick had started there. */
  lemma TickEffectLater(w: World, i: nat, dev: Device, u: World, r: Step<()>, j: VoiceId, forJ: seq<Command>)
    requires Inv(w) && i < j < |w.voices| && Polls(w.voices[i]) && Inv(u)
    requires u.voices == w.voices[i := Polled(w.voices[i], dev(i))] && u.sounds == w.sounds
    requires |r.w.voices| == |u.voices| && u.log <= r.w.log && r.r.Ok?
    requires TickEffect(u, i + 1, dev, r)
    requires forJ == For(r.w.log[|u.log|..], j)
    ensures r.w.voices[j] == (if Polls(w.voices[j]) then Polled(w.voices[j], dev(j)) else w.voices[j])
    ensures forJ == (if Polls(w.voices[j]) then Expected(w, j, dev(j)) else [])
  {
    assert u.voices[j] == w.voices[j];
    assert Expected(u, j, dev(j)) == Expected(w, j, dev(j));
  }

  /** One tick over the pool: commands in pool order; it throws exactly when a polled
      voice has no buffer; when it returns, each polled voice took the device's answers
      and received exactly its queries and, if it is Stopped with a looping sound, one
      restart, while every other voice is unchanged and received nothing. */
  lemma UpdateTick(w: World, dev: Device)
    requires Inv(w)
    ensures var r := Update(w, dev);
            && TickOrder(w, 0, r) && TickThrows(w, 0, r) && TickEffect(w, 0, dev, r)
  {
    TickOrderHolds(w, 0, dev);
    TickThrowsHolds(w, 0, dev);
    TickEffectHolds(w, 0, dev);
  }

  /** The loop of `updateGain(category)` from slot `i`; emptied slots are skipped. */
  function UpdateGainFrom(w: World, i: nat, c: Option<CategoryId>): (r: World)
    requires Inv(w) && i <= |w.voices|
    ensures r.voices == w.voices && r.sounds == w.sounds && r.gains == w.gains
    ensures w.log <= r.log
    decreases |w.voices| - i
  {
    if i == |w.voices| then w
    else UpdateGainFrom(if w.voices[i].inPool then ALSource.UpdateGain(w, i, c) else w, i + 1, c)
  }

  /** `updateGain(category)`: `None` stands for the null category, which matches every sound. */
  function UpdateGain(w: World, c: Option<CategoryId>): (r: World)
    requires Inv(w)
    ensures r.voices == w.voices && r.sounds == w.sounds && r.gains == w.gains
  {
    UpdateGainFrom(w, 0, c)
  }

  /** The gain pushes a refresh from slot `i` makes: in pool order, exactly one for each
      pooled voice whose sound is in the category, none for any other voice. */
  ghost predicate Refreshed(w: World, i: nat, c: Option<CategoryId>, r: World)
    requires Inv(w) && i <= |w.voices| && w.log <= r.log
  {
    var added := r.log[|w.log|..];
    && Within(added, i, |w.voices|) && Ordered(added)
    && forall j: VoiceId :: i <= j < |w.voices| ==>
         For(added, j) == PushAt(w, j, c)
  }

  lemma {:induction false} UpdateGainFromRefreshes(w: World, i: nat, c: Option<CategoryId>)
    requires Inv(w) && i <= |w.voices|
    ensures Refreshed(w, i, c, UpdateGainFrom(w, i, c))
    decreases |w.voices| - i
  {
    if i == |w.voices| {
      assert UpdateGainFrom(w, i, c).log[|w.log|..] == [];
    } else {
      var u := if w.voices[i].inPool then ALSource.UpdateGain(w, i, c) else w;
      assert UpdateGainFrom(w, i, c) == UpdateGainFrom(u, i + 1, c);
      assert u.log == w.log + PushAt(w, i, c);
      UpdateGainFromRefreshes(u, i + 1, c);
      RefreshStep(w, u, UpdateGainFrom(u, i + 1, c), i, c);
    }
  }

  /** The gain push one iteration of `updateGain`'s loop makes at slot `i`. */
  function PushAt(w: World, i: VoiceId, c: Option<CategoryId>): seq<Command>
    requires Inv(w) && i < |w.voices|
  {
    if w.voices[i].inPool && GainTarget(w, i, c) then [GainPush(w, i)] else []
  }

  lemma RefreshStep(w: World, u: World, r: World, i: nat, c: Option<CategoryId>)
    requires Inv(w) && i < |w.voices| && Inv(u)
    requires u.voices == w.voices && u.sounds == w.sounds && u.gains == w.gains
    requires u.log == w.log + PushAt(w, i, c)
    requires u.log <= r.log && Refreshed(u, i + 1, c, r)
    ensures Refreshed(w, i, c, r)
  {
    var a := u.log[|w.log|..];
    var b := r.log[|u.log|..];
    assert a == PushAt(w, i, c);
    assert r.log[|w.log|..] == a + b;
    BlockOrdered(a, b, i, |w.voices|);
    BlockFor(a, b, i, |w.voices|);
    forall j: VoiceId | i < j < |w.voices|
      ensures For(b, j) == PushAt(w, j, c)
    {
      RefreshLater(w, u, j, c);
    }
  }

  /** A world that differs only in its log pushes the same gains. */
  lemma RefreshLater(w: World, u: World, j: VoiceId, c: Option<CategoryId>)
    requires Inv(w) && Inv(u) && j < |w.voices|
    requires u.voices == w.voices && u.sounds == w.sounds && u.gains == w.gains
    ensures PushAt(u, j, c) == PushAt(w, j, c)
  {
    assert GainTarget(u, j, c) == GainTarget(w, j, c);
  }

  /** `updateGain(category)` over the whole pool. */
  lemma UpdateGainRefreshes(w: World, c: Option<CategoryId>)
    requires Inv(w)
    ensures Refreshed(w, 0, c, UpdateGain(w, c))
  {
    UpdateGainFromRefreshes(w, 0, c);
  }

  /** With no voice coupled, a gain refresh from slot `i` sends nothing. */
  lemma {:induction false} UpdateGainFromUncoupled(w: World, i: nat, c: Option<CategoryId>)
    requires Inv(w) && i <= |w.voices|
    requires forall v :: 0 <= v < |w.voices| ==> IsUncoupled(w.voices[v])
    ensures UpdateGainFrom(w, i, c) == w
    decreases |w.voices| - i
  {
    if i < |w.voices| {
      if w.voices[i].inPool {
        assert ALSource.UpdateGain(w, i, c) == w;
      }
      UpdateGainFromUncoupled(w, i + 1, c);
    }
  }

  /** The loop of `clear` from slot `i`: every voice still in the pool is destroyed and
      its slot emptied. Links are kept: a sound still names its destroyed voice. */
  function ClearFrom(w: World, i: nat): (r: World)
    requires i <= |w.voices|
    ensures |r.voices| == |w.voices| && r.sounds == w.sounds && r.gains == w.gains
    ensures w.log <= r.log
    ensures forall j :: 0 <= j < |w.voices| ==>
              r.voices[j] == (if i <= j then w.voices[j].(inPool := false) else w.voices[j])
    decreases |w.voices| - i
  {
    if i == |w.voices| then w
    else if w.voices[i].inPool then
      var destroyed := Emit(w, AlDestroy(i));
      ClearFrom(destroyed.(voices := destroyed.voices[i := destroyed.voices[i].(inPool := false)]), i + 1)
    else ClearFrom(w, i + 1)
  }

  function Clear(w: World): (r: World)
    ensures |r.voices| == |w.voices| && r.sounds == w.sounds && r.gains == w.gains
    ensures forall j :: 0 <= j < |w.voices| ==> !r.voices[j].inPool
    ensures Inv(w) ==> Inv(r)
  {
    var r := ClearFrom(w, 0);
    assert Inv(w) ==> SameLinks(w, r);
    r
  }

  /** The destroy commands of a clear from slot `i`: in pool order, one for each voice
      still in the pool. */
  ghost predicate Destroyed(w: World, i: nat, r: World)
    requires i <= |w.voices| && w.log <= r.log
  {
    var added := r.log[|w.log|..];
    && Within(added, i, |w.voices|) && Ordered(added)
    && forall j: VoiceId :: i <= j < |w.voices| ==>
         For(added, j) == (if w.voices[j].inPool then [AlDestroy(j)] else [])
  }

  lemma {:induction false} ClearFromDestroys(w: World, i: nat)
    requires i <= |w.voices|
    ensures Destroyed(w, i, ClearFrom(w, i))
    decreases |w.voices| - i
  {
    if i == |w.voices| {
      assert ClearFrom(w, i).log[|w.log|..] == [];
    } else {
      var u := if w.voices[i].inPool
               then Emit(w, AlDestroy(i)).(voices := w.voices[i := w.voices[i].(inPool := false)])
               else w;
      ClearFromDestroys(u, i + 1);
      DestroyStep(w, u, ClearFrom(u, i + 1), i);
    }
  }

  lemma DestroyStep(w: World, u: World, r: World, i: nat)
    requires i < |w.voices| && |u.voices| == |w.voices|
    requires forall j :: i < j < |w.voices| ==> u.voices[j] == w.voices[j]
    requires u.log == w.log + (if w.voices[i].inPool then [AlDestroy(i)] else [])
    requires u.log <= r.log && Destroyed(u, i + 1, r)
    ensures Destroyed(w, i, r)
  {
    var a := u.log[|w.log|..];
    var b := r.log[|u.log|..];
    var added := r.log[|w.log|..];
    assert added == a + b;
    assert Within(b, i + 1, |w.voices|) && Ordered(b);
    BlockOrdered(a, b, i, |w.voices|);
    BlockFor(a, b, i, |w.voices|);
    forall j: VoiceId | i <= j < |w.voices|
      ensures For(added, j) == (if w.voices[j].inPool then [AlDestroy(j)] else [])
    {
      if j > i {
        assert For(added, j) == For(b, j);
        assert For(b, j) == (if u.voices[j].inPool then [AlDestroy(j)] else []);
      }
    }
  }

  /** `clear` destroys each pooled voice exactly once, in pool order. */
  lemma ClearDestroysEachOnce(w: World)
    ensures Destroyed(w, 0, Clear(w))
  {
    ClearFromDestroys(w, 0);
  }

  /** `n` voices created in order, the first `k` of them already. */
  function CreateFrom(w: World, k: nat, n: nat): (r: World)
    requires k <= n
    ensures |r.voices| == |w.voices| + n - k && r.sounds == w.sounds && r.gains == w.gains
    ensures forall v :: 0 <= v < |w.voices| ==> r.voices[v] == w.voices[v]
    ensures forall v :: |w.voices| <= v < |r.voices| ==> r.voices[v] == FRESH
    ensures Inv(w) ==> Inv(r)
    decreases n - k
  {
    if k == n then w else CreateFrom(ALSource.Create(w), k + 1, n)
  }

  /** The static initialiser of `SoundManager`, in a world with the given categories
      and no sounds yet: the device's attribute list sets `MONO_SOURCES` (still -1 when
      the list has no such key), and one voice is created per mono source; a negative
      count throws `NegativeArraySizeException`, which leaves the initialiser as
      `ExceptionInInitializerError`. */
  function Boot(attributes: seq<int>, gains: seq<real>): (r: Result<World>)
    ensures var n := ReadDeviceAttributes(attributes, UNREAD).monoSources;
            && (r.Err? <==> n < 0)
            && (r.Err? ==> r.fault == NegativeArraySize)
            && (r.Ok? ==>
                  && Inv(r.value) && |r.value.voices| == n && r.value.sounds == [] && r.value.gains == gains
                  && (forall v :: 0 <= v < n ==> r.value.voices[v] == FRESH))
  {
    var n := ReadDeviceAttributes(attributes, UNREAD).monoSources;
    if n < 0 then Err(NegativeArraySize)
    else Ok(CreateFrom(World([], [], gains, []), 0, n))
  }

  /** `shutdown`: the bank's `clear` runs as written, which destroys no buffer (see
      `ALBufferBank.ClearAsWrittenFreesNothing`); then every pooled voice is destroyed
      and its slot emptied. Closing the device is not modelled. */
  method Shutdown(w: World, bank: ALBufferBank.Bank) returns (r: World, freed: seq<int>)
    requires Inv(w)
    ensures Inv(r) && |r.voices| == |w.voices| && r.sounds == w.sounds
    ensures forall v :: 0 <= v < |r.voices| ==> !r.voices[v].inPool
    ensures freed == []
    ensures w.log <= r.log && Destroyed(w, 0, r)
  {
    freed := ALBufferBank.ClearAsWrittenFrom(bank, 0);
    ALBufferBank.ClearAsWrittenFreesNothing(bank, 0);
    r := Clear(w);
    ClearDestroysEachOnce(w);
  }

  /** `shutdown` with the bank's `clear` as its comment promises (`ALBufferBank.ClearBank`):
      every cached buffer is freed once, and the voices go as in `Shutdown`. */
  method ShutdownAsIntended(w: World, bank: ALBufferBank.Bank) returns (r: World, freed: seq<int>)
    requires Inv(w)
    ensures Inv(r) && |r.voices| == |w.voices| && r.sounds == w.sounds
    ensures forall v :: 0 <= v < |r.voices| ==> !r.voices[v].inPool
    ensures forall k :: k in bank.entries ==> bank.entries[k].bufferId in freed
    ensures |freed| == |bank.entries|
    ensures w.log <= r.log && Destroyed(w, 0, r)
  {
    freed := ALBufferBank.ClearBank(bank);
    r := Clear(w);
    ClearDestroysEachOnce(w);
  }
}
