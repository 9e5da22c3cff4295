# JOpenAL voice allocator, in Dafny

JOpenAL is a small Java layer over OpenAL. An OpenAL device has a fixed number of
*sources* (voices). The library creates one `ALSource` per voice the device reports
(`ALC_MONO_SOURCES`) and lets any number of `Sound` objects share them. A sound
without a voice gets one when it is next used, through `getSource`:
`SoundManager.getFreeSource` scans the pool for a free voice, then for a Stopped one,
and otherwise preempts a voice whose priority is at or below the request. The voice is
coupled to the sound, and `initSource` pushes the sound's whole state to it.

This project models that protocol as pure functions over an immutable world:

- `World.World` holds the pool (`voices`, indexed by pool slot) and the sounds, with a
  link in each direction. It also holds the category gains and the log of commands
  sent to the device.
- A Java exception is a `Base.Result` error. Every operation returns the world as it
  stood when the exception left it, so partial effects before a throw are kept.
- `World.Inv` is the reachable-state invariant. The links form a partial bijection,
  categories exist, and every voice has priority `PRIORITY_MODERATE`. Every
  operation preserves it except a direct call of the public `Sound.setUncoupled`
  (see "## Left out").
- The device is a parameter. Polls answer through an `ALSource.Probe`, and the
  decoder is an `ALBufferBank.Loader`. Everything sent to the device is a
  `World.Command` appended to the log.

The modules follow the source classes: `ALHelper` (attribute scan, error names and
checks), `ALBuffer` (the descriptor and its `toString`), `ALBufferBank` (extension
parsing, the cache, get-or-load), `ALSource` (one voice), `SoundManager` (the pool
loops), `Sound` (`getSource`, `initSource` and the setters) and `SoundCategory`.
`Scenarios` proves what the allocator does on a two-voice pool, for any world of that shape and for a concrete one.

Behaviour of the code that the model keeps as written:

- **Voice priority never changes.** `ALSource.priority` is never assigned after
  construction, so every voice stays at `PRIORITY_MODERATE`. A request below
  moderate therefore gets no voice from a busy pool. Any other request evicts, and it
  always evicts the **last** voice of the pool: the comparison is `<=`, and the
  running bound takes the candidate's priority (`SoundManager.BusyPoolPicksLastVoice`).
- **The state replay is stale.** A freshly allocated voice still carries the byte
  offset and state it polled for its previous sound. `initSource` replays that state,
  so a voice taken from a Playing sound starts the new sound at once
  (`Sound.AllocationReplaysStaleState`).
- **`isStopped` and friends allocate.** They go through `getSource`, so asking an
  evicted sound whether it has stopped takes a voice back
  (`Scenarios.AskingEvictedSoundTakesVoiceBack`).
- **`uncouple` does not recurse.** It calls `sound.setUncoupled()`, which calls
  `stop()`, which calls `getSource()`. Under the invariant that sound still has this
  voice, so no allocation happens. `ALSource.Uncouple` inlines that chain, and
  `Sound.UncoupleIsSetUncoupled` proves the inlining exact.

What this means on a pool of two voices, both Playing and held by the moderate sounds
A (voice 0) and B (voice 1), when a third sound C of high priority is played:

- Preemption among equal priorities takes the last voice, because of the `<=` test and
  the running bound. So B loses voice 1 and A keeps voice 0
  (`Scenarios.HighPrioritySoundTakesLastVoice`).
- The voice's stale Playing state starts C as soon as it is coupled, and C's own `play`
  then sends a second play (`Scenarios.PlayStartsTheTakenVoiceAgain`).
- Asking B `isStopped` afterwards takes voice 1 back from C and answers `false`
  (`Scenarios.AskingEvictedSoundTakesVoiceBack`).

Floats are `real` values that are carried, never computed with. A command records its
operands: the gain command carries the sound gain and the category gain, not their
product.

## Model

| member | source | states |
|---|---|---|
| ALHelper.ApplyPair | JOpenAL/src/de/felk/JOpenAL/ALHelper.java:248-265 | a pair whose key is `ALC_MONO_SOURCES`, `ALC_STEREO_SOURCES` or `ALC_FREQUENCY` overwrites exactly that field; any other key (including `AL_BUFFER`, `ALC_REFRESH`, `ALC_MAX_AUXILIARY_SENDS`) changes nothing |
| ALHelper.ScanAttributes | JOpenAL/src/de/felk/JOpenAL/ALHelper.java:247-267 | after the loop each field holds the value of the last complete pair with its key, or its prior value when no such pair exists; a trailing odd element is ignored |
| ALHelper.ReadDeviceAttributes | JOpenAL/src/de/felk/JOpenAL/ALHelper.java:232-270 | the same "last complete pair wins, otherwise unchanged" property over the whole attribute list |
| ALHelper.ALErrorString | JOpenAL/src/de/felk/JOpenAL/ALHelper.java:273-290 | each of the six AL codes gets a name that `ALErrorCode` maps back to it; any other code, and only those, gets "No such error code" |
| ALHelper.ALCErrorString | JOpenAL/src/de/felk/JOpenAL/ALHelper.java:293-310 | each of the six ALC codes gets a name that maps back to it (no-error is named "AL_NO_ERROR"); any other code, and only those, gets lower-case "no such error code" |
| ALHelper.CheckALError | JOpenAL/src/de/felk/JOpenAL/ALHelper.java:312-317 | it throws exactly when the code is not `AL_NO_ERROR`, with an `OpenALException` whose message names the code |
| ALHelper.CheckALCError | JOpenAL/src/de/felk/JOpenAL/ALHelper.java:319-324 | it throws exactly when the code is not `ALC_NO_ERROR`, with a message that names the code under its ALC name |
| ALHelper.ALCNamesForALCodes | JOpenAL/src/de/felk/JOpenAL/ALHelper.java:319-324 | because `checkALCError` reads the AL error state, every AL error code other than no-error is reported under the ALC name of the same number, which decodes back to that code and is never the code's AL name (`AL_INVALID_NAME` appears as "ALC_INVALID_DEVICE") |
| ALBuffer.IntToStringRoundTrip | JOpenAL/src/de/felk/JOpenAL/ALBuffer.java:35-37 | the decimal text written for any integer, negative included, reads back as that integer |
| ALBuffer.ToString | JOpenAL/src/de/felk/JOpenAL/ALBuffer.java:35-37 | the text determines the descriptor: parsing it gives back size, buffer id and channels |
| ALBufferBank.GetExtension | JOpenAL/src/de/felk/JOpenAL/ALBufferBank.java:91-96 | the extension is absent exactly when the name without its trailing dots has no dot, and is otherwise the lower-cased text after the last dot |
| ALBufferBank.ExtensionIsLastPiece | JOpenAL/src/de/felk/JOpenAL/ALBufferBank.java:91-96 | `split("\\.")`, which drops trailing empty strings, followed by the length test and the last piece, gives exactly that extension |
| ALBufferBank.TrailingDotsIgnored | JOpenAL/src/de/felk/JOpenAL/ALBufferBank.java:92-95 | appending dots to a name never changes its extension ("a.b." has extension "b"): `split` drops trailing empty pieces |
| ALBufferBank.ExtensionOfDottedName | JOpenAL/src/de/felk/JOpenAL/ALBufferBank.java:92-95 | a name `base.ext`, with `ext` non-empty and dot-free, has the lower-cased `ext` as extension for every `base`, empty included (".ogg" has "ogg", "A.OGG" has "ogg") |
| ALBufferBank.NoDotNoExtension | JOpenAL/src/de/felk/JOpenAL/ALBufferBank.java:92-94 | a dot-free name followed by any number of dots has no extension ("abc", "abc.", "...") |
| ALBufferBank.FormatOf | JOpenAL/src/de/felk/JOpenAL/ALBufferBank.java:39-49 | "wav" and only "wav" selects the wave decoder, "ogg" and only "ogg" the vorbis decoder |
| ALBufferBank.AddSound | JOpenAL/src/de/felk/JOpenAL/ALBufferBank.java:29-54 | a device buffer is generated before the extension is looked at; a missing extension throws a null pointer exception (the switch is on null) and an unknown one `IOException`, both with the cache unchanged; otherwise the file under `res/sound/` is decoded and, when that succeeds, stored under the file's name |
| ALBufferBank.LoadInto | JOpenAL/src/de/felk/JOpenAL/ALBufferBank.java:39-53 | one decode of the given path in the given format; on success the descriptor is stored under the key and nothing else in the cache changes, on failure the cache is unchanged |
| ALBufferBank.GetSound | JOpenAL/src/de/felk/JOpenAL/ALBufferBank.java:57-61 | a cached name is answered without any device call; otherwise it loads, and the answer is whatever is stored under the name as asked (null when the storage key differs) |
| ALBufferBank.StorageKeyIsPlain | JOpenAL/src/de/felk/JOpenAL/ALBufferBank.java:33-53 | the storage key (`getName` of `res/sound/` + name) is a non-empty name without a separator |
| ALBufferBank.StorageKeyMatchesLookup | JOpenAL/src/de/felk/JOpenAL/ALBufferBank.java:53-60 | the key a file is stored under equals the name it is looked up by if and only if the name is plain |
| ALBufferBank.AddSoundKeepsKeysPlain | JOpenAL/src/de/felk/JOpenAL/ALBufferBank.java:53 | a cache whose keys are plain stays so after `addSound` |
| ALBufferBank.PlainNameIsCached | JOpenAL/src/de/felk/JOpenAL/ALBufferBank.java:57-61 | a plain name that loaded once is answered from the cache the next time, with the same descriptor and no device call |
| ALBufferBank.PathNameAlwaysReloads | JOpenAL/src/de/felk/JOpenAL/ALBufferBank.java:57-61 | a name with a path separator (or the empty name) is never a key, so every call generates a device buffer again, and a successful call answers null |
| ALBufferBank.PlainLookupKeepsEntries | JOpenAL/src/de/felk/JOpenAL/ALBufferBank.java:57-61 | looking up a plain name never changes or removes what is cached under any other key |
| ALBufferBank.GetBuffers | JOpenAL/src/de/felk/JOpenAL/ALBufferBank.java:63-69 | a successful result has one entry per file name |
| ALBufferBank.GetBuffersOfPlainNames | JOpenAL/src/de/felk/JOpenAL/ALBufferBank.java:63-69 | for plain names, entry i is the descriptor cached for name i, and nothing cached before is replaced |
| ALBufferBank.Lookup | JOpenAL/src/de/felk/JOpenAL/ALBufferBank.java:100-102 | `HashMap.get` finds something only for a file-name key present in the map; a boxed integer key never matches |
| ALBufferBank.ClearAsWrittenFreesNothing | JOpenAL/src/de/felk/JOpenAL/ALBufferBank.java:99-104 | the loop of `clear` as written destroys no buffer, whatever the bank holds |
| ALBufferBank.ClearAsWrittenKeepsLoadedClip | JOpenAL/src/de/felk/JOpenAL/ALBufferBank.java:99-104 | with one loaded clip, its buffer is in the bank and is not among those `clear` as written destroys |
| ALBufferBank.ClearBank | JOpenAL/src/de/felk/JOpenAL/ALBufferBank.java:98-104 | `clear` as its comment promises: one destroy per cached buffer, every cached buffer destroyed, nothing else |
| World.LinksFrame | JOpenAL/src/de/felk/JOpenAL/ALSource.java:15 | a change that keeps every link, voice priority and category keeps the invariant |
| World.PartialBijection | JOpenAL/src/de/felk/JOpenAL/Sound.java:16 | under the invariant no two voices hold the same sound and no two sounds hold the same voice |
| ALSource.Create | JOpenAL/src/de/felk/JOpenAL/ALSource.java:18-21 | a new voice is appended in its initial state (no buffer, moderate priority, uncoupled, in the pool) after a device source is generated and given rolloff 0.2; the other voices and the invariant are kept |
| ALSource.Uncouple | JOpenAL/src/de/felk/JOpenAL/ALSource.java:24-27 | it throws a null pointer exception exactly when the voice is uncoupled; otherwise its sound is stopped on this voice and both links are cleared, and nothing else changes |
| ALSource.SetBuffer | JOpenAL/src/de/felk/JOpenAL/ALSource.java:102-105 | the buffer is recorded even when it is null; a null buffer then throws before anything is sent, otherwise its id is bound |
| ALSource.SetOffset | JOpenAL/src/de/felk/JOpenAL/ALSource.java:127-129 | it throws exactly when the voice holds no buffer; otherwise the offset is sent with the buffer's size |
| ALSource.Polled | JOpenAL/src/de/felk/JOpenAL/ALSource.java:42-49 | a failed byte-offset query leaves offset and state as cached; a failed state query after a good offset query keeps the old state; only those two fields change |
| ALSource.Update | JOpenAL/src/de/felk/JOpenAL/ALSource.java:39-55 | an uncoupled voice is left alone; a coupled one is polled, then throws when it holds no buffer, and otherwise asks its sound to play exactly when the polled state is Stopped and the sound loops |
| ALSource.UpdateGain | JOpenAL/src/de/felk/JOpenAL/ALSource.java:141-146 | a gain push happens exactly when the voice is coupled and the category is null or its sound's category |
| SoundManager.Scan | JOpenAL/src/de/felk/JOpenAL/SoundManager.java:132-152 | the slot found is in range; a Free slot is pooled and uncoupled, a Reclaim or Preempt slot pooled and coupled |
| SoundManager.ScanMeetsSpec | JOpenAL/src/de/felk/JOpenAL/SoundManager.java:132-152 | the pass meets the loop-free description: an emptied slot throws; otherwise the first uncoupled or Stopped voice ends it; failing that, the last voice of lowest priority within the request is preempted, or nothing is found |
| SoundManager.ScanSpecUnique | JOpenAL/src/de/felk/JOpenAL/SoundManager.java:132-152 | that description allows one outcome only |
| SoundManager.GetFreeSource | JOpenAL/src/de/felk/JOpenAL/SoundManager.java:132-152 | a null pointer exception exactly at an emptied slot; null exactly when nothing is found, with the world unchanged; otherwise the picked voice, uncoupled from its previous sound with a stop, and the invariant kept |
| SoundManager.BusyPoolPicksLastVoice | JOpenAL/src/de/felk/JOpenAL/SoundManager.java:132-152 | when every voice is busy, a request below moderate (or an empty pool) gets null and changes nothing; any other request gets the last voice |
| SoundManager.ForAppend | JOpenAL/src/de/felk/JOpenAL/SoundManager.java:88-94 | the commands for one voice in two concatenated logs are those of each part, in order |
| SoundManager.Update | JOpenAL/src/de/felk/JOpenAL/SoundManager.java:88-94 | a tick keeps the invariant, the sounds and the gains; what it sends is stated by `SoundManager.UpdateTick` |
| SoundManager.UpdateFrom | JOpenAL/src/de/felk/JOpenAL/SoundManager.java:88-94 | the tick keeps the invariant, the sounds and the gains, only appends to the log, and can throw only a null pointer exception |
| SoundManager.UpdateTick | JOpenAL/src/de/felk/JOpenAL/SoundManager.java:88-94 | one tick addresses the voices in pool order; it throws exactly when a polled voice holds no buffer; if it returns, every pooled coupled voice got exactly its polls, offset division and restart, and every other voice nothing |
| SoundManager.UpdateGain | JOpenAL/src/de/felk/JOpenAL/SoundManager.java:161-167 | a gain refresh changes no voice, sound or gain; its pushes are stated by `SoundManager.UpdateGainRefreshes` |
| SoundManager.UpdateGainRefreshes | JOpenAL/src/de/felk/JOpenAL/SoundManager.java:161-167 | in pool order, exactly one gain push for each pooled voice coupled to a sound in the category (any category for null), none for any other voice |
| SoundManager.Clear | JOpenAL/src/de/felk/JOpenAL/SoundManager.java:97-104 | every slot is emptied, the sounds keep their links, and the invariant is kept |
| SoundManager.UpdateGainFromUncoupled | JOpenAL/src/de/felk/JOpenAL/SoundManager.java:161-167 | when no voice is coupled, a gain refresh sends nothing and changes nothing |
| SoundManager.ClearDestroysEachOnce | JOpenAL/src/de/felk/JOpenAL/SoundManager.java:97-104 | exactly one destroy per voice still in the pool, in pool order, none for emptied slots |
| SoundManager.CreateFrom | JOpenAL/src/de/felk/JOpenAL/SoundManager.java:38-41 | the loop appends the remaining voices in their initial state and keeps the existing ones |
| SoundManager.Boot | JOpenAL/src/de/felk/JOpenAL/SoundManager.java:22-42 | the pool size is the mono-source count read from the device; a negative count throws `NegativeArraySizeException` (raised in the static initialiser, so Java surfaces it as `ExceptionInInitializerError`), otherwise the pool holds that many initial voices and the invariant holds |
| SoundManager.Shutdown | JOpenAL/src/de/felk/JOpenAL/SoundManager.java:155-159 | the bank's `clear` as written frees no buffer at all; every pooled voice is destroyed once in pool order, all slots end empty and the invariant is kept |
| SoundManager.ShutdownAsIntended | JOpenAL/src/de/felk/JOpenAL/SoundManager.java:155-159 | the same with the corrected bank clear: every cached buffer is freed, one destroy per cached buffer |
| Sound.Link | JOpenAL/src/de/felk/JOpenAL/Sound.java:92-93 | both sides of the link are set and nothing else changes |
| Sound.SelectedBuffer | JOpenAL/src/de/felk/JOpenAL/Sound.java:116-118 | a null array throws a null pointer exception, an index out of range `ArrayIndexOutOfBoundsException`, otherwise the entry (possibly null) |
| Sound.BindSelected | JOpenAL/src/de/felk/JOpenAL/Sound.java:120-123 | only the voice's buffer changes; it succeeds exactly when the selected entry is a buffer, which is then bound |
| Sound.ReplayFollowsCachedState | JOpenAL/src/de/felk/JOpenAL/Sound.java:107-109 | at most one of play, pause and stop is replayed, and it is the one the voice's cached state names |
| Sound.Refresh | JOpenAL/src/de/felk/JOpenAL/Sound.java:101-109 | on a voice that holds a buffer only commands are sent: gain with the category's gain, looping, offset with the buffer's size, pitch, position, velocity, then the replay |
| Sound.Resync | JOpenAL/src/de/felk/JOpenAL/Sound.java:99-110 | it succeeds exactly when the selected entry is a buffer; then the commands are the bind, the pushes and the replay of the voice's cached state, and only the voice's buffer changes |
| Sound.InitSource | JOpenAL/src/de/felk/JOpenAL/Sound.java:99-110 | the invariant holds afterwards and the sound count is unchanged; see "## Left out" |
| Sound.InitSourceOnCoupled | JOpenAL/src/de/felk/JOpenAL/Sound.java:99-110 | on a coupled sound `initSource` is exactly that re-synchronisation |
| Sound.Allocate | JOpenAL/src/de/felk/JOpenAL/Sound.java:91-95 | allocation keeps the invariant and every sound's fields, only appends to the log, and couples the sound to the voice it returns |
| Sound.AllocateMeetsAllocated | JOpenAL/src/de/felk/JOpenAL/Sound.java:91-95 | an emptied slot or an exhausted pool throws a null pointer exception with nothing changed; otherwise the scanned voice is coupled to the sound even if re-synchronising throws, which happens exactly when the selected buffer is unusable; only the previous owner loses its link, and the voice keeps its cached state |
| Sound.GetSource | JOpenAL/src/de/felk/JOpenAL/Sound.java:90-97 | a coupled sound gets its own voice with nothing changed; an uncoupled one is allocated a voice |
| Sound.GetSourceAllocates | JOpenAL/src/de/felk/JOpenAL/Sound.java:90-97 | for an uncoupled sound `getSource` does what allocation promises |
| Sound.AllocationReplaysStaleState | JOpenAL/src/de/felk/JOpenAL/Sound.java:90-110 | when a voice is found and the buffer is usable, the commands are the eviction stop (if the voice was taken), the bind, the pushes and the replay of the state the voice cached for its previous sound |
| Sound.Issue | JOpenAL/src/de/felk/JOpenAL/Sound.java:66-76 | one command goes to the voice `getSource` returns, and it throws exactly when `getSource` does |
| Sound.Play | JOpenAL/src/de/felk/JOpenAL/Sound.java:66-68 | a coupled sound sends exactly one play to its voice; otherwise a voice is allocated first and the play follows |
| Sound.Stop | JOpenAL/src/de/felk/JOpenAL/Sound.java:70-72 | as `Play`, with a stop |
| Sound.Pause | JOpenAL/src/de/felk/JOpenAL/Sound.java:74-76 | as `Play`, with a pause |
| Sound.Ask | JOpenAL/src/de/felk/JOpenAL/Sound.java:78-88 | the answer tests the voice's cached state; on a coupled sound nothing is sent or changed |
| Sound.Stopped | JOpenAL/src/de/felk/JOpenAL/Sound.java:78-80 | true exactly when the voice `getSource` gives has cached `AL_STOPPED`; a coupled sound changes nothing |
| Sound.Paused | JOpenAL/src/de/felk/JOpenAL/Sound.java:82-84 | true exactly when that voice has cached `AL_PAUSED` |
| Sound.Playing | JOpenAL/src/de/felk/JOpenAL/Sound.java:86-88 | true exactly when that voice has cached `AL_PLAYING` |
| Sound.SetPosition | JOpenAL/src/de/felk/JOpenAL/Sound.java:129-132 | the position is pushed to the voice and then stored; when `getSource` throws, the old position stays |
| Sound.SetVelocity | JOpenAL/src/de/felk/JOpenAL/Sound.java:138-141 | the velocity is pushed and then stored; a throw keeps the old value |
| Sound.SetPitch | JOpenAL/src/de/felk/JOpenAL/Sound.java:160-163 | the pitch is pushed and then stored; a throw keeps the old value |
| Sound.SetLooping | JOpenAL/src/de/felk/JOpenAL/Sound.java:178-181 | the looping flag is pushed and then stored; a throw keeps the old value |
| Sound.UpdateGain | JOpenAL/src/de/felk/JOpenAL/Sound.java:152-154 | the sound's gain with its category's gain is pushed to the voice `getSource` gives |
| Sound.SetGain | JOpenAL/src/de/felk/JOpenAL/Sound.java:147-150 | the gain is stored before the push, so it is kept even when the push throws |
| Sound.SetOffset | JOpenAL/src/de/felk/JOpenAL/Sound.java:169-172 | the offset is pushed with the voice buffer's size and then stored; on a coupled voice without a buffer it throws and the offset is not stored |
| Sound.SetCategory | JOpenAL/src/de/felk/JOpenAL/Sound.java:187-189 | only the category changes and nothing is sent |
| Sound.SetPriority | JOpenAL/src/de/felk/JOpenAL/Sound.java:19 | only the sound's priority changes; its voice's priority does not |
| Sound.SetUncoupled | JOpenAL/src/de/felk/JOpenAL/Sound.java:49-52 | a stop through `getSource`, then the sound's link is cleared while its voice still names it, so the invariant no longer holds |
| Sound.UncoupleIsSetUncoupled | JOpenAL/src/de/felk/JOpenAL/ALSource.java:24-27 | on a coupled voice, the inlined `uncouple` equals `setUncoupled` on its sound followed by clearing the voice's link, and the intermediate state breaks the invariant |
| Sound.RestartIsPlay | JOpenAL/src/de/felk/JOpenAL/ALSource.java:51-54 | the restart of a looping voice is its sound's `play`, which sends one play to that voice |
| Sound.PoolGainPushIsUpdateGain | JOpenAL/src/de/felk/JOpenAL/ALSource.java:141-146 | the pool's gain push is the sound's own `updateGain` |
| Sound.SelectBuffer | JOpenAL/src/de/felk/JOpenAL/Sound.java:120-123 | the index is stored before anything can throw; on success the sound is coupled and the selected buffer was bound last |
| Sound.NextBuffer | JOpenAL/src/de/felk/JOpenAL/Sound.java:58-64 | a null array throws; from an in-range selection the next index is the successor modulo the array length |
| Sound.RandomizeBuffer | JOpenAL/src/de/felk/JOpenAL/Sound.java:54-56 | a null array throws a null pointer exception, an empty one `IllegalArgumentException`; otherwise the drawn index reduced modulo the length is selected |
| Sound.New | JOpenAL/src/de/felk/JOpenAL/Sound.java:34-47 | the bank keeps what loading did to it; an `IOException` or `OpenALException` from loading leaves the new sound's buffer array null, any other exception escapes and no sound is made; otherwise a new sound with the given fields, no voice, selection 0, moderate priority and the loaded array |
| Sound.NameWithoutExtensionEscapesNew | JOpenAL/src/de/felk/JOpenAL/Sound.java:34-47 | a name without an extension that is not cached makes the constructor throw a null pointer exception: the world is unchanged and the bank has only generated a buffer |
| SoundCategory.SetGain | JOpenAL/src/de/felk/JOpenAL/SoundCategory.java:20-23 | the category's gain changes and nothing else cached does; each pooled voice coupled to a sound of the category gets exactly one push of the new gain, in pool order, and no other voice gets one |
| SoundCategory.ConstructorSetGainStoresOnly | JOpenAL/src/de/felk/JOpenAL/SoundCategory.java:12-23 | in a world with no sounds, `setGain` only stores the gain: the manager's pool exists, but no voice is coupled, so nothing is pushed |
| SoundCategory.Start | JOpenAL/src/de/felk/JOpenAL/SoundCategory.java:6-7 | both categories start at gain 1 in an empty, invariant world |
| Scenarios.TakesLastVoice | JOpenAL/src/de/felk/JOpenAL/SoundManager.java:140-151 | in any world with two busy voices held by moderate A and B, `getSource` on the uncoupled C (priority at least moderate) takes voice 1: B loses it, A keeps voice 0, the first command stops voice 1, and the voice's stale Playing state already starts C |
| Scenarios.HighPrioritySoundTakesLastVoice | JOpenAL/src/de/felk/JOpenAL/SoundManager.java:140-151 | the same for the concrete pool of two playing clips and a high-priority C |
| Scenarios.PlayStartsTheTakenVoiceAgain | JOpenAL/src/de/felk/JOpenAL/Sound.java:66-68 | C's `play` then sends a second play to voice 1, and leaves both voices busy with voice 1 still cached as Playing |
| Scenarios.EvictedSoundTakesVoiceBack | JOpenAL/src/de/felk/JOpenAL/Sound.java:78-80 | once C holds voice 1 and B has none, B's `isStopped` takes voice 1 back from C through `getSource` and answers from the state the voice cached for C: false for a Playing voice |
| Scenarios.AskingEvictedSoundTakesVoiceBack | JOpenAL/src/de/felk/JOpenAL/Sound.java:78-97 | in the concrete pool, asking the evicted B `isStopped` after C plays takes voice 1 back from C and answers `false` |

## Findings

| source | as written | input that shows it | evidently intended | confidence | as-written member | corrected member |
|---|---|---|---|---|---|---|
| JOpenAL/src/de/felk/JOpenAL/ALBufferBank.java:99-104 | `clear` calls `buffers.get(i)` with an int index on a map keyed by file names, so every lookup misses and no buffer is destroyed | a bank holding "a.wav" with buffer 7: `clear` destroys nothing | destroy every cached buffer once | high, not executed | ALBufferBank.ClearAsWrittenFreesNothing | ALBufferBank.ClearBank |

`SoundManager.Shutdown` follows the source and so frees no buffer. `SoundManager.ShutdownAsIntended` is the same shutdown with the corrected bank clear.

## Left out

- The listener (`setListener`, `recalculateListener`) is left out. It reads the clock and does float arithmetic, and it is not part of the voice protocol.
- Float arithmetic is left out: the gain product, the offset ratio `byteOffset / size` and `randomizePitch`. Commands carry their operands.
- `randomizeBuffer`'s random number generator is left out. The draw is a parameter.
- `createAL`, `AL.create` / `AL.destroy` and the order of the static initialisers are left out. The world starts after them.
- The order in which the static initialisers of `SoundCategory` and `SoundManager` run is left out. The constructors' `setGain` calls are covered by `SoundCategory.ConstructorSetGainStoresOnly`: with no sound yet, they only store the gain.
- Device errors other than the two polls of `update` are left out; every other command is taken to succeed. In the source those polls print the exception and carry on.
- The buffer upload wrappers (`setWaveFile`, `setVorbisFile`, the WAV and Ogg decoders) are left out. They are the `Loader` parameter.
- The preload helpers (`addPreLoadSounds`, `preLoadSounds`, `clearPreLoadSounds`) are left out. They only call `addSound` in a loop and print failures.
- Console output and stack traces are left out.
- `ALSource.sourceID`, `getSourceID` and `equals` are left out. A voice is identified by its pool slot.
- `ALSource.offset` (the float ratio) is left out. Only the polled byte offset is kept.
- Null `Vector` and null `SoundCategory` arguments are left out. The category in `ALSource.updateGain` is the exception: there, null is `None`.
- Java's 32-bit `int` wrap-around is left out, for example `selectedBuffer + 1` at `Integer.MAX_VALUE`. Integers are unbounded.
- File name handling assumes the Unix separator. `toLowerCase` covers ASCII letters only.
- Sound.SetUncoupled: `setUncoupled` is public, and a direct call from an application breaks the link invariant: the voice still names the sound, which has no voice. What follows is not modelled, because every other operation requires the invariant. The next scan can reach that voice while it is Stopped, or preempt it; then `uncouple` calls `setUncoupled`, then `stop`, then `getSource`, which re-enters `getFreeSource` without bound. Otherwise the sound gets a second voice while the first still names it.
- Sound.InitSource: on an uncoupled sound its contract only states that the invariant holds and the sound count is unchanged. Its first `selectBuffer` allocates a voice through `getSource`, which re-enters `initSource`. The coupled case is stated in full by `Sound.InitSourceOnCoupled`, and the allocation path by `Sound.AllocationReplaysStaleState`.
- ALBufferBank.GetBuffers: its contract only fixes the length. Contents are stated by `ALBufferBank.GetBuffersOfPlainNames` for plain names; other names answer null, per `ALBufferBank.PathNameAlwaysReloads`.
- `ALBuffer.destroy` and `ALSource.destroy` are device commands only. The `AL.destroy` that ends `shutdown` is left out.
- `Sound.setPosition` and `Sound.setVelocity` call `ALSource.setPosition` and `ALSource.setVelocity` with a `Vector`, but `ALSource` declares only the three-float overloads. The model assumes a `Vector` overload that sends the vector's components.
- `LWJGLException` is left out of the exceptions. No modelled operation raises it, and the constructor would catch it like the two exceptions it names.
