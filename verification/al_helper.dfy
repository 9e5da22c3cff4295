/** The pure parts of `ALHelper`: the scan of the device attribute list that fills
    `MONO_SOURCES`, `STEREO_SOURCES` and `FREQUENCY`, the naming of error codes, and the
    error checks that turn a non-zero code into an `OpenALException`. The wrappers
    around the OpenAL calls themselves are device commands elsewhere in the model. */
module ALHelper {
  import opened Base
  import opened AL

  /** The three pseudo-constants `readDeviceAttributes` writes. */
  datatype Attributes = Attributes(monoSources: int, stereoSources: int, frequency: int)

  /** Their values before the device has been read. */
  const UNREAD: Attributes := Attributes(-1, -1, -1)

  /** `buf[i]` is the key of a complete (key, value) pair of the attribute list. */
  ghost predicate PairAt(buf: seq<int>, i: int) {
    0 <= i && i % 2 == 0 && i + 1 < |buf|
  }

  /** No complete pair beyond index `i` has key `key`. */
  ghost predicate NoKeyAfter(buf: seq<int>, i: int, key: int) {
    forall j :: i < j && PairAt(buf, j) ==> buf[j] != key
  }

  /** `value` is what a field starting at `prior` holds after the pairs at or beyond
      `lo`: the value of the last pair whose key is `key`, or `prior` if there is none. */
  ghost predicate LastValue(buf: seq<int>, lo: int, key: int, prior: int, value: int) {
    && (NoKeyAfter(buf, lo - 1, key) ==> value == prior)
    && (forall i :: lo <= i && PairAt(buf, i) && buf[i] == key && NoKeyAfter(buf, i, key)
                    ==> value == buf[i + 1])
  }

  /** One pair of the attribute list: the three known keys overwrite their field;
      `AL_BUFFER`, `ALC_REFRESH`, `ALC_MAX_AUXILIARY_SENDS` and unknown keys only
      printed something, so they change nothing. */
  function ApplyPair(a: Attributes, key: int, value: int): (r: Attributes)
    ensures r.monoSources == (if key == ALC_MONO_SOURCES then value else a.monoSources)
    ensures r.stereoSources == (if key == ALC_STEREO_SOURCES then value else a.stereoSources)
    ensures r.frequency == (if key == ALC_FREQUENCY then value else a.frequency)
  {
    if key == ALC_MONO_SOURCES then a.(monoSources := value)
    else if key == ALC_STEREO_SOURCES then a.(stereoSources := value)
    else if key == ALC_FREQUENCY then a.(frequency := value)
    else a
  }

  /** The loop `for (i = 0; i + 1 < limit; i += 2)` from index `i` on. */
  function ScanAttributes(buf: seq<int>, i: nat, a: Attributes): (r: Attributes)
    requires i % 2 == 0
    ensures LastValue(buf, i, ALC_MONO_SOURCES, a.monoSources, r.monoSources)
    ensures LastValue(buf, i, ALC_STEREO_SOURCES, a.stereoSources, r.stereoSources)
    ensures LastValue(buf, i, ALC_FREQUENCY, a.frequency, r.frequency)
    decreases |buf| - i
  {
    if i + 1 < |buf| then
      var r := ScanAttributes(buf, i + 2, ApplyPair(a, buf[i], buf[i + 1]));
      ScanStep(buf, i, ALC_MONO_SOURCES, a.monoSources, r.monoSources);
      ScanStep(buf, i, ALC_STEREO_SOURCES, a.stereoSources, r.stereoSources);
      ScanStep(buf, i, ALC_FREQUENCY, a.frequency, r.frequency);
      r
    else
      a
  }

  /** One pair of the loop: what holds after the pairs from `i + 2` on, starting from
      the field as pair `i` leaves it, holds after the pairs from `i` on. */
  lemma ScanStep(buf: seq<int>, i: nat, key: int, prior: int, value: int)
    requires i % 2 == 0 && i + 1 < |buf|
    requires LastValue(buf, i + 2, key, if buf[i] == key then buf[i + 1] else prior, value)
    ensures LastValue(buf, i, key, prior, value)
  {
    if NoKeyAfter(buf, i - 1, key) {
      assert buf[i] != key;
      assert NoKeyAfter(buf, i + 1, key);
    }
    forall j | i <= j && PairAt(buf, j) && buf[j] == key && NoKeyAfter(buf, j, key)
      ensures value == buf[j + 1]
    {
      if j == i {
        assert NoKeyAfter(buf, i + 1, key);
      }
    }
  }

  /** `readDeviceAttributes` over the attribute list `buf` (whose length is the
      reported `ALC_ATTRIBUTES_SIZE`), starting from the fields' current values. */
  function ReadDeviceAttributes(buf: seq<int>, prior: Attributes): (r: Attributes)
    ensures LastValue(buf, 0, ALC_MONO_SOURCES, prior.monoSources, r.monoSources)
    ensures LastValue(buf, 0, ALC_STEREO_SOURCES, prior.stereoSources, r.stereoSources)
    ensures LastValue(buf, 0, ALC_FREQUENCY, prior.frequency, r.frequency)
  {
    ScanAttributes(buf, 0, prior)
  }

  /** The AL error codes `getALErrorString` knows by name. */
  const AL_ERRORS: set<int> :=
    {AL_NO_ERROR, AL_INVALID_NAME, AL_INVALID_ENUM, AL_INVALID_VALUE,
     AL_INVALID_OPERATION, AL_OUT_OF_MEMORY}

  /** The ALC error codes `getALCErrorString` knows by name. */
  const ALC_ERRORS: set<int> :=
    {ALC_NO_ERROR, ALC_INVALID_DEVICE, ALC_INVALID_CONTEXT, ALC_INVALID_ENUM,
     ALC_INVALID_VALUE, ALC_OUT_OF_MEMORY}

  /** The code an AL error name stands for: the inverse of `ALErrorString`. */
  function ALErrorCode(name: string): Option<int> {
    match name
    case "AL_NO_ERROR" => Some(AL_NO_ERROR)
    case "AL_INVALID_NAME" => Some(AL_INVALID_NAME)
    case "AL_INVALID_ENUM" => Some(AL_INVALID_ENUM)
    case "AL_INVALID_VALUE" => Some(AL_INVALID_VALUE)
    case "AL_INVALID_OPERATION" => Some(AL_INVALID_OPERATION)
    case "AL_OUT_OF_MEMORY" => Some(AL_OUT_OF_MEMORY)
    case _ => None
  }

  /** The code an ALC error name stands for: the inverse of `ALCErrorString` on the
      codes other than `ALC_NO_ERROR`, whose name is the AL one. */
  function ALCErrorCode(name: string): Option<int> {
    match name
    case "AL_NO_ERROR" => Some(ALC_NO_ERROR)
    case "ALC_INVALID_DEVICE" => Some(ALC_INVALID_DEVICE)
    case "ALC_INVALID_CONTEXT" => Some(ALC_INVALID_CONTEXT)
    case "ALC_INVALID_ENUM" => Some(ALC_INVALID_ENUM)
    case "ALC_INVALID_VALUE" => Some(ALC_INVALID_VALUE)
    case "ALC_OUT_OF_MEMORY" => Some(ALC_OUT_OF_MEMORY)
    case _ => None
  }

  /** `getALErrorString`. */
  function ALErrorString(err: int): (r: string)
    ensures err in AL_ERRORS ==> ALErrorCode(r) == Some(err)
    ensures err !in AL_ERRORS <==> r == "No such error code"
  {
    if err == AL_NO_ERROR then "AL_NO_ERROR"
    else if err == AL_INVALID_NAME then "AL_INVALID_NAME"
    else if err == AL_INVALID_ENUM then "AL_INVALID_ENUM"
    else if err == AL_INVALID_VALUE then "AL_INVALID_VALUE"
    else if err == AL_INVALID_OPERATION then "AL_INVALID_OPERATION"
    else if err == AL_OUT_OF_MEMORY then "AL_OUT_OF_MEMORY"
    else "No such error code"
  }

  /** `getALCErrorString`: the no-error code is named "AL_NO_ERROR", and an unknown
      code gets a lower-case message, unlike `getALErrorString`. */
  function ALCErrorString(err: int): (r: string)
    ensures err in ALC_ERRORS ==> ALCErrorCode(r) == Some(err)
    ensures err !in ALC_ERRORS <==> r == "no such error code"
  {
    if err == ALC_NO_ERROR then "AL_NO_ERROR"
    else if err == ALC_INVALID_DEVICE then "ALC_INVALID_DEVICE"
    else if err == ALC_INVALID_CONTEXT then "ALC_INVALID_CONTEXT"
    else if err == ALC_INVALID_ENUM then "ALC_INVALID_ENUM"
    else if err == ALC_INVALID_VALUE then "ALC_INVALID_VALUE"
    else if err == ALC_OUT_OF_MEMORY then "ALC_OUT_OF_MEMORY"
    else "no such error code"
  }

  /** `checkALError`, given the code `alGetError` returned. */
  function CheckALError(err: int): (r: Result<()>)
    ensures r.Err? <==> err != AL_NO_ERROR
    ensures r.Err? ==> r.fault.OpenALFailure? && r.fault.message != "AL_NO_ERROR"
    ensures r.Err? && err in AL_ERRORS ==> ALErrorCode(r.fault.message) == Some(err)
  {
    if err != AL_NO_ERROR then Err(OpenALFailure(ALErrorString(err))) else Ok(())
  }

  /** `checkALCError`, given the code `alGetError` returned (the source asks the AL
      error state, not the ALC one, and names the code with the ALC names). */
  function CheckALCError(err: int): (r: Result<()>)
    ensures r.Err? <==> err != ALC_NO_ERROR
    ensures r.Err? ==> r.fault.OpenALFailure? && r.fault.message != "AL_NO_ERROR"
    ensures r.Err? && err in ALC_ERRORS ==> ALCErrorCode(r.fault.message) == Some(err)
  {
    if err != ALC_NO_ERROR then Err(OpenALFailure(ALCErrorString(err))) else Ok(())
  }

  /** Every AL error code other than no-error is reported under the ALC name of the
      same number: that name decodes back to the code and is never the code's AL name.
      So `AL_INVALID_NAME` appears as "ALC_INVALID_DEVICE". */
  lemma ALCNamesForALCodes(e: int)
    requires e in AL_ERRORS && e != AL_NO_ERROR
    ensures e in ALC_ERRORS
    ensures CheckALCError(e) == Err(OpenALFailure(ALCErrorString(e)))
    ensures ALCErrorCode(ALCErrorString(e)) == Some(e)
    ensures ALCErrorString(e) != ALErrorString(e) && ALErrorCode(ALCErrorString(e)) == None
  {
  }

}
