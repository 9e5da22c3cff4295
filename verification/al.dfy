/** The OpenAL and ALC enumeration values the core compares against, as defined by
    the OpenAL 1.1 headers `al.h` and `alc.h` and the EFX extension `efx.h`. */
module AL {

  // Error codes reported by `alGetError`.
  const AL_NO_ERROR: int := 0
  const AL_INVALID_NAME: int := 0xA001
  const AL_INVALID_ENUM: int := 0xA002
  const AL_INVALID_VALUE: int := 0xA003
  const AL_INVALID_OPERATION: int := 0xA004
  const AL_OUT_OF_MEMORY: int := 0xA005

  // Error codes reported by `alcGetError`.
  const ALC_NO_ERROR: int := 0
  const ALC_INVALID_DEVICE: int := 0xA001
  const ALC_INVALID_CONTEXT: int := 0xA002
  const ALC_INVALID_ENUM: int := 0xA003
  const ALC_INVALID_VALUE: int := 0xA004
  const ALC_OUT_OF_MEMORY: int := 0xA005

  // Values of the source-state query `AL_SOURCE_STATE`.
  const AL_INITIAL: int := 0x1011
  const AL_PLAYING: int := 0x1012
  const AL_PAUSED: int := 0x1013
  const AL_STOPPED: int := 0x1014

  // Keys of the device attribute list `ALC_ALL_ATTRIBUTES`.
  const ALC_FREQUENCY: int := 0x1007
  const ALC_REFRESH: int := 0x1008
  const AL_BUFFER: int := 0x1009
  const ALC_MONO_SOURCES: int := 0x1010
  const ALC_STEREO_SOURCES: int := 0x1011
  const ALC_MAX_AUXILIARY_SENDS: int := 0x20003
}
