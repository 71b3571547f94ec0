/** StorageCapabilities to and from `capi::StoragePropertyMetadata`. */
module Capabilities {
  import opened Ints
  import opened Wrappers
  import opened Capi
  import opened Values
  import opened Bridge

  /** `TryFrom<capi::StoragePropertyMetadata>`: never fails; each flag is true exactly when its byte is 1. */
  function CapabilitiesFromNative(m: NativeMetadata): (r: Result<StorageCapabilities, Error>)
    ensures r.Ok?
    ensures r.value.chunkingIsSupported <==> m.chunkingIsSupported == 1
    ensures r.value.shardingIsSupported <==> m.shardingIsSupported == 1
    ensures r.value.multiscaleIsSupported <==> m.multiscaleIsSupported == 1
  {
    Ok(StorageCapabilities(
      BoolFromNative(m.chunkingIsSupported),
      BoolFromNative(m.shardingIsSupported),
      BoolFromNative(m.multiscaleIsSupported)))
  }

  /** `TryFrom<&StorageCapabilities>`: never fails, writes 0/1 flags that decode back to the same value. */
  function CapabilitiesToNative(c: StorageCapabilities): (r: Result<NativeMetadata, Error>)
    ensures r.Ok?
    ensures r.value.chunkingIsSupported <= 1 && r.value.shardingIsSupported <= 1 && r.value.multiscaleIsSupported <= 1
    ensures CapabilitiesFromNative(r.value) == Ok(c)
  {
    BoolConvention(c.chunkingIsSupported, 0);
    BoolConvention(c.shardingIsSupported, 0);
    BoolConvention(c.multiscaleIsSupported, 0);
    Ok(NativeMetadata(
      BoolAsU8(c.chunkingIsSupported),
      BoolAsU8(c.shardingIsSupported),
      BoolAsU8(c.multiscaleIsSupported)))
  }

  /** A native report survives decode-then-encode exactly when all three bytes are 0 or 1. */
  lemma MetadataRoundTrip(m: NativeMetadata)
    ensures CapabilitiesToNative(CapabilitiesFromNative(m).value) == Ok(m)
        <==> m.chunkingIsSupported <= 1 && m.shardingIsSupported <= 1 && m.multiscaleIsSupported <= 1
  {
  }

  /** The host default and the native default correspond. */
  lemma DefaultCapabilitiesAreZero()
    ensures CapabilitiesToNative(DEFAULT_CAPABILITIES) == Ok(ZERO_METADATA)
    ensures CapabilitiesFromNative(ZERO_METADATA) == Ok(DEFAULT_CAPABILITIES)
  {
  }
}
