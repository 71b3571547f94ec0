/**
  The fixed-layout native ABI: the foreign structs the layer reads and
  fills in, and the three native entry points of `storage_properties_*`,
  specified only by what the layer relies on. Pointers are replaced by the
  bytes they point at.
 */
module Capi {
  import opened Ints
  import opened Wrappers

  const NUL: u8 := 0

  /**
    `capi::String`: `bytes` is the memory that `str_` points at (None for a
    null pointer) and `nbytes` is the length field.
   */
  datatype StringView = StringView(bytes: Option<seq<u8>>, nbytes: nat)

  /** A null pointer with length 0. */
  const NULL_VIEW: StringView := StringView(None, 0)

  /**
    What `CStr::from_ptr` demands of a view that is read: a view with a
    non-zero length points at memory holding a NUL.
   */
  predicate Readable(v: StringView)
  {
    v.nbytes != 0 ==> v.bytes.Some? && NUL in v.bytes.value
  }

  /** Values of the foreign `DimensionType` enum, in the order the native library declares them. */
  const DIMENSION_TYPE_SPACE: u32 := 0
  const DIMENSION_TYPE_CHANNEL: u32 := 1
  const DIMENSION_TYPE_TIME: u32 := 2
  const DIMENSION_TYPE_OTHER: u32 := 3

  /** `capi::PixelScale`. */
  datatype PixelScale = PixelScale(x: F64Bits, y: F64Bits)

  /** `capi::StorageDimension`; `kind` holds a foreign `DimensionType` value. */
  datatype NativeDimension = NativeDimension(
    name: StringView,
    kind: u32,
    arraySizePx: u32,
    chunkSizePx: u32,
    shardSizeChunks: u32)

  /**
    `capi::StorageProperties`; `acquisitionDimensions` is the native array
    `data[0..size]`.
   */
  datatype NativeProperties = NativeProperties(
    filename: StringView,
    firstFrameId: u32,
    externalMetadataJson: StringView,
    pixelScaleUm: PixelScale,
    acquisitionDimensions: seq<NativeDimension>,
    enableMultiscale: u8)

  /** `capi::StoragePropertyMetadata`: three 0/1 flags. */
  datatype NativeMetadata = NativeMetadata(
    chunkingIsSupported: u8,
    shardingIsSupported: u8,
    multiscaleIsSupported: u8)

  /** Every string view of the struct can be read safely. */
  predicate WellFormed(v: NativeProperties)
  {
    && Readable(v.filename)
    && Readable(v.externalMetadataJson)
    && forall i :: 0 <= i < |v.acquisitionDimensions| ==> Readable(v.acquisitionDimensions[i].name)
  }

  /** `std::mem::zeroed()` and `Default` of `capi::StorageDimension`. */
  const ZERO_DIMENSION: NativeDimension := NativeDimension(NULL_VIEW, 0, 0, 0, 0)

  /** `std::mem::zeroed()` and `Default` of `capi::StorageProperties`. */
  const ZEROED: NativeProperties := NativeProperties(NULL_VIEW, 0, NULL_VIEW, PixelScale(0, 0), [], 0)

  /** `Default` of `capi::StoragePropertyMetadata`. */
  const ZERO_METADATA: NativeMetadata := NativeMetadata(0, 0, 0)

  /** One invocation of a native entry point, with its arguments. */
  datatype NativeCall =
    | InitCall(firstFrameId: u32, filename: StringView, externalMetadataJson: StringView,
           pixelScaleUm: PixelScale, dimensionCount: u8)
    | SetEnableMultiscaleCall(flag: u8)
    | SetDimensionCall(index: nat, name: StringView, kind: u32,
                   arraySizePx: u32, chunkSizePx: u32, shardSizeChunks: u32)

  /**
    A `capi::StorageProperties` that native entry points write through
    `&mut`. `calls` and `replies` record every entry point invoked on it and
    the success flag each returned. Each entry point may fail; after a
    failure nothing is promised about the fields.
   */
  class NativeStorageProperties {
    var filename: StringView
    var firstFrameId: u32
    var externalMetadataJson: StringView
    var pixelScaleUm: PixelScale
    var acquisitionDimensions: seq<NativeDimension>
    var enableMultiscale: u8

    ghost var calls: seq<NativeCall>
    ghost var replies: seq<bool>

    /** The struct as a value, as `Ok(out)` returns it. */
    function Value(): NativeProperties
      reads this
    {
      NativeProperties(filename, firstFrameId, externalMetadataJson, pixelScaleUm,
                       acquisitionDimensions, enableMultiscale)
    }

    /** `std::mem::zeroed()`. */
    constructor Zeroed()
      ensures Value() == ZEROED
      ensures calls == [] && replies == []
    {
      filename, firstFrameId, externalMetadataJson := NULL_VIEW, 0, NULL_VIEW;
      pixelScaleUm, acquisitionDimensions, enableMultiscale := PixelScale(0, 0), [], 0;
      calls, replies := [], [];
    }

    /**
      `storage_properties_init`: on success the two strings and the pixel
      scale are copied in and exactly `dimensionCount` dimension slots exist.
     */
    method Init(firstFrameId: u32, filename: StringView, externalMetadataJson: StringView,
                pixelScaleUm: PixelScale, dimensionCount: u8) returns (ok: bool)
      modifies this
      ensures calls == old(calls) + [InitCall(firstFrameId, filename, externalMetadataJson, pixelScaleUm, dimensionCount)]
      ensures replies == old(replies) + [ok]
      ensures ok ==>
        && this.filename == filename
        && this.firstFrameId == firstFrameId
        && this.externalMetadataJson == externalMetadataJson
        && this.pixelScaleUm == pixelScaleUm
        && |acquisitionDimensions| == dimensionCount as int
    {
      ok :| true;
      if ok {
        this.filename, this.firstFrameId, this.externalMetadataJson := filename, firstFrameId, externalMetadataJson;
        this.pixelScaleUm := pixelScaleUm;
        acquisitionDimensions := seq(dimensionCount as int, _ => ZERO_DIMENSION);
      }
      calls := calls + [InitCall(firstFrameId, filename, externalMetadataJson, pixelScaleUm, dimensionCount)];
      replies := replies + [ok];
    }

    /** `storage_properties_set_enable_multiscale`: on success only the flag changes. */
    method SetEnableMultiscale(flag: u8) returns (ok: bool)
      modifies this
      ensures calls == old(calls) + [SetEnableMultiscaleCall(flag)]
      ensures replies == old(replies) + [ok]
      ensures ok ==> Value() == old(Value()).(enableMultiscale := flag)
    {
      ok :| true;
      if ok {
        enableMultiscale := flag;
      }
      calls := calls + [SetEnableMultiscaleCall(flag)];
      replies := replies + [ok];
    }

    /**
      `storage_properties_set_dimension`: on success slot `index` holds the
      given dimension (the name bytes copied) and nothing else changes. An
      index outside the slots `init` allocated has no defined behaviour, so
      callers must stay inside them.
     */
    method SetDimension(index: nat, name: StringView, kind: u32,
                        arraySizePx: u32, chunkSizePx: u32, shardSizeChunks: u32) returns (ok: bool)
      requires index < |acquisitionDimensions|
      modifies this
      ensures calls == old(calls) + [SetDimensionCall(index, name, kind, arraySizePx, chunkSizePx, shardSizeChunks)]
      ensures replies == old(replies) + [ok]
      ensures ok ==> Value() == old(Value()).(acquisitionDimensions :=
        old(acquisitionDimensions)[index := NativeDimension(name, kind, arraySizePx, chunkSizePx, shardSizeChunks)])
    {
      ok :| true;
      if ok {
        acquisitionDimensions := acquisitionDimensions[index := NativeDimension(name, kind, arraySizePx, chunkSizePx, shardSizeChunks)];
      }
      calls := calls + [SetDimensionCall(index, name, kind, arraySizePx, chunkSizePx, shardSizeChunks)];
      replies := replies + [ok];
    }
  }
}
