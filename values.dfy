/**
  The host-side value model: plain, copyable configuration values with
  their language defaults, and the error kinds of the conversions.
 */
module Values {
  import opened Ints
  import opened Wrappers
  import opened Utf8

  /** A Rust `String`: bytes that are valid UTF-8. */
  type Text = s: seq<u8> | ValidUtf8(s)

  datatype DimensionType = Space | Channel | Time | Other

  /** `Default for DimensionType`. */
  const DEFAULT_DIMENSION_TYPE: DimensionType := Space

  datatype StorageDimension = StorageDimension(
    name: Option<Text>,
    kind: DimensionType,
    arraySizePx: u32,
    chunkSizePx: u32,
    shardSizeChunks: u32)

  /** `Default for StorageDimension`: no name, kind Space, all sizes 0. */
  const DEFAULT_DIMENSION: StorageDimension := StorageDimension(None, DEFAULT_DIMENSION_TYPE, 0, 0, 0)

  datatype StorageProperties = StorageProperties(
    filename: Option<Text>,
    externalMetadataJson: Option<Text>,
    firstFrameId: u32,
    pixelScaleUm: (F64Bits, F64Bits),
    acquisitionDimensions: seq<StorageDimension>,
    enableMultiscale: bool)

  /** `Default for StorageProperties`: 1 um per pixel, square pixels, everything else empty or zero. */
  const DEFAULT_PROPERTIES: StorageProperties :=
    StorageProperties(None, None, 0, (F64_ONE, F64_ONE), [], false)

  datatype StorageCapabilities = StorageCapabilities(
    chunkingIsSupported: bool,
    shardingIsSupported: bool,
    multiscaleIsSupported: bool)

  /** `Default for StorageCapabilities`: nothing supported. */
  const DEFAULT_CAPABILITIES: StorageCapabilities := StorageCapabilities(false, false, false)

  /** Why a conversion fails. */
  datatype Error =
    | InvalidUtf8                 // `CStr::to_str` rejected the bytes
    | InteriorNul                 // `CString::new` found a NUL inside the text
    | UnknownDimensionType(value: u32)  // no host variant for a foreign enum value
    | InitFailed                  // "Failed to initialize storage properties."
    | EnableMultiscaleFailed      // "Failed acquire api status check"
    | SetDimensionFailed          // "Failed to set storage dimension."
    | SlotOverrun                 // `set_dimension` past the slots `init` allocated: no defined result
    | Panicked(cause: Error)      // an `unwrap` on a failed result
}
