# Storage configuration marshalling (acquire-python `src/storage.rs`)

The storage layer of the acquire Python bindings moves configuration
between host value types and the fixed-layout native ABI of the acquire
core library:

- `DimensionType` and its bijection with the foreign enum (the `cvt!`
  mapping);
- the value types `StorageDimension`, `StorageProperties` and
  `StorageCapabilities`, with their `Default`s;
- optional strings, which cross the boundary as a pointer and a length
  (`None` is a null pointer with length 0, `Some(s)` is the bytes of `s`
  with a NUL and length `|s| + 1`) and are read back with
  `CStr::from_ptr(..).to_str()`;
- native to value: `TryFrom<capi::StorageDimension>`,
  `TryFrom<capi::StorageProperties>` (a loop over the native dimension
  array, where a failing element is unwrapped) and
  `TryFrom<capi::StoragePropertyMetadata>`;
- value to native: `TryFrom<&StorageProperties>`, which zeroes a native
  struct, encodes both strings, calls `storage_properties_init` with the
  number of dimensions cast to `u8`, then
  `storage_properties_set_enable_multiscale`, then
  `storage_properties_set_dimension(i, ..)` for each dimension in order,
  and returns the first failure; and `TryFrom<&StorageCapabilities>`.

Modules, in dependency order:

| file | module | contents |
|---|---|---|
| `ints.dfy` | `Ints` | `u8`, `u32`, the `f64` bit pattern, `as u8` truncation, `bool as u8` |
| `wrappers.dfy` | `Wrappers` | `Option`, `Result` |
| `utf8.dfy` | `Utf8` | UTF-8 well-formedness as `CStr::to_str` checks it |
| `capi.dfy` | `Capi` | the native structs, and a class for the native struct that the three entry points update in place |
| `values.dfy` | `Values` | host value types, their defaults, the error kinds |
| `bridge.dfy` | `Bridge` | the enum mapping, C-string encode and decode, the `== 1` boolean convention |
| `capabilities.dfy` | `Capabilities` | both capability conversions |
| `decode.dfy` | `Decode` | native to value, as functions and as the source's loop |
| `encode.dfy` | `Encode` | the value-to-native protocol as a reference function `Protocol`, and the method that runs it on a native struct |
| `roundtrip.dfy` | `RoundTrip` | round trips, outcome, order, fail-fast, count truncation, defaults |

Modelling choices:

- A pointer becomes the bytes it points at: `StringView(bytes, nbytes)`,
  where `bytes == None` is a null pointer. `Readable` is the safety
  condition of `CStr::from_ptr` for a view the code reads, which is one
  with a non-zero length.
- A Rust `String` is `Text`, a byte sequence that is valid UTF-8.
- The native entry points are methods of `Capi.NativeStorageProperties`, the
  `out` struct they write through `&mut`. Each may succeed or fail
  (`ok :| true`). On success it does what the layer relies on. It records
  each call and its success flag in ghost traces `calls` and `replies`.
- `Encode.Protocol(p, replies)` is the reference definition. Given the
  success flag of the k-th native call (`Reply(replies, k)`), it says
  which calls are made and what the conversion returns.
  `Encode.ConvertPropertiesToNative` is proved to make exactly those calls
  and to return exactly that result for the flags it actually received.

## Model

| member | source | states |
|---|---|---|
| `Ints.AsU8` | src/storage.rs:339 | `as u8` keeps the value exactly when it is below 256, and never exceeds it |
| `Ints.BoolAsU8` | src/storage.rs:344 | `bool as u8` is 0 or 1, and non-zero exactly for true |
| `Utf8.ValidUtf8` | src/storage.rs:83 | the check behind `to_str`; a valid string starts with an ASCII byte or a lead byte 0xC2-0xF4 and ends with an ASCII or continuation byte |
| `Utf8.LeadingScalarLength` | src/storage.rs:83 | the first encoded scalar is 1 to 4 bytes, 1 exactly for ASCII, and its later bytes are continuation bytes |
| `Utf8.AsciiIsValidUtf8` | src/storage.rs:83 | every ASCII byte string passes `to_str` |
| `Utf8.IllFormedExamples` | src/storage.rs:83 | a leading continuation byte, an encoded surrogate and an overlong NUL are rejected; a three-byte scalar is accepted |
| `Capi.NativeStorageProperties.Zeroed` | src/storage.rs:301 | `std::mem::zeroed()`: null views, zero counts, zero pixel scale, no slots, empty traces |
| `Capi.NativeStorageProperties.Init` | src/storage.rs:327-340 | records the call and its flag; on success copies the strings, frame id and pixel scale and allocates exactly `dimensionCount` slots |
| `Capi.NativeStorageProperties.SetEnableMultiscale` | src/storage.rs:343-346 | records the call; on success only the flag changes |
| `Capi.NativeStorageProperties.SetDimension` | src/storage.rs:368-379 | records the call; on success only slot `index` changes, to the given dimension |
| `Bridge.DimensionTypeToNative` | src/storage.rs:29-34 | the foreign value is one of the four enum values, and is Space's exactly for Space |
| `Bridge.DimensionTypeFromNative` | src/storage.rs:29-34 | succeeds exactly on the four foreign values, inverts `DimensionTypeToNative`, and otherwise reports the value |
| `Bridge.DimensionTypeBijection` | src/storage.rs:29-34 | `from(to(k)) == k`, and `to` is injective |
| `Bridge.BeforeNul` | src/storage.rs:82 | the bytes `CStr::from_ptr` reads: a NUL-free prefix, followed by a NUL when shorter |
| `Bridge.BeforeNulOfTerminated` | src/storage.rs:309 | a NUL-free text followed by its NUL reads back as itself |
| `Bridge.DecodeString` | src/storage.rs:78-86 | length 0 gives `None`; otherwise exactly `BeforeNul` of the memory, the bytes before the first NUL, which the NUL follows in memory; it fails exactly when they are not UTF-8 |
| `Bridge.DecodeStringIgnoresLength` | src/storage.rs:143-160 | two non-zero lengths over the same memory decode alike |
| `Bridge.StringViewOf` | src/storage.rs:308-312 | `None` is a null pointer with length 0; `Some(s)` is `s` plus NUL with length `|s|+1` |
| `Bridge.EncodeString` | src/storage.rs:303-307 | `CString::new` fails exactly on a NUL inside the text; otherwise the view of `StringViewOf` |
| `Bridge.StringRoundTrip` | src/storage.rs:303-324 | whatever encodes is readable and decodes back to itself |
| `Bridge.AbsentIsNotEmpty` | src/storage.rs:308-312 | `None` and `Some("")` encode differently (length 0 and 1) and each decodes back to itself |
| `Bridge.BoolFromNative` | src/storage.rs:182 | a native byte reads as true exactly when it is the byte `true as u8` gives |
| `Bridge.BoolConvention` | src/storage.rs:182 | `== 1` inverts `as u8`; 0, 2 and 255 read as false; a byte survives decode-then-encode exactly when it is 0 or 1 |
| `Capabilities.CapabilitiesFromNative` | src/storage.rs:271-281 | always succeeds, and each flag is true exactly when its byte is 1 |
| `Capabilities.CapabilitiesToNative` | src/storage.rs:423-433 | always succeeds with 0/1 bytes that decode back to the input |
| `Capabilities.MetadataRoundTrip` | src/storage.rs:276-278 | a native record survives decode-then-encode exactly when every byte is 0 or 1 |
| `Capabilities.DefaultCapabilitiesAreZero` | src/storage.rs:261-269 | the default capabilities and the zero native record map to each other |
| `Decode.DimensionFromNative` | src/storage.rs:74-96 | succeeds exactly when the name decodes and the kind is known; copies the sizes verbatim; a name error comes before a kind error |
| `Decode.DimensionsFromNative` | src/storage.rs:162-173 | succeeds exactly when every element does, keeping length and order; otherwise fails with the first failing element's error |
| `Decode.PropertiesFromNative` | src/storage.rs:139-185 | fails exactly when a string or an element fails; a string failure is `InvalidUtf8`, an element failure panics with the first failing element's error; copies frame id and pixel scale; multiscale is `== 1` |
| `Decode.DimensionsAllDecoded` | src/storage.rs:163-174 | element-wise success yields exactly the decoded sequence |
| `Decode.DimensionsFirstFailure` | src/storage.rs:163-173 | the first failing element decides the error |
| `Decode.ConvertPropertiesFromNative` | src/storage.rs:142-184 | the decoding loop with `push` returns exactly `PropertiesFromNative` |
| `Decode.DimensionIgnoresNameLength` | src/storage.rs:78 | a dimension name's length is only tested against 0 |
| `Encode.NativeDimensionOf` | src/storage.rs:368-378 | the slot written for a dimension: its encoded name, a kind that decodes to its kind, its sizes |
| `Encode.NativeDimensionsOf` | src/storage.rs:350-382 | one slot per dimension, in order |
| `Encode.SetDimensions` | src/storage.rs:350-382 | the dimension loop makes at most one call per dimension |
| `Encode.SetDimensionsInOrder` | src/storage.rs:350-382 | calls go to indices 0, 1, ... for NUL-free names, and every call but the last succeeded |
| `Encode.SetDimensionsOutcome` | src/storage.rs:357-381 | the loop completes exactly when every name is NUL-free and every call succeeds; otherwise the last call failed, or a NUL ended it after successes |
| `Encode.SetDimensionsReadsOwnReplies` | src/storage.rs:368-381 | the loop depends only on the replies to the calls it can make |
| `Encode.SetDimensionsStopsAtFailure` | src/storage.rs:380 | after the first failure nothing more happens |
| `Encode.ExpectedNative` | src/storage.rs:384 | the returned struct has one slot per dimension |
| `Encode.Protocol` | src/storage.rs:297-387 | the reference conversion: at most `2 + n` calls; no call only on an `InteriorNul` error; an `Ok` result is always the expected native struct, and only for fewer than 256 dimensions |
| `Encode.SetEachDimension` | src/storage.rs:350-382 | the loop on the native struct makes the calls of `SetDimensions` for the replies it got, returns its failure, and on completion every slot holds its dimension and nothing else changed |
| `Encode.ConvertPropertiesToNative` | src/storage.rs:297-387 | run on a zeroed native struct, it makes exactly the calls of `Protocol` and returns exactly its result |
| `RoundTrip.DimensionRoundTrip` | src/storage.rs:74-96 | a dimension with a NUL-free name reads back from its slot as itself |
| `RoundTrip.PropertiesRoundTrip` | src/storage.rs:139-185 | the struct a successful conversion builds is readable and decodes back to the input |
| `RoundTrip.ProtocolOutcome` | src/storage.rs:327-385 | the conversion completes exactly when no text holds a NUL and all `2 + n` calls succeed, and then made exactly those calls; it is `Ok` with the expected struct exactly when it completes with fewer than 256 dimensions, and `SlotOverrun` when it completes with more |
| `RoundTrip.ProtocolStringsFirst` | src/storage.rs:303-324 | no native call is made exactly when the filename or the metadata holds a NUL, and the error is then `InteriorNul` |
| `RoundTrip.ProtocolCalls` | src/storage.rs:327-382 | `init` comes first with count `len as u8`, then `set_enable_multiscale` exactly when `init` succeeded, then `set_dimension` at indices 0, 1, ... in order; every call but the last succeeded |
| `RoundTrip.ProtocolErrors` | src/storage.rs:341-380 | init failure and multiscale failure each happen exactly on their reply; a dimension failure is the last call's; a NUL in a name comes after only successful calls; `SlotOverrun` only after all `2 + n` calls with 256 or more dimensions |
| `RoundTrip.DeclaredCount` | src/storage.rs:339 | the declared count is exact exactly below 256 dimensions, and then bounds every `set_dimension` index |
| `RoundTrip.IndexPastDeclaredCount` | src/storage.rs:339-371 | with 256 or more dimensions, a conversion that makes all `2 + n` calls calls `set_dimension` at an index not below the declared count |
| `RoundTrip.CountWrapsAt256` | src/storage.rs:371 | with 256 dimensions `init` declares 0 slots, `set_dimension(0, ..)` still follows, and the result is `SlotOverrun` |
| `RoundTrip.ConversionRoundTrip` | src/storage.rs:297-387 | an `Ok` result comes from fewer than 256 dimensions, is readable and reads back as its input |
| `RoundTrip.DefaultKindIsZeroed` | src/storage.rs:23-27 | the default kind Space is the foreign value 0 that zeroed memory holds, in both directions |
| `RoundTrip.DefaultDimensionIsZeroed` | src/storage.rs:60-70 | the default dimension and the zeroed native dimension are each other's image |
| `RoundTrip.DefaultsAcrossTheBoundary` | src/storage.rs:126-137 | the zeroed native struct reads as the default except for its 0 pixel scale; the default is sent with count 0, null views, pixel scale 1 and flag 0 |

## Left out

- pyo3: `Py<StorageDimension>` handles, `Python::with_gil`, and the
  `extract` at :351-354, whose failure is not modelled. Dimensions are a
  plain sequence.
- serde derives and `impl_plain_old_dict!`: these are macros not shown
  here.
- Memory safety, raw pointers and the lifetimes of the `CString` buffers:
  views hold the bytes themselves. `Readable` and `WellFormed` state the
  `CStr::from_ptr` obligation instead.
- The internals of the native library: each entry point is specified only
  by what the layer relies on, and may fail.
- `Display for capi::String` (:238-243): formatting, with lossy decoding.
- The `Default`s of `capi::String`, `capi::PixelScale` and the
  `capi::ImageShape` structs (:187-236); `ZEROED` and `NULL_VIEW` stand
  for the zeroed values the conversions use. The `is_ref` field of
  `capi::String` is not modelled.
- `f64`: the pixel scale is only copied, so it is kept as its 64-bit
  pattern. The host default 1.0 is `0x3FF0000000000000`.
- The numeric values of the foreign `DimensionType` are assumed to be 0 to
  3 in declaration order. The header that defines them is not part of this
  model.
- The `i.try_into().unwrap()` at :371 panics for an index that the native
  index type cannot hold. That type's header is not part of this model.
  `Protocol` follows the code only for indices that type holds, and does
  not model the panic beyond them. The model assumes that type is
  unsigned or wider than 8 bits: every index below 256 then fits, so
  `Encode.ConvertPropertiesToNative` is not affected. A signed 8-bit index
  type would panic from index 128 on, which the model does not capture.
- `Encode.ConvertPropertiesToNative`: requires fewer than 256 dimensions.
  This reflects a defect of the source: `len() as u8` (:339) silently
  truncates, so with 256 or more dimensions `init` allocates `len mod 256`
  slots and `set_dimension` is then called past them (:371), which has no
  defined meaning in this model. `Protocol` models the native calls for
  every length, and the returned struct only for fewer than 256
  dimensions. A run that completes with more returns the marker
  `SlotOverrun`, since the code's `Ok(out)` (:384) is then undefined.
  `RoundTrip.IndexPastDeclaredCount` proves the overrun for every such
  length, and `RoundTrip.CountWrapsAt256` exhibits it at 256.
- Where the code differs from what its names or messages suggest, the
  model follows the code:
  - the `set_dimension` error message carries no index (:380);
  - capabilities also convert to native (:423-433);
  - a NUL in a dimension name is reported only after `init`,
    `set_enable_multiscale` and the earlier `set_dimension` calls were made;
  - a failing native element panics (`unwrap`, :170) rather than returning
    an error, which is `Panicked(cause)` here.
