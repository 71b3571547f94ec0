/**
  Value to native: `TryFrom<&StorageProperties> for capi::StorageProperties`.
  The conversion encodes the two strings, then calls `init`, then
  `set_enable_multiscale`, then `set_dimension` once per dimension in
  order, and stops at the first failure.

  `Protocol` is the reference definition: for the success flags the native
  side returns (the k-th call is answered by `Reply(replies, k)`), it gives
  the calls made and the result. `ConvertPropertiesToNative` runs the
  conversion against a native struct and is proved to follow it.
 */
module Encode {
  import opened Ints
  import opened Wrappers
  import opened Capi
  import opened Values
  import opened Bridge

  /** The success flag of the k-th native call; a call beyond the recorded replies reads as a failure. */
  function Reply(replies: seq<bool>, k: nat): bool
  {
    k < |replies| && replies[k]
  }

  /** The native slot a host dimension is written to. */
  function NativeDimensionOf(d: StorageDimension): (n: NativeDimension)
    ensures n.name == StringViewOf(d.name)
    ensures DimensionTypeFromNative(n.kind) == Ok(d.kind)
    ensures (n.arraySizePx, n.chunkSizePx, n.shardSizeChunks) == (d.arraySizePx, d.chunkSizePx, d.shardSizeChunks)
  {
    DimensionTypeBijection(d.kind, d.kind);
    NativeDimension(StringViewOf(d.name), DimensionTypeToNative(d.kind),
                    d.arraySizePx, d.chunkSizePx, d.shardSizeChunks)
  }

  /** The native slots after every dimension of `dims` has been written. */
  function NativeDimensionsOf(dims: seq<StorageDimension>): (slots: seq<NativeDimension>)
    ensures |slots| == |dims|
    ensures forall k :: 0 <= k < |dims| ==> slots[k] == NativeDimensionOf(dims[k])
  {
    seq(|dims|, k requires 0 <= k < |dims| => NativeDimensionOf(dims[k]))
  }

  /** The `set_dimension` call for dimension `d` at index `i`. */
  function SetDimensionCallOf(i: nat, d: StorageDimension): NativeCall
  {
    var n := NativeDimensionOf(d);
    SetDimensionCall(i, n.name, n.kind, n.arraySizePx, n.chunkSizePx, n.shardSizeChunks)
  }

  predicate NameIsNulFree(d: StorageDimension)
  {
    d.name.None? || NUL !in d.name.value
  }

  /** What the dimension loop did: the calls it made and, if it stopped early, why. */
  datatype DimensionRun = DimensionRun(calls: seq<NativeCall>, failure: Option<Error>)

  /**
    The first `n` turns of the dimension loop: dimension i's name is
    encoded (a NUL ends the loop with no call) and `set_dimension(i, ...)`
    is called; it is answered by `Reply(replies, i)`, and a failure ends
    the loop.
   */
  function SetDimensions(dims: seq<StorageDimension>, n: nat, replies: seq<bool>): (run: DimensionRun)
    requires n <= |dims|
    ensures |run.calls| <= n
    decreases n
  {
    if n == 0 then DimensionRun([], None)
    else
      var prev := SetDimensions(dims, n - 1, replies);
      if prev.failure.Some? then prev
      else
        match EncodeString(dims[n - 1].name)
        case Err(e) => DimensionRun(prev.calls, Some(e))
        case Ok(_) =>
          DimensionRun(prev.calls + [SetDimensionCallOf(n - 1, dims[n - 1])],
                       if Reply(replies, n - 1) then None else Some(SetDimensionFailed))
  }

  /**
    The dimension loop calls `set_dimension` for indices 0, 1, ... in
    order, each for a dimension whose name is free of NULs, and every call
    but the last succeeded.
   */
  lemma {:induction false} SetDimensionsInOrder(dims: seq<StorageDimension>, n: nat, replies: seq<bool>)
    requires n <= |dims|
    ensures var run := SetDimensions(dims, n, replies);
      && (forall k :: 0 <= k < |run.calls| ==> run.calls[k] == SetDimensionCallOf(k, dims[k]))
      && (forall k :: 0 <= k < |run.calls| ==> NameIsNulFree(dims[k]))
      && (forall k :: 0 <= k < |run.calls| - 1 ==> Reply(replies, k))
    decreases n
  {
    if n > 0 {
      SetDimensionsInOrder(dims, n - 1, replies);
      SetDimensionsOutcome(dims, n - 1, replies);
    }
  }

  /**
    The dimension loop completes exactly when every name is free of NULs
    and every call succeeds; when it stops early, either its last call
    failed, or every call succeeded and the next name holds a NUL.
   */
  lemma {:induction false} SetDimensionsOutcome(dims: seq<StorageDimension>, n: nat, replies: seq<bool>)
    requires n <= |dims|
    ensures var run := SetDimensions(dims, n, replies);
      && (run.failure.None? <==>
            |run.calls| == n && forall k :: 0 <= k < n ==> NameIsNulFree(dims[k]) && Reply(replies, k))
      && (run.failure == Some(SetDimensionFailed) ==> |run.calls| > 0 && !Reply(replies, |run.calls| - 1))
      && (run.failure.Some? && run.failure != Some(SetDimensionFailed) ==>
            && run.failure == Some(InteriorNul)
            && |run.calls| < n && !NameIsNulFree(dims[|run.calls|])
            && forall k :: 0 <= k < |run.calls| ==> Reply(replies, k))
    decreases n
  {
    if n > 0 {
      SetDimensionsOutcome(dims, n - 1, replies);
    }
  }

  /** The dimension loop reads only the replies to the calls it can make. */
  lemma {:induction false} SetDimensionsReadsOwnReplies(dims: seq<StorageDimension>, n: nat, replies: seq<bool>, other: seq<bool>)
    requires n <= |dims|
    requires forall k :: 0 <= k < n ==> Reply(replies, k) == Reply(other, k)
    ensures SetDimensions(dims, n, replies) == SetDimensions(dims, n, other)
    decreases n
  {
    if n > 0 {
      SetDimensionsReadsOwnReplies(dims, n - 1, replies, other);
    }
  }

  /** Once the loop has failed, further turns change nothing. */
  lemma {:induction false} SetDimensionsStopsAtFailure(dims: seq<StorageDimension>, j: nat, n: nat, replies: seq<bool>)
    requires j <= n <= |dims|
    requires SetDimensions(dims, j, replies).failure.Some?
    ensures SetDimensions(dims, n, replies) == SetDimensions(dims, j, replies)
    decreases n - j
  {
    if j < n {
      SetDimensionsStopsAtFailure(dims, j, n - 1, replies);
    }
  }

  /** The native struct a successful conversion returns. */
  function ExpectedNative(p: StorageProperties): (v: NativeProperties)
    ensures |v.acquisitionDimensions| == |p.acquisitionDimensions|
  {
    NativeProperties(
      StringViewOf(p.filename), p.firstFrameId, StringViewOf(p.externalMetadataJson),
      PixelScale(p.pixelScaleUm.0, p.pixelScaleUm.1),
      NativeDimensionsOf(p.acquisitionDimensions),
      BoolAsU8(p.enableMultiscale))
  }

  /** The `init` call for `p` with the given encoded strings. */
  function InitCallOf(p: StorageProperties, filename: StringView, externalMetadataJson: StringView): NativeCall
  {
    InitCall(p.firstFrameId, filename, externalMetadataJson,
             PixelScale(p.pixelScaleUm.0, p.pixelScaleUm.1), AsU8(|p.acquisitionDimensions|))
  }

  /** What a conversion did: the native calls in order, and what it returned. */
  datatype Run = Run(calls: seq<NativeCall>, result: Result<NativeProperties, Error>)

  /**
    What the conversion returns once the dimension loop has run: its
    failure, or the expected struct. A completed loop over 256 or more
    dimensions has called `set_dimension` past the slots `init` allocated,
    and its result is not defined.
   */
  function DimensionLoopResult(p: StorageProperties, dims: DimensionRun): Result<NativeProperties, Error>
  {
    if dims.failure.Some? then Err(dims.failure.value)
    else if |p.acquisitionDimensions| < 0x100 then Ok(ExpectedNative(p))
    else Err(SlotOverrun)
  }

  /**
    The reference definition of the conversion protocol. It follows the
    native calls for every number of dimensions, and the returned struct
    for fewer than 256.
   */
  function Protocol(p: StorageProperties, replies: seq<bool>): (run: Run)
    ensures |run.calls| <= 2 + |p.acquisitionDimensions|
    ensures run.calls == [] ==> run.result == Err(InteriorNul)
    ensures run.result.Ok? ==> run.result.value == ExpectedNative(p) && |p.acquisitionDimensions| < 0x100
  {
    match EncodeString(p.filename)
    case Err(e) => Run([], Err(e))
    case Ok(filename) =>
      match EncodeString(p.externalMetadataJson)
      case Err(e) => Run([], Err(e))
      case Ok(externalMetadataJson) =>
        var init := InitCallOf(p, filename, externalMetadataJson);
        if !Reply(replies, 0) then Run([init], Err(InitFailed))
        else
          var multiscale := SetEnableMultiscaleCall(BoolAsU8(p.enableMultiscale));
          if !Reply(replies, 1) then Run([init, multiscale], Err(EnableMultiscaleFailed))
          else
            var dims := SetDimensions(p.acquisitionDimensions, |p.acquisitionDimensions|, replies[2..]);
            Run([init, multiscale] + dims.calls, DimensionLoopResult(p, dims))
  }

  /**
    The dimension loop of the conversion: for each dimension in order,
    encode its name and call `set_dimension` at its index, stopping at the
    first failure. It follows `SetDimensions` for the replies it received,
    and when it completes every slot holds its dimension.
   */
  method SetEachDimension(native: NativeStorageProperties, dims: seq<StorageDimension>)
    returns (failure: Option<Error>, ghost replies: seq<bool>)
    requires |native.acquisitionDimensions| == |dims|
    modifies native
    ensures native.replies == old(native.replies) + replies
    ensures native.calls == old(native.calls) + SetDimensions(dims, |dims|, replies).calls
    ensures |replies| == |SetDimensions(dims, |dims|, replies).calls|
    ensures failure == SetDimensions(dims, |dims|, replies).failure
    ensures failure.None? ==> native.Value() == old(native.Value()).(acquisitionDimensions := NativeDimensionsOf(dims))
  {
    replies := [];
    failure := None;
    var i := 0;
    while i < |dims| && failure.None?
      invariant 0 <= i <= |dims|
      invariant native.replies == old(native.replies) + replies
      invariant native.calls == old(native.calls) + SetDimensions(dims, i, replies).calls
      invariant |replies| == |SetDimensions(dims, i, replies).calls|
      invariant failure == SetDimensions(dims, i, replies).failure
      invariant failure.None? ==>
        && |replies| == i
        && native.Value() == old(native.Value()).(acquisitionDimensions := native.acquisitionDimensions)
        && |native.acquisitionDimensions| == |dims|
        && forall k :: 0 <= k < i ==> native.acquisitionDimensions[k] == NativeDimensionOf(dims[k])
    {
      var name := EncodeString(dims[i].name);
      if name.Err? {
        failure := Some(name.error);
      } else {
        var n := NativeDimensionOf(dims[i]);
        var ok := native.SetDimension(i, name.value, n.kind, n.arraySizePx, n.chunkSizePx, n.shardSizeChunks);
        SetDimensionsReadsOwnReplies(dims, i, replies, replies + [ok]);
        replies := replies + [ok];
        if !ok {
          failure := Some(SetDimensionFailed);
        }
      }
      i := i + 1;
    }
    if failure.Some? {
      SetDimensionsStopsAtFailure(dims, i, |dims|, replies);
    } else {
      assert native.acquisitionDimensions == NativeDimensionsOf(dims);
    }
  }

  /** The protocol once both strings are encoded and `init` and `set_enable_multiscale` have succeeded. */
  lemma ProtocolAfterSetup(p: StorageProperties, replies: seq<bool>)
    requires EncodeString(p.filename).Ok? && EncodeString(p.externalMetadataJson).Ok?
    requires |replies| >= 2 && replies[0] && replies[1]
    ensures var dims := SetDimensions(p.acquisitionDimensions, |p.acquisitionDimensions|, replies[2..]);
      Protocol(p, replies) ==
        Run([InitCallOf(p, EncodeString(p.filename).value, EncodeString(p.externalMetadataJson).value),
             SetEnableMultiscaleCall(BoolAsU8(p.enableMultiscale))] + dims.calls,
            DimensionLoopResult(p, dims))
  {
  }

  /**
    The conversion as the source runs it, against a freshly zeroed native
    struct. Dimension slots must stay within the count `init` declares,
    which holds for fewer than 256 dimensions.
   */
  method ConvertPropertiesToNative(p: StorageProperties) returns (r: Result<NativeProperties, Error>, ghost out: NativeStorageProperties)
    requires |p.acquisitionDimensions| < 0x100
    ensures fresh(out)
    ensures |out.replies| == |out.calls|
    ensures out.calls == Protocol(p, out.replies).calls
    ensures r == Protocol(p, out.replies).result
  {
    var native := new NativeStorageProperties.Zeroed();
    out := native;
    var filename := EncodeString(p.filename);
    if filename.Err? {
      return Err(filename.error), out;
    }
    var externalMetadataJson := EncodeString(p.externalMetadataJson);
    if externalMetadataJson.Err? {
      return Err(externalMetadataJson.error), out;
    }
    var dims := p.acquisitionDimensions;
    var ok := native.Init(p.firstFrameId, filename.value, externalMetadataJson.value,
                          PixelScale(p.pixelScaleUm.0, p.pixelScaleUm.1), AsU8(|dims|));
    if !ok {
      return Err(InitFailed), out;
    }
    ok := native.SetEnableMultiscale(BoolAsU8(p.enableMultiscale));
    if !ok {
      return Err(EnableMultiscaleFailed), out;
    }
    var failure;
    ghost var replies;
    failure, replies := SetEachDimension(native, dims);
    assert native.replies == [true, true] + replies;
    assert native.replies[2..] == replies;
    ProtocolAfterSetup(p, native.replies);
    if failure.Some? {
      return Err(failure.value), out;
    }
    r := Ok(native.Value());
  }
}
