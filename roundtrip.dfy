/**
  Properties that relate the two directions of the conversion and the
  native protocol: encoding then decoding gives the host value back, the
  protocol succeeds exactly when no text holds a NUL and every native call
  succeeds, it stops at the first failure, and the dimension count it
  declares is truncated to 8 bits.
 */
module RoundTrip {
  import opened Ints
  import opened Wrappers
  import opened Capi
  import opened Values
  import opened Bridge
  import opened Decode
  import opened Encode

  /** Every text of `p` can be turned into a C string. */
  predicate NoInteriorNul(p: StorageProperties)
  {
    && (p.filename.None? || NUL !in p.filename.value)
    && (p.externalMetadataJson.None? || NUL !in p.externalMetadataJson.value)
    && forall k :: 0 <= k < |p.acquisitionDimensions| ==> NameIsNulFree(p.acquisitionDimensions[k])
  }

  /** A dimension written to a native slot reads back as itself. */
  lemma DimensionRoundTrip(d: StorageDimension)
    requires NameIsNulFree(d)
    ensures Readable(NativeDimensionOf(d).name)
    ensures DimensionFromNative(NativeDimensionOf(d)) == Ok(d)
  {
    StringRoundTrip(d.name);
    DimensionTypeBijection(d.kind, d.kind);
  }

  /** The native struct of a successful conversion is safe to read and reads back as the host value. */
  lemma PropertiesRoundTrip(p: StorageProperties)
    requires NoInteriorNul(p)
    ensures WellFormed(ExpectedNative(p))
    ensures PropertiesFromNative(ExpectedNative(p)) == Ok(p)
  {
    var v := ExpectedNative(p);
    var dims := p.acquisitionDimensions;
    StringRoundTrip(p.filename);
    StringRoundTrip(p.externalMetadataJson);
    forall k | 0 <= k < |dims|
      ensures Readable(v.acquisitionDimensions[k].name)
      ensures DimensionFromNative(v.acquisitionDimensions[k]) == Ok(dims[k])
    {
      DimensionRoundTrip(dims[k]);
    }
    DimensionsAllDecoded(v.acquisitionDimensions, dims);
    BoolConvention(p.enableMultiscale, 0);
  }

  /** Past its first two calls, the protocol answers dimension call k with reply k + 2. */
  lemma ShiftedReplies(replies: seq<bool>, n: nat)
    requires |replies| >= 2
    ensures forall k :: 0 <= k < n ==> Reply(replies[2..], k) == Reply(replies, k + 2)
  {
  }

  /**
    The conversion runs to completion exactly when no text holds a NUL and
    each of the `2 + |dims|` native calls succeeds; it then made exactly
    those calls. It then succeeds with the expected native struct exactly
    when there are fewer than 256 dimensions, and otherwise has overrun the
    slots `init` allocated.
   */
  lemma ProtocolOutcome(p: StorageProperties, replies: seq<bool>)
    ensures var run := Protocol(p, replies);
      run.result.Ok? || run.result == Err(SlotOverrun) <==>
        NoInteriorNul(p) && forall k :: 0 <= k < 2 + |p.acquisitionDimensions| ==> Reply(replies, k)
    ensures var run := Protocol(p, replies);
      run.result.Ok? || run.result == Err(SlotOverrun) ==> |run.calls| == 2 + |p.acquisitionDimensions|
    ensures var run := Protocol(p, replies);
      run.result.Ok? <==>
        && NoInteriorNul(p) && |p.acquisitionDimensions| < 0x100
        && forall k :: 0 <= k < 2 + |p.acquisitionDimensions| ==> Reply(replies, k)
    ensures var run := Protocol(p, replies);
      run.result.Ok? ==> run.result.value == ExpectedNative(p)
  {
    var dims := p.acquisitionDimensions;
    if EncodeString(p.filename).Ok? && EncodeString(p.externalMetadataJson).Ok? && Reply(replies, 0) && Reply(replies, 1) {
      SetDimensionsOutcome(dims, |dims|, replies[2..]);
      ShiftedReplies(replies, |dims|);
      if forall k :: 0 <= k < |dims| ==> Reply(replies[2..], k) {
        forall k | 0 <= k < 2 + |dims|
          ensures Reply(replies, k)
        {
          if k >= 2 {
            assert Reply(replies[2..], k - 2);
          }
        }
      }
    } else if !Reply(replies, 0) {
      assert !(forall k :: 0 <= k < 2 + |dims| ==> Reply(replies, k));
    } else if !Reply(replies, 1) {
      assert !(forall k :: 0 <= k < 2 + |dims| ==> Reply(replies, k));
    }
  }

  /** A NUL in the filename or the metadata is reported before any native call. */
  lemma ProtocolStringsFirst(p: StorageProperties, replies: seq<bool>)
    ensures var run := Protocol(p, replies);
      run.calls == [] <==> EncodeString(p.filename).Err? || EncodeString(p.externalMetadataJson).Err?
    ensures var run := Protocol(p, replies);
      run.calls == [] ==> run.result == Err(InteriorNul)
  {
  }

  /**
    Once both strings are encoded the protocol calls `init` with the
    truncated dimension count, then `set_enable_multiscale` only if `init`
    succeeded, then `set_dimension` for indices 0, 1, ... in order, each for
    a name free of NULs; every call but the last succeeded.
   */
  lemma ProtocolCalls(p: StorageProperties, replies: seq<bool>)
    requires EncodeString(p.filename).Ok? && EncodeString(p.externalMetadataJson).Ok?
    ensures var run := Protocol(p, replies); var dims := p.acquisitionDimensions;
      && 1 <= |run.calls| <= 2 + |dims|
      && run.calls[0] == InitCallOf(p, StringViewOf(p.filename), StringViewOf(p.externalMetadataJson))
      && run.calls[0].dimensionCount == AsU8(|dims|)
      && (|run.calls| >= 2 <==> Reply(replies, 0))
      && (|run.calls| >= 2 ==> run.calls[1] == SetEnableMultiscaleCall(BoolAsU8(p.enableMultiscale)))
      && (forall k :: 2 <= k < |run.calls| ==>
            run.calls[k] == SetDimensionCallOf(k - 2, dims[k - 2]) && NameIsNulFree(dims[k - 2]))
      && (forall k :: 0 <= k < |run.calls| - 1 ==> Reply(replies, k))
  {
    var dims := p.acquisitionDimensions;
    if Reply(replies, 0) && Reply(replies, 1) {
      var rest := replies[2..];
      var run := SetDimensions(dims, |dims|, rest);
      SetDimensionsInOrder(dims, |dims|, rest);
      ShiftedReplies(replies, |dims|);
      var calls := Protocol(p, replies).calls;
      assert calls == [calls[0], calls[1]] + run.calls;
      forall k | 2 <= k < |calls|
        ensures calls[k] == SetDimensionCallOf(k - 2, dims[k - 2]) && NameIsNulFree(dims[k - 2])
      {
        assert calls[k] == run.calls[k - 2];
      }
      forall k | 0 <= k < |calls| - 1
        ensures Reply(replies, k)
      {
        if k >= 2 {
          assert Reply(rest, k - 2);
        }
      }
    }
  }

  /**
    Each error names the call that ended the conversion: `init` or
    `set_enable_multiscale` failing, the last `set_dimension` failing, or a
    NUL in the name of the dimension after the last call, which all
    succeeded.
   */
  lemma ProtocolErrors(p: StorageProperties, replies: seq<bool>)
    requires EncodeString(p.filename).Ok? && EncodeString(p.externalMetadataJson).Ok?
    ensures var run := Protocol(p, replies);
      run.result == Err(InitFailed) <==> !Reply(replies, 0)
    ensures var run := Protocol(p, replies);
      run.result == Err(EnableMultiscaleFailed) <==> Reply(replies, 0) && !Reply(replies, 1)
    ensures var run := Protocol(p, replies);
      run.result == Err(SetDimensionFailed) ==> |run.calls| > 2 && !Reply(replies, |run.calls| - 1)
    ensures var run := Protocol(p, replies); var dims := p.acquisitionDimensions;
      run.result == Err(InteriorNul) ==>
        && 2 <= |run.calls| < 2 + |dims|
        && !NameIsNulFree(dims[|run.calls| - 2])
        && forall k :: 0 <= k < |run.calls| ==> Reply(replies, k)
    ensures var run := Protocol(p, replies);
      run.result == Err(SlotOverrun) ==>
        |p.acquisitionDimensions| >= 0x100 && |run.calls| == 2 + |p.acquisitionDimensions|
    ensures var run := Protocol(p, replies);
      run.result.Err? ==>
        run.result.error in {InitFailed, EnableMultiscaleFailed, SetDimensionFailed, InteriorNul, SlotOverrun}
  {
    var dims := p.acquisitionDimensions;
    if Reply(replies, 0) && Reply(replies, 1) {
      var rest := replies[2..];
      SetDimensionsOutcome(dims, |dims|, rest);
      ShiftedReplies(replies, |dims|);
      var run := SetDimensions(dims, |dims|, rest);
      if run.failure == Some(InteriorNul) {
        forall k | 0 <= k < 2 + |run.calls|
          ensures Reply(replies, k)
        {
          if k >= 2 {
            assert Reply(rest, k - 2);
          }
        }
      }
    }
  }

  /**
    `init` is told the number of dimensions modulo 256. The count is exact,
    and every `set_dimension` index lies below it, exactly when there are
    fewer than 256 dimensions.
   */
  lemma DeclaredCount(p: StorageProperties, replies: seq<bool>)
    requires EncodeString(p.filename).Ok? && EncodeString(p.externalMetadataJson).Ok?
    ensures var run := Protocol(p, replies);
      run.calls[0].dimensionCount as int == |p.acquisitionDimensions| <==> |p.acquisitionDimensions| < 0x100
    ensures var run := Protocol(p, replies);
      |p.acquisitionDimensions| < 0x100 ==>
        forall k :: 2 <= k < |run.calls| ==> run.calls[k].SetDimensionCall? && run.calls[k].index < run.calls[0].dimensionCount as int
  {
    ProtocolCalls(p, replies);
  }

  /** 256 unnamed dimensions: `init` declares none, yet `set_dimension(0, ...)` follows. */
  lemma CountWrapsAt256()
    ensures var p := DEFAULT_PROPERTIES.(acquisitionDimensions := seq(0x100, _ => DEFAULT_DIMENSION));
      var run := Protocol(p, seq(0x102, _ => true));
      && run.calls[0].dimensionCount == 0
      && |run.calls| == 0x102
      && run.calls[2].SetDimensionCall? && run.calls[2].index == 0
      && run.result == Err(SlotOverrun)
  {
    var p := DEFAULT_PROPERTIES.(acquisitionDimensions := seq(0x100, _ => DEFAULT_DIMENSION));
    var replies := seq(0x102, _ => true);
    ProtocolOutcome(p, replies);
    ProtocolCalls(p, replies);
    assert NoInteriorNul(p);
  }

  /**
    The converse of `DeclaredCount`: with 256 or more dimensions, a
    conversion that runs to completion calls `set_dimension` at an index
    that is not below the count `init` was given.
   */
  lemma IndexPastDeclaredCount(p: StorageProperties, replies: seq<bool>)
    requires |p.acquisitionDimensions| >= 0x100
    requires |Protocol(p, replies).calls| == 2 + |p.acquisitionDimensions|
    ensures var run := Protocol(p, replies);
      exists k :: 2 <= k < |run.calls| && run.calls[k].SetDimensionCall? &&
                  run.calls[k].index >= run.calls[0].dimensionCount as int
  {
    var dims := p.acquisitionDimensions;
    ProtocolStringsFirst(p, replies);
    ProtocolCalls(p, replies);
    var run := Protocol(p, replies);
    var c := AsU8(|dims|) as int;
    assert run.calls[c + 2] == SetDimensionCallOf(c, dims[c]);
  }

  /** A successful conversion returns a struct that is safe to read and reads back as its input. */
  lemma ConversionRoundTrip(p: StorageProperties, replies: seq<bool>)
    requires Protocol(p, replies).result.Ok?
    ensures |p.acquisitionDimensions| < 0x100
    ensures WellFormed(Protocol(p, replies).result.value)
    ensures PropertiesFromNative(Protocol(p, replies).result.value) == Ok(p)
  {
    ProtocolOutcome(p, replies);
    PropertiesRoundTrip(p);
  }

  /** The default host dimension and the zeroed native dimension are each other's image. */
  lemma DefaultDimensionIsZeroed()
    ensures NativeDimensionOf(DEFAULT_DIMENSION) == ZERO_DIMENSION
    ensures DimensionFromNative(ZERO_DIMENSION) == Ok(DEFAULT_DIMENSION)
  {
    DimensionRoundTrip(DEFAULT_DIMENSION);
  }

  /** The default kind, Space, is the foreign value 0 that zeroed memory holds. */
  lemma DefaultKindIsZeroed()
    ensures DimensionTypeToNative(DEFAULT_DIMENSION_TYPE) == ZERO_DIMENSION.kind
    ensures DimensionTypeFromNative(ZERO_DIMENSION.kind) == Ok(DEFAULT_DIMENSION_TYPE)
  {
  }

  /**
    The zeroed native struct reads as the host default except for the pixel
    scale, which is 0 natively and 1 on the host; the host default is sent
    as the zeroed struct with a pixel scale of 1.
   */
  lemma DefaultsAcrossTheBoundary()
    ensures PropertiesFromNative(ZEROED) == Ok(DEFAULT_PROPERTIES.(pixelScaleUm := (0, 0)))
    ensures ExpectedNative(DEFAULT_PROPERTIES) == ZEROED.(pixelScaleUm := PixelScale(F64_ONE, F64_ONE))
    ensures Protocol(DEFAULT_PROPERTIES, [true, true]).calls ==
      [InitCall(0, NULL_VIEW, NULL_VIEW, PixelScale(F64_ONE, F64_ONE), 0), SetEnableMultiscaleCall(0)]
    ensures Protocol(DEFAULT_PROPERTIES, [true, true]).result.Ok?
  {
    PropertiesRoundTrip(DEFAULT_PROPERTIES);
    assert NativeDimensionsOf([]) == [];
  }
}
