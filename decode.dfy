/** Native to value: `TryFrom<capi::StorageDimension>` and `TryFrom<capi::StorageProperties>`. */
module Decode {
  import opened Ints
  import opened Wrappers
  import opened Capi
  import opened Values
  import opened Bridge

  /**
    One dimension: the name is decoded first, then the kind; the three
    sizes are copied verbatim. Either failure aborts the dimension.
   */
  function DimensionFromNative(d: NativeDimension): (r: Result<StorageDimension, Error>)
    requires Readable(d.name)
    ensures r.Ok? <==> DecodeString(d.name).Ok? && DimensionTypeFromNative(d.kind).Ok?
    ensures r.Ok? ==>
      && Ok(r.value.name) == DecodeString(d.name)
      && DimensionTypeToNative(r.value.kind) == d.kind
      && r.value.arraySizePx == d.arraySizePx
      && r.value.chunkSizePx == d.chunkSizePx
      && r.value.shardSizeChunks == d.shardSizeChunks
    ensures DecodeString(d.name).Err? ==> r == Err(InvalidUtf8)
    ensures DecodeString(d.name).Ok? && d.kind >= 4 ==> r == Err(UnknownDimensionType(d.kind))
  {
    var name :- DecodeString(d.name);
    var kind :- DimensionTypeFromNative(d.kind);
    Ok(StorageDimension(name, kind, d.arraySizePx, d.chunkSizePx, d.shardSizeChunks))
  }

  predicate NamesReadable(ds: seq<NativeDimension>)
  {
    forall i :: 0 <= i < |ds| ==> Readable(ds[i].name)
  }

  /**
    The dimension array in index order: it succeeds when every element
    does, keeping length and order, and otherwise fails with the error of
    the first element that fails.
   */
  function DimensionsFromNative(ds: seq<NativeDimension>): (r: Result<seq<StorageDimension>, Error>)
    requires NamesReadable(ds)
    ensures r.Ok? <==> forall i :: 0 <= i < |ds| ==> DimensionFromNative(ds[i]).Ok?
    ensures r.Ok? ==> |r.value| == |ds| && forall i :: 0 <= i < |ds| ==> DimensionFromNative(ds[i]) == Ok(r.value[i])
    ensures r.Err? ==> exists i :: 0 <= i < |ds| && DimensionFromNative(ds[i]) == Err(r.error)
                                   && forall j :: 0 <= j < i ==> DimensionFromNative(ds[j]).Ok?
    decreases |ds|
  {
    if ds == [] then Ok([])
    else
      var front := ds[..|ds| - 1];
      assert forall i :: 0 <= i < |front| ==> front[i] == ds[i];
      var init :- DimensionsFromNative(front);
      var last :- DimensionFromNative(ds[|ds| - 1]);
      Ok(init + [last])
  }

  /**
    The whole properties struct: filename, then external metadata (either
    failure is returned as such), then the dimensions, where a failing
    element is unwrapped and so ends the conversion with a panic; the frame
    id and pixel scale are copied and the multiscale flag is `== 1`.
   */
  function PropertiesFromNative(v: NativeProperties): (r: Result<StorageProperties, Error>)
    requires WellFormed(v)
    ensures r.Ok? ==>
      && Ok(r.value.filename) == DecodeString(v.filename)
      && Ok(r.value.externalMetadataJson) == DecodeString(v.externalMetadataJson)
      && r.value.firstFrameId == v.firstFrameId
      && r.value.pixelScaleUm == (v.pixelScaleUm.x, v.pixelScaleUm.y)
      && Ok(r.value.acquisitionDimensions) == DimensionsFromNative(v.acquisitionDimensions)
      && (r.value.enableMultiscale <==> v.enableMultiscale == 1)
    ensures r.Err? <==>
      || DecodeString(v.filename).Err?
      || DecodeString(v.externalMetadataJson).Err?
      || exists i :: 0 <= i < |v.acquisitionDimensions| && DimensionFromNative(v.acquisitionDimensions[i]).Err?
    ensures r.Err? && r.error.Panicked? <==>
      && DecodeString(v.filename).Ok?
      && DecodeString(v.externalMetadataJson).Ok?
      && DimensionsFromNative(v.acquisitionDimensions).Err?
    ensures r.Err? && !r.error.Panicked? ==> r.error == InvalidUtf8
    ensures r.Err? && r.error.Panicked? ==> Err(r.error.cause) == DimensionsFromNative(v.acquisitionDimensions)
  {
    var filename :- DecodeString(v.filename);
    var externalMetadataJson :- DecodeString(v.externalMetadataJson);
    match DimensionsFromNative(v.acquisitionDimensions)
    case Err(e) => Err(Panicked(e))
    case Ok(dims) =>
      Ok(StorageProperties(filename, externalMetadataJson, v.firstFrameId,
                           (v.pixelScaleUm.x, v.pixelScaleUm.y), dims,
                           BoolFromNative(v.enableMultiscale)))
  }

  /** Decoding succeeds with `acc` when every element decodes to the element of `acc` at its index. */
  lemma DimensionsAllDecoded(ds: seq<NativeDimension>, acc: seq<StorageDimension>)
    requires NamesReadable(ds) && |acc| == |ds|
    requires forall k :: 0 <= k < |ds| ==> DimensionFromNative(ds[k]) == Ok(acc[k])
    ensures DimensionsFromNative(ds) == Ok(acc)
  {
    var r := DimensionsFromNative(ds);
    assert r.value == acc;
  }

  /** Decoding fails with the error of the first element that fails. */
  lemma DimensionsFirstFailure(ds: seq<NativeDimension>, i: nat)
    requires NamesReadable(ds) && i < |ds|
    requires forall k :: 0 <= k < i ==> DimensionFromNative(ds[k]).Ok?
    requires DimensionFromNative(ds[i]).Err?
    ensures DimensionsFromNative(ds) == Err(DimensionFromNative(ds[i]).error)
  {
    var r := DimensionsFromNative(ds);
    var j :| 0 <= j < |ds| && DimensionFromNative(ds[j]) == Err(r.error)
             && forall k :: 0 <= k < j ==> DimensionFromNative(ds[k]).Ok?;
    assert j == i;
  }

  /**
    The conversion as the source runs it: a loop that pushes one decoded
    dimension per native element; a failing element is unwrapped, which
    panics.
   */
  method ConvertPropertiesFromNative(v: NativeProperties) returns (r: Result<StorageProperties, Error>)
    requires WellFormed(v)
    ensures r == PropertiesFromNative(v)
  {
    var filename :- DecodeString(v.filename);
    var externalMetadataJson :- DecodeString(v.externalMetadataJson);
    var ds := v.acquisitionDimensions;
    var acquisitionDimensions: seq<StorageDimension> := [];
    var i := 0;
    while i < |ds|
      invariant 0 <= i <= |ds| && |acquisitionDimensions| == i
      invariant forall k :: 0 <= k < i ==> DimensionFromNative(ds[k]) == Ok(acquisitionDimensions[k])
    {
      var d := DimensionFromNative(ds[i]);
      if d.Err? {
        DimensionsFirstFailure(ds, i);
        return Err(Panicked(d.error));
      }
      acquisitionDimensions := acquisitionDimensions + [d.value];
      i := i + 1;
    }
    DimensionsAllDecoded(ds, acquisitionDimensions);
    r := Ok(StorageProperties(filename, externalMetadataJson, v.firstFrameId,
                              (v.pixelScaleUm.x, v.pixelScaleUm.y), acquisitionDimensions,
                              BoolFromNative(v.enableMultiscale)));
  }

  /** Only the zero test reads a dimension name's length. */
  lemma DimensionIgnoresNameLength(d: NativeDimension, n: nat)
    requires Readable(d.name) && d.name.nbytes != 0 && n != 0
    ensures Readable(d.name.(nbytes := n))
    ensures DimensionFromNative(d) == DimensionFromNative(d.(name := d.name.(nbytes := n)))
  {
    DecodeStringIgnoresLength(d.name, d.name.(nbytes := n));
  }
}
