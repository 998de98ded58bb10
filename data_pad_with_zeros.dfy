/** `Data.padWithZeros(targetSize:)` (Data+padWithZeros.swift). */
module DataPadWithZeros {
  import opened Utf8

  function Zeros(n: nat): (r: Bytes)
    ensures |r| == n && forall i :: 0 <= i < n ==> r[i] == 0
  {
    seq(n, _ => 0 as byte)
  }

  /**
   * The padded value: the data, followed by zero bytes up to `targetSize`
   * when it is shorter; data already that long comes back as it is.
   */
  function ZeroPadded(data: Bytes, targetSize: int): (r: Bytes)
    ensures |r| == if |data| < targetSize then targetSize else |data|
    ensures r[..|data|] == data
    ensures forall i :: |data| <= i < |r| ==> r[i] == 0
    ensures targetSize <= |data| ==> r == data
  {
    if |data| < targetSize then data + Zeros(targetSize - |data|) else data
  }

  /** The extension method: copy, then append a zero buffer when short. */
  method PadWithZeros(data: Bytes, targetSize: int) returns (paddedData: Bytes)
    ensures paddedData == ZeroPadded(data, targetSize)
  {
    paddedData := data;
    var dataSize := |data|;
    if dataSize < targetSize {
      var paddingSize := targetSize - dataSize;
      var padding := Zeros(paddingSize);
      paddedData := paddedData + padding;
    }
  }

  /** Padding twice to the same size is padding once. */
  lemma PadIdempotent(data: Bytes, targetSize: int)
    ensures ZeroPadded(ZeroPadded(data, targetSize), targetSize) == ZeroPadded(data, targetSize)
  {
  }

  /**
   * Padding forgets trailing zeros: data that differ only by zero bytes
   * within the target size pad to the same value.
   */
  lemma PadAbsorbsTrailingZero(data: Bytes, targetSize: int)
    requires |data| < targetSize
    ensures ZeroPadded(data + [0], targetSize) == ZeroPadded(data, targetSize)
  {
    var r, r' := ZeroPadded(data, targetSize), ZeroPadded(data + [0], targetSize);
    forall i | 0 <= i < |r| ensures r'[i] == r[i] {
      if i < |data| {
        assert r'[..|data| + 1][i] == (data + [0])[i];
        assert r[..|data|][i] == data[i];
      }
    }
  }
}
