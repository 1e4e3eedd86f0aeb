/** The local composite-ETag oracle of src/utils/calculateETag.js: split a
    buffer into fixed-size parts, digest every part, and format the tag the
    storage backend reports for a multipart object. MD5 is not modelled; it is
    the parameter `md5`, any function from bytes to bytes. */
module ETag {
  import opened Encoding

  /** The default part size, 5 MiB. */
  const DefaultPartSize: nat := 5 * 1024 * 1024

  function Min(a: int, b: int): int {
    if a < b then a else b
  }

  lemma MulMonotonic(a: nat, b: nat, c: nat)
    requires a <= b
    ensures a * c <= b * c
  {
  }

  /** `Math.ceil(len / partSize)`: the fewest parts of `partSize` bytes that
      hold `len` bytes. */
  function TotalParts(len: nat, partSize: nat): (n: nat)
    requires partSize > 0
    ensures len <= n * partSize
    ensures n > 0 ==> (n - 1) * partSize < len
  {
    (len + partSize - 1) / partSize
  }

  /** One past the last byte of part `i` (`Math.min(start + partSize, len)`). */
  function PartEnd(len: nat, partSize: nat, i: nat): int {
    Min(i * partSize + partSize, len)
  }

  lemma PartBounds(len: nat, partSize: nat, i: nat)
    requires partSize > 0 && i < TotalParts(len, partSize)
    ensures i * partSize < PartEnd(len, partSize, i) <= i * partSize + partSize
    ensures i + 1 < TotalParts(len, partSize) ==> PartEnd(len, partSize, i) == (i + 1) * partSize
    ensures i + 1 == TotalParts(len, partSize) ==> PartEnd(len, partSize, i) == len
  {
    var n := TotalParts(len, partSize);
    MulMonotonic(i, n - 1, partSize);
    if i + 1 < n {
      MulMonotonic(i + 1, n - 1, partSize);
    } else {
      assert (i + 1) * partSize == n * partSize;
    }
  }

  /** `buffer.slice(i * partSize, min(i * partSize + partSize, len))`. */
  function Part(buffer: Bytes, partSize: nat, i: nat): (p: Bytes)
    requires partSize > 0 && i < TotalParts(|buffer|, partSize)
  {
    PartBounds(|buffer|, partSize, i);
    buffer[i * partSize..PartEnd(|buffer|, partSize, i)]
  }

  function Parts(buffer: Bytes, partSize: nat): (ps: seq<Bytes>)
    requires partSize > 0
  {
    var n := TotalParts(|buffer|, partSize);
    seq(n, i requires 0 <= i < n => Part(buffer, partSize, i))
  }

  /** The part digests `md5Hashes`, one per part in ascending part order. */
  function Digests(md5: Bytes -> Bytes, buffer: Bytes, partSize: nat): (ds: seq<Bytes>)
    requires partSize > 0
  {
    var n := TotalParts(|buffer|, partSize);
    seq(n, i requires 0 <= i < n => md5(Part(buffer, partSize, i)))
  }

  function Quote(s: string): string {
    "\"" + s + "\""
  }

  /** The backend's multipart tag convention applied to part digests: the
      quoted hex digest itself for exactly one part, and otherwise the quoted
      hex digest of the concatenated digests followed by `-` and the number of
      parts. */
  function CompositeETag(md5: Bytes -> Bytes, digests: seq<Bytes>): string {
    if |digests| == 1 then Quote(Hex(digests[0]))
    else Quote(Hex(md5(Concat(digests))) + "-" + Decimal(|digests|))
  }

  /** What `calculateETag(buffer, partSize)` returns. */
  function ExpectedETag(md5: Bytes -> Bytes, buffer: Bytes, partSize: nat): string
    requires partSize > 0
  {
    CompositeETag(md5, Digests(md5, buffer, partSize))
  }

  /** The loop of calculateETag: slice, digest and push one part per
      iteration, then format the tag. */
  method CalculateETag(md5: Bytes -> Bytes, buffer: Bytes, partSize: nat := DefaultPartSize) returns (etag: string)
    requires partSize > 0
    ensures etag == ExpectedETag(md5, buffer, partSize)
  {
    var totalParts := TotalParts(|buffer|, partSize);
    var md5Hashes: seq<Bytes> := [];
    for i := 0 to totalParts
      invariant md5Hashes == Digests(md5, buffer, partSize)[..i]
    {
      var start := i * partSize;
      var end := Min(start + partSize, |buffer|);
      PartBounds(|buffer|, partSize, i);
      var partBuffer := buffer[start..end];
      assert partBuffer == Part(buffer, partSize, i);
      md5Hashes := md5Hashes + [md5(partBuffer)];
      assert Digests(md5, buffer, partSize)[..i + 1] == Digests(md5, buffer, partSize)[..i] + [md5(partBuffer)];
    }
    assert md5Hashes == Digests(md5, buffer, partSize);
    if |md5Hashes| == 1 {
      return Quote(Hex(md5Hashes[0]));
    }
    var finalMd5 := Hex(md5(Concat(md5Hashes)));
    return Quote(finalMd5 + "-" + Decimal(totalParts));
  }

  // ---------------------------------------------------------------------------
  // Properties of the partition

  /** The parts are non-empty, at most `partSize` long, all but the last
      exactly `partSize` long, each starting where the previous one ends, the
      first at 0 and the last ending at `len`; there are none exactly when the
      buffer is empty. */
  lemma Partition(len: nat, partSize: nat)
    requires partSize > 0
    ensures TotalParts(len, partSize) == 0 <==> len == 0
    ensures forall i :: 0 <= i < TotalParts(len, partSize) ==>
      i * partSize < PartEnd(len, partSize, i) <= i * partSize + partSize
    ensures forall i :: 0 <= i < TotalParts(len, partSize) - 1 ==>
      PartEnd(len, partSize, i) == (i + 1) * partSize
    ensures TotalParts(len, partSize) > 0 ==>
      PartEnd(len, partSize, TotalParts(len, partSize) - 1) == len
  {
    var n := TotalParts(len, partSize);
    forall i | 0 <= i < n
      ensures i * partSize < PartEnd(len, partSize, i) <= i * partSize + partSize
      ensures i + 1 < n ==> PartEnd(len, partSize, i) == (i + 1) * partSize
    {
      PartBounds(len, partSize, i);
    }
    if n > 0 {
      PartBounds(len, partSize, n - 1);
    }
  }

  /** There are no parts exactly when the buffer is empty; every part is
      non-empty and at most `partSize` long, and every part but the last is
      exactly `partSize` long. */
  lemma PartLengths(buffer: Bytes, partSize: nat)
    requires partSize > 0
    ensures var ps := Parts(buffer, partSize);
      && (|ps| == 0 <==> |buffer| == 0)
      && (forall j :: 0 <= j < |ps| ==> 0 < |ps[j]| <= partSize)
      && (forall j :: 0 <= j < |ps| - 1 ==> |ps[j]| == partSize)
  {
    var ps := Parts(buffer, partSize);
    Partition(|buffer|, partSize);
    forall j | 0 <= j < |ps|
      ensures 0 < |ps[j]| <= partSize
      ensures j < |ps| - 1 ==> |ps[j]| == partSize
    {
      PartBounds(|buffer|, partSize, j);
      assert (j + 1) * partSize == j * partSize + partSize;
    }
  }

  /** The parts, concatenated in order, give back the buffer: they cover it
      exactly, without gaps or overlap. */
  lemma {:induction false} PartsConcat(buffer: Bytes, partSize: nat)
    requires partSize > 0
    ensures Concat(Parts(buffer, partSize)) == buffer
  {
    var ps := Parts(buffer, partSize);
    var n := |ps|;
    PrefixConcat(buffer, partSize, n);
    assert ps[..n] == ps;
    if n > 0 {
      PartBounds(|buffer|, partSize, n - 1);
    }
    assert buffer[..|buffer|] == buffer;
  }

  lemma {:induction false} PrefixConcat(buffer: Bytes, partSize: nat, k: nat)
    requires partSize > 0 && k <= TotalParts(|buffer|, partSize)
    ensures k > 0 ==> Concat(Parts(buffer, partSize)[..k]) == buffer[..PartEnd(|buffer|, partSize, k - 1)]
    ensures k == 0 ==> Concat(Parts(buffer, partSize)[..k]) == []
  {
    var ps := Parts(buffer, partSize);
    if k > 0 {
      PrefixConcat(buffer, partSize, k - 1);
      assert ps[..k][..k - 1] == ps[..k - 1];
      PartBounds(|buffer|, partSize, k - 1);
      if k > 1 {
        PartBounds(|buffer|, partSize, k - 2);
      }
      var prev := if k == 1 then 0 else PartEnd(|buffer|, partSize, k - 2);
      assert prev == (k - 1) * partSize;
      assert buffer[..prev] + buffer[prev..PartEnd(|buffer|, partSize, k - 1)] == buffer[..PartEnd(|buffer|, partSize, k - 1)];
    }
  }

  // ---------------------------------------------------------------------------
  // Properties of the tag

  /** A buffer that fits in one part is tagged with the quoted hex digest of
      the whole buffer, with no part-count suffix. */
  lemma SinglePartETag(md5: Bytes -> Bytes, buffer: Bytes, partSize: nat)
    requires 0 < |buffer| <= partSize
    ensures ExpectedETag(md5, buffer, partSize) == Quote(Hex(md5(buffer)))
  {
    var n := TotalParts(|buffer|, partSize);
    if n >= 2 {
      MulMonotonic(1, n - 1, partSize);
    }
    assert n == 1;
    assert Part(buffer, partSize, 0) == buffer;
  }

  /** An empty buffer has no parts and falls into the multipart format with
      a part count of 0: the digest of the empty concatenation, then `-0`. */
  lemma EmptyBufferETag(md5: Bytes -> Bytes, partSize: nat)
    requires partSize > 0
    ensures ExpectedETag(md5, [], partSize) == Quote(Hex(md5([])) + "-0")
  {
    assert Digests(md5, [], partSize) == [];
  }

  /** A 12 MiB buffer at the default part size makes three parts of 5, 5 and
      2 MiB, tagged with the digest of their three digests and `-3`. */
  lemma TwelveMiBETag(md5: Bytes -> Bytes, buffer: Bytes)
    requires |buffer| == 12 * 1024 * 1024
    ensures TotalParts(|buffer|, DefaultPartSize) == 3
    ensures |Part(buffer, DefaultPartSize, 0)| == |Part(buffer, DefaultPartSize, 1)| == DefaultPartSize
    ensures |Part(buffer, DefaultPartSize, 2)| == 2 * 1024 * 1024
    ensures ExpectedETag(md5, buffer, DefaultPartSize) ==
      Quote(Hex(md5(md5(buffer[..DefaultPartSize])
                   + md5(buffer[DefaultPartSize..2 * DefaultPartSize])
                   + md5(buffer[2 * DefaultPartSize..]))) + "-3")
  {
    var ds := Digests(md5, buffer, DefaultPartSize);
    assert |ds| == 3;
    assert ds[0] == md5(buffer[..DefaultPartSize]) by {
      assert Part(buffer, DefaultPartSize, 0) == buffer[..DefaultPartSize];
    }
    assert ds[1] == md5(buffer[DefaultPartSize..2 * DefaultPartSize]) by {
      assert PartEnd(|buffer|, DefaultPartSize, 1) == 2 * DefaultPartSize;
      assert Part(buffer, DefaultPartSize, 1) == buffer[DefaultPartSize..2 * DefaultPartSize];
    }
    assert ds[2] == md5(buffer[2 * DefaultPartSize..]) by {
      assert Part(buffer, DefaultPartSize, 2) == buffer[2 * DefaultPartSize..];
    }
    assert Decimal(3) == "3";
    assert Concat(ds) == ds[0] + ds[1] + ds[2] by {
      assert ds[..2][..1] == ds[..1];
      assert ds[..1][..0] == ds[..0];
      assert Concat(ds[..1]) == ds[0];
      assert Concat(ds[..2]) == ds[0] + ds[1];
    }
  }

  /** The tag holds a `-` exactly when the buffer did not make exactly one
      part: hex digits, digits and quotes never contain one. */
  lemma DashMarksMultipart(md5: Bytes -> Bytes, buffer: Bytes, partSize: nat)
    requires partSize > 0
    ensures '-' in ExpectedETag(md5, buffer, partSize) <==> TotalParts(|buffer|, partSize) != 1
  {
    var ds := Digests(md5, buffer, partSize);
    var etag := ExpectedETag(md5, buffer, partSize);
    if |ds| == 1 {
      var h := Hex(ds[0]);
      assert etag == "\"" + h + "\"";
      forall k | 0 <= k < |etag| ensures etag[k] != '-' {
        if 0 < k < |etag| - 1 {
          assert etag[k] == h[k - 1];
        }
      }
    } else {
      var h := Hex(md5(Concat(ds)));
      assert etag[|h| + 1] == '-';
    }
  }
}
