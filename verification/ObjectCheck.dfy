/** Checking a stored object against its Blob, streaming it when the provider
    reports no checksum. */
module ObjectCheck {
  import opened Base
  import opened Base64
  import opened Rows

  /** Integrity facts a provider reports of one object. */
  datatype ObjectInfo = ObjectInfo(size: int, checksum: Option<string>)

  function Join(chunks: seq<seq<Byte>>): seq<Byte> {
    if |chunks| == 0 then [] else Join(chunks[..|chunks| - 1]) + chunks[|chunks| - 1]
  }

  /** The object is the Blob: the reported size agrees, and so does the reported
      checksum or, without one, the content itself. */
  predicate Matches(hash: seq<Byte> -> string, blob: BlobRow, info: ObjectInfo, content: seq<Byte>) {
    && info.size == blob.size
    && if info.checksum.Some? then info.checksum.value == blob.sha256
       else |content| == blob.size && hash(content) == blob.sha256
  }

  /** However the content is cut into chunks, only the whole of it decides. */
  method VerifyObject(hash: seq<Byte> -> string, blob: BlobRow, info: ObjectInfo, chunks: seq<seq<Byte>>)
    returns (accepted: bool)
    ensures accepted == Matches(hash, blob, info, Join(chunks))
  {
    if info.size != blob.size {
      return false;
    }
    if info.checksum.Some? {
      return info.checksum.value == blob.sha256;
    }
    var fed: seq<Byte> := [];
    var totalBytes := 0;
    for i := 0 to |chunks|
      invariant fed == Join(chunks[..i]) && totalBytes == |fed|
    {
      assert chunks[..i + 1][..i] == chunks[..i];
      totalBytes := totalBytes + |chunks[i]|;
      fed := fed + chunks[i];
    }
    assert chunks[..|chunks|] == chunks;
    accepted := totalBytes == blob.size && hash(fed) == blob.sha256;
  }
}
