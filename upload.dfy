/** The multipart upload path of src/utils/upload.js: key generation, the calls
    to the storage backend, the per-file upload session with its
    complete / abort / verify / compensate branches, and the batch that
    collects one outcome per file into a shared `{success, error}` record.

    The backend is not modelled: `Backend` gives its reply to every request as
    a function of that request, and an `S3Client` records the requests sent to
    it, in order, in `sent`. The digests are parameters (`Hashes`) and so are
    the random bytes of each key. */
module Upload {
  import opened Wrappers
  import opened Encoding
  import ETag

  /** The fields of an uploaded file that the upload reads. */
  datatype File = File(originalName: string, buffer: Bytes)

  // ---------------------------------------------------------------------------
  // generateFileName

  /** Index of the last '.' of `name`, if any. */
  function LastDot(name: string): (r: Option<nat>)
    ensures r.Some? ==> r.value < |name| && name[r.value] == '.'
    ensures r.Some? ==> forall k :: r.value < k < |name| ==> name[k] != '.'
    ensures r.None? ==> forall k :: 0 <= k < |name| ==> name[k] != '.'
  {
    if name == [] then None
    else if name[|name| - 1] == '.' then Some(|name| - 1)
    else LastDot(name[..|name| - 1])
  }

  /** `path.extname` of a single path component: from the last '.' to the
      end, or empty when there is no '.', when the only candidate dot opens
      the name (".profile"), or when the name is "..". */
  function ExtName(name: string): (ext: string)
    ensures ext == [] || ext[0] == '.'
    ensures forall k :: 1 <= k < |ext| ==> ext[k] != '.'
    ensures |ext| <= |name| && ext == name[|name| - |ext|..]
  {
    match LastDot(name)
    case None => ""
    case Some(i) => if i == 0 || name == ".." then "" else name[i..]
  }

  /** `path.basename(name, path.extname(name))`: the name without its
      extension. */
  function Stem(name: string): (stem: string)
    ensures stem + ExtName(name) == name
  {
    name[..|name| - |ExtName(name)|]
  }

  /** `generateFileName`: stem, '_', 16 hex characters of 8 random bytes,
      extension. */
  function GenerateFileName(name: string, random: Bytes): (key: string)
    requires |random| == 8
    ensures |key| == |name| + 17
  {
    Stem(name) + "_" + Hex(random) + ExtName(name)
  }

  /** The generated key keeps the extension of the original name (".." aside,
      whose stem "..", once suffixed, acquires an extension of its own). */
  lemma KeyKeepsExtension(name: string, random: Bytes)
    requires |random| == 8 && name != ".."
    ensures ExtName(GenerateFileName(name, random)) == ExtName(name)
  {
    var stem, ext, hex := Stem(name), ExtName(name), Hex(random);
    var key := GenerateFileName(name, random);
    var mid := |stem| + 17;
    assert key == stem + "_" + hex + ext;
    assert forall k :: |stem| <= k < mid ==> key[k] != '.' by {
      forall k | |stem| <= k < mid ensures key[k] != '.' {
        if k > |stem| {
          assert key[k] == hex[k - |stem| - 1];
        }
      }
    }
    if ext == [] {
      assert forall k :: 0 <= k < |stem| ==> key[k] == name[k];
      match LastDot(name)
      case None =>
        assert LastDot(key) == None;
      case Some(i) =>
        assert i == 0;
        assert LastDot(key) == Some(0);
    } else {
      var i := |key| - |ext|;
      assert key[i..] == ext;
      assert LastDot(key) == Some(i) by {
        assert key[i] == '.';
        forall k | i < k < |key| ensures key[k] != '.' {
          assert key[k] == ext[k - i];
          assert ext[k - i] == name[|name| - |ext| + (k - i)];
        }
      }
      assert i > 0 && key != "..";
    }
  }

  /** The generated key is the stem, then '_', then 16 lower-case hex
      characters from which the random bytes read back, then the extension. */
  lemma KeyEncodesRandom(name: string, random: Bytes)
    requires |random| == 8
    ensures var key, s := GenerateFileName(name, random), |Stem(name)|;
      && key[..s] == Stem(name) && key[s] == '_'
      && (forall k :: s + 1 <= k < s + 17 ==> IsHexChar(key[k]))
      && Unhex(key[s + 1..s + 17]) == random
      && key[s + 17..] == ExtName(name)
  {
    var key, s := GenerateFileName(name, random), |Stem(name)|;
    assert key[s + 1..s + 17] == Hex(random);
    UnhexHex(random);
  }

  /** Two keys generated for the same name from different random bytes are
      different. */
  lemma KeysDiffer(name: string, random1: Bytes, random2: Bytes)
    requires |random1| == 8 && |random2| == 8 && random1 != random2
    ensures GenerateFileName(name, random1) != GenerateFileName(name, random2)
  {
    var k1, k2 := GenerateFileName(name, random1), GenerateFileName(name, random2);
    var s := |Stem(name)| + 1;
    assert k1[s..s + 16] == Hex(random1);
    assert k2[s..s + 16] == Hex(random2);
    if k1 == k2 {
      HexInjective(random1, random2);
    }
  }

  // ---------------------------------------------------------------------------
  // The storage backend and the calls made to it

  /** One entry of the part list handed to completion. */
  datatype CompletedPart = CompletedPart(partNumber: nat, etag: string, checksum: string)

  /** The fields of the completion reply that the session reads. */
  datatype Completion = Completion(etag: string, key: string)

  /** The backend's reply to each request: a value, or a failure carrying a
      message. Arguments are (key), (key, uploadId, partNumber, body,
      checksum), (key, uploadId, parts), (key, uploadId) and (key). */
  datatype Backend = Backend(
    create: string -> Result<string>,
    uploadPart: (string, string, nat, Bytes, string) -> Result<string>,
    complete: (string, string, seq<CompletedPart>) -> Result<Completion>,
    abort: (string, string) -> Result<()>,
    delete: string -> Result<()>)

  /** The requests sent to the backend. */
  datatype Call =
    | CreateCall(key: string)
    | UploadPartCall(key: string, uploadId: string, partNumber: nat, body: Bytes, checksum: string)
    | CompleteCall(key: string, uploadId: string, parts: seq<CompletedPart>)
    | AbortCall(key: string, uploadId: string)
    | DeleteCall(key: string)
  {
    function Command(): Command {
      match this
      case CreateCall(_) => Create
      case UploadPartCall(_, _, _, _, _) => Upload
      case CompleteCall(_, _, _) => Complete
      case AbortCall(_, _) => Abort
      case DeleteCall(_) => Delete
    }
  }

  datatype Command = Create | Upload | Complete | Abort | Delete

  /** How many of `calls` are `cmd` requests. */
  function Count(calls: seq<Call>, cmd: Command): nat {
    if calls == [] then 0
    else Count(calls[..|calls| - 1], cmd) + (if calls[|calls| - 1].Command() == cmd then 1 else 0)
  }

  lemma {:induction false} CountAppend(a: seq<Call>, b: seq<Call>, cmd: Command)
    ensures Count(a + b, cmd) == Count(a, cmd) + Count(b, cmd)
  {
    if b != [] {
      assert (a + b)[..|a + b| - 1] == a + b[..|b| - 1];
      CountAppend(a, b[..|b| - 1], cmd);
    } else {
      assert a + b == a;
    }
  }

  /** The client the upload code sends its commands through. */
  class S3Client {
    const backend: Backend
    var sent: seq<Call>

    constructor (backend: Backend)
      ensures this.backend == backend && sent == []
    {
      this.backend := backend;
      sent := [];
    }
  }

  /** MD5, and SHA-256 rendered in base64. */
  datatype Hashes = Hashes(md5: Bytes -> Bytes, sha256: Bytes -> string)

  /** `createMultiPartUpload`: the upload id, or the error it throws. */
  method CreateMultiPartUpload(s3: S3Client, key: string) returns (r: Result<string>)
    modifies s3
    ensures s3.sent == old(s3.sent) + [CreateCall(key)]
    ensures r == s3.backend.create(key)
  {
    s3.sent := s3.sent + [CreateCall(key)];
    r := s3.backend.create(key);
  }

  /** What `uploadPartS3` settles to: the part record, numbered from 1 and
      carrying the checksum of exactly the bytes sent, or the failure
      rethrown with the part number in front. */
  function PartSettlement(b: Backend, h: Hashes, key: string, uploadId: string, filePart: Bytes, iteration: nat): Result<CompletedPart> {
    var hash := h.sha256(filePart);
    match b.uploadPart(key, uploadId, iteration + 1, filePart, hash)
    case Ok(etag) => Ok(CompletedPart(iteration + 1, etag, hash))
    case Err(m) => Err("Part " + Decimal(iteration + 1) + " failed: " + m)
  }

  /** `uploadPartS3`. */
  method UploadPartS3(s3: S3Client, h: Hashes, key: string, uploadId: string, filePart: Bytes, iteration: nat)
    returns (r: Result<CompletedPart>)
    modifies s3
    ensures s3.sent == old(s3.sent) + [UploadPartCall(key, uploadId, iteration + 1, filePart, h.sha256(filePart))]
    ensures r == PartSettlement(s3.backend, h, key, uploadId, filePart, iteration)
  {
    var hash := h.sha256(filePart);
    s3.sent := s3.sent + [UploadPartCall(key, uploadId, iteration + 1, filePart, hash)];
    var res := s3.backend.uploadPart(key, uploadId, iteration + 1, filePart, hash);
    match res {
      case Ok(etag) =>
        r := Ok(CompletedPart(iteration + 1, etag, hash));
      case Err(m) =>
        r := Err("Part " + Decimal(iteration + 1) + " failed: " + m);
    }
  }

  /** `abortMultiPartUpload`: sends the abort and never fails; a failed abort
      is only logged, so there is nothing to return. */
  method AbortMultiPartUpload(s3: S3Client, key: string, uploadId: string)
    modifies s3
    ensures s3.sent == old(s3.sent) + [AbortCall(key, uploadId)]
  {
    s3.sent := s3.sent + [AbortCall(key, uploadId)];
    var reply := s3.backend.abort(key, uploadId);
  }

  /** `completeMultiPartUpload`: the completion reply, or the error it throws. */
  method CompleteMultiPartUpload(s3: S3Client, key: string, uploadId: string, parts: seq<CompletedPart>)
    returns (r: Result<Completion>)
    modifies s3
    ensures s3.sent == old(s3.sent) + [CompleteCall(key, uploadId, parts)]
    ensures r == s3.backend.complete(key, uploadId, parts)
  {
    s3.sent := s3.sent + [CompleteCall(key, uploadId, parts)];
    r := s3.backend.complete(key, uploadId, parts);
  }

  /** `deleteFile`: a failed delete is logged and rethrown. */
  method DeleteFile(s3: S3Client, fileKey: string) returns (r: Result<()>)
    modifies s3
    ensures s3.sent == old(s3.sent) + [DeleteCall(fileKey)]
    ensures r == s3.backend.delete(fileKey)
  {
    s3.sent := s3.sent + [DeleteCall(fileKey)];
    r := s3.backend.delete(fileKey);
  }

  // ---------------------------------------------------------------------------
  // The upload session of one file (handleMultipartUpload), as a function

  /** The session splits the buffer exactly as the ETag oracle does by
      default. */
  const PartSize: nat := ETag.DefaultPartSize

  function PartCount(buffer: Bytes): nat {
    ETag.TotalParts(|buffer|, PartSize)
  }

  function PartOf(buffer: Bytes, i: nat): Bytes
    requires i < PartCount(buffer)
  {
    ETag.Part(buffer, PartSize, i)
  }

  /** The part uploads, dispatched in part order. */
  function Dispatched(h: Hashes, key: string, uploadId: string, buffer: Bytes): seq<Call> {
    var n := PartCount(buffer);
    seq(n, i requires 0 <= i < n =>
      UploadPartCall(key, uploadId, i + 1, PartOf(buffer, i), h.sha256(PartOf(buffer, i))))
  }

  /** What every part upload settled to, indexed by part. */
  function Settled(b: Backend, h: Hashes, key: string, uploadId: string, buffer: Bytes): seq<Result<CompletedPart>> {
    var n := PartCount(buffer);
    seq(n, i requires 0 <= i < n => PartSettlement(b, h, key, uploadId, PartOf(buffer, i), i))
  }

  /** `partETags`: the fulfilled settlements, in settled-index order, each
      numbered by its index plus one. */
  function Fulfilled(settled: seq<Result<CompletedPart>>): (parts: seq<CompletedPart>)
    ensures |parts| <= |settled|
    ensures forall j :: 0 <= j < |parts| ==> 1 <= parts[j].partNumber <= |settled|
    ensures forall j, k :: 0 <= j < k < |parts| ==> parts[j].partNumber < parts[k].partNumber
  {
    if settled == [] then []
    else
      var last := settled[|settled| - 1];
      Fulfilled(settled[..|settled| - 1])
        + (if last.Ok? then [CompletedPart(|settled|, last.value.etag, last.value.checksum)] else [])
  }

  /** The backend accepted every part upload. */
  predicate AllPartsUploaded(b: Backend, h: Hashes, key: string, uploadId: string, buffer: Bytes) {
    forall i :: 0 <= i < PartCount(buffer) ==>
      b.uploadPart(key, uploadId, i + 1, PartOf(buffer, i), h.sha256(PartOf(buffer, i))).Ok?
  }

  /** One entry of the shared result: `{fileName, message}` in `success`,
      `{fileName, error}` in `error`. */
  datatype Outcome = Succeeded(fileName: string, message: string) | Failed(fileName: string, error: string)

  /** The outcome of a session and the requests it sent, in order. */
  datatype SessionRun = SessionRun(outcome: Outcome, calls: seq<Call>)

  /** How the `try` block of `handleMultipartUpload` ends: it returns having
      recorded an outcome, or it throws with a message, having learnt
      `uploadId` ("" when creation itself failed). Either way, `calls` are the
      requests it sent. */
  datatype Attempt =
    | Returned(outcome: Outcome, calls: seq<Call>)
    | Threw(message: string, calls: seq<Call>, uploadId: string)

  /** The end of the `try` block of `handleMultipartUpload`, once every part
      has settled and `partETags` is collected: complete and verify when all
      `totalParts` parts are there, abort otherwise. Only the requests sent
      from this point on are in `calls`. */
  function Conclude(b: Backend, key: string, uploadId: string, partETags: seq<CompletedPart>, totalParts: nat, etag: string): Attempt {
    if |partETags| == totalParts then
      var completing := [CompleteCall(key, uploadId, partETags)];
      match b.complete(key, uploadId, partETags)
      case Err(m) => Threw(m, completing, uploadId)
      case Ok(res) =>
        if res.etag != etag then
          match b.delete(res.key)
          case Err(m) => Threw(m, completing + [DeleteCall(res.key)], uploadId)
          case Ok(_) => Returned(Failed(key, "ETag mismatch"), completing + [DeleteCall(res.key)] + [AbortCall(key, uploadId)])
        else
          Returned(Succeeded(key, "Upload completed"), completing)
    else
      Returned(Failed(key, "Upload failed for some parts"), [AbortCall(key, uploadId)])
  }

  /** `a`, after the requests `calls` were sent. */
  function After(calls: seq<Call>, a: Attempt): Attempt {
    a.(calls := calls + a.calls)
  }

  /** The `try` block of `handleMultipartUpload`, for key `key` and locally
      computed tag `etag`. */
  function TryBlock(b: Backend, h: Hashes, key: string, buffer: Bytes, etag: string): Attempt {
    match b.create(key)
    case Err(m) => Threw(m, [CreateCall(key)], "")
    case Ok(uploadId) =>
      After([CreateCall(key)] + Dispatched(h, key, uploadId, buffer),
            Conclude(b, key, uploadId, Fulfilled(Settled(b, h, key, uploadId, buffer)), PartCount(buffer), etag))
  }

  /** The abort of the catch block, made only once an upload id is known. */
  function AbortIfStarted(key: string, uploadId: string): seq<Call> {
    if uploadId != "" then [AbortCall(key, uploadId)] else []
  }

  /** `handleMultipartUpload` for one file against the backend `b`: the
      `try` block, then the `catch` block when it threw. */
  function Session(b: Backend, h: Hashes, file: File, random: Bytes): SessionRun
    requires |random| == 8
  {
    var key := GenerateFileName(file.originalName, random);
    var etag := ETag.ExpectedETag(h.md5, file.buffer, PartSize);
    match TryBlock(b, h, key, file.buffer, etag)
    case Returned(o, calls) => SessionRun(o, calls)
    case Threw(m, calls, uploadId) => SessionRun(Failed(key, m), calls + AbortIfStarted(key, uploadId))
  }

  // ---------------------------------------------------------------------------
  // The shared result and the imperative session

  /** The `{success, error}` record every session appends to. */
  class BatchResult {
    var success: seq<Outcome>
    var error: seq<Outcome>

    ghost predicate Valid()
      reads this
    {
      (forall k :: 0 <= k < |success| ==> success[k].Succeeded?) &&
      (forall k :: 0 <= k < |error| ==> error[k].Failed?)
    }

    constructor ()
      ensures Valid() && success == [] && error == []
    {
      success := [];
      error := [];
    }
  }

  /** The dispatch loop of `handleMultipartUpload`: one `uploadPartS3` per
      part, in part order, over the slices of the ETag partition. */
  method UploadParts(s3: S3Client, h: Hashes, key: string, uploadId: string, fileBuffer: Bytes)
    returns (uploadResults: seq<Result<CompletedPart>>)
    modifies s3
    ensures s3.sent == old(s3.sent) + Dispatched(h, key, uploadId, fileBuffer)
    ensures uploadResults == Settled(s3.backend, h, key, uploadId, fileBuffer)
  {
    var partSize := PartSize;
    var totalParts := ETag.TotalParts(|fileBuffer|, partSize);
    uploadResults := [];
    for i := 0 to totalParts
      invariant s3.sent == old(s3.sent) + Dispatched(h, key, uploadId, fileBuffer)[..i]
      invariant uploadResults == Settled(s3.backend, h, key, uploadId, fileBuffer)[..i]
    {
      var start := i * partSize;
      var end := ETag.Min(start + partSize, |fileBuffer|);
      ETag.PartBounds(|fileBuffer|, partSize, i);
      var partBuffer := fileBuffer[start..end];
      assert partBuffer == PartOf(fileBuffer, i);
      var r := UploadPartS3(s3, h, key, uploadId, partBuffer, i);
      uploadResults := uploadResults + [r];
      assert Dispatched(h, key, uploadId, fileBuffer)[..i + 1]
        == Dispatched(h, key, uploadId, fileBuffer)[..i] + [Dispatched(h, key, uploadId, fileBuffer)[i]];
      assert Settled(s3.backend, h, key, uploadId, fileBuffer)[..i + 1]
        == Settled(s3.backend, h, key, uploadId, fileBuffer)[..i] + [r];
    }
    assert Dispatched(h, key, uploadId, fileBuffer)[..totalParts] == Dispatched(h, key, uploadId, fileBuffer);
  }

  /** The collection loop of `handleMultipartUpload`: walk the settlements
      in index order and push a part record for each fulfilled one. */
  method CollectPartETags(uploadResults: seq<Result<CompletedPart>>) returns (partETags: seq<CompletedPart>)
    ensures partETags == Fulfilled(uploadResults)
  {
    partETags := [];
    for i := 0 to |uploadResults|
      invariant partETags == Fulfilled(uploadResults[..i])
    {
      assert uploadResults[..i + 1][..i] == uploadResults[..i];
      if uploadResults[i].Ok? {
        partETags := partETags + [CompletedPart(i + 1, uploadResults[i].value.etag, uploadResults[i].value.checksum)];
      }
    }
    assert uploadResults[..|uploadResults|] == uploadResults;
  }

  /** The end of the `try` block: complete and verify, or abort. An
      entry is appended to `result` unless an error is thrown, in which case
      its message is returned in `caught`. */
  method ConcludeUpload(s3: S3Client, key: string, uploadId: string, partETags: seq<CompletedPart>,
                        totalParts: nat, etag: string, result: BatchResult)
    returns (caught: Option<string>)
    requires result.Valid()
    modifies s3, result
    ensures result.Valid()
    ensures var a := Conclude(s3.backend, key, uploadId, partETags, totalParts, etag);
      && s3.sent == old(s3.sent) + a.calls
      && (a.Threw? <==> caught.Some?)
      && (a.Threw? ==> caught.value == a.message && a.uploadId == uploadId
                       && result.success == old(result.success) && result.error == old(result.error))
      && (a.Returned? && a.outcome.Succeeded? ==>
            result.success == old(result.success) + [a.outcome] && result.error == old(result.error))
      && (a.Returned? && a.outcome.Failed? ==>
            result.error == old(result.error) + [a.outcome] && result.success == old(result.success))
  {
    caught := None;
    if |partETags| == totalParts {
      var res := CompleteMultiPartUpload(s3, key, uploadId, partETags);
      if res.Err? {
        caught := Some(res.message);
      } else if res.value.etag != etag {
        var deleted := DeleteFile(s3, res.value.key);
        if deleted.Err? {
          caught := Some(deleted.message);
        } else {
          AbortMultiPartUpload(s3, key, uploadId);
          result.error := result.error + [Failed(key, "ETag mismatch")];
        }
      } else {
        result.success := result.success + [Succeeded(key, "Upload completed")];
      }
    } else {
      AbortMultiPartUpload(s3, key, uploadId);
      result.error := result.error + [Failed(key, "Upload failed for some parts")];
    }
  }

  /** The `try` block of `handleMultipartUpload`: create, upload every part,
      collect the settlements, then conclude. It appends an entry to `result`
      when it ends normally; when it throws, the message reaches the catch
      block in `caught`, with the upload id learnt so far. */
  method TryUpload(s3: S3Client, h: Hashes, key: string, fileBuffer: Bytes, etag: string, result: BatchResult)
    returns (caught: Option<string>, uploadId: string)
    requires result.Valid()
    modifies s3, result
    ensures result.Valid()
    ensures var a := TryBlock(s3.backend, h, key, fileBuffer, etag);
      && s3.sent == old(s3.sent) + a.calls
      && (a.Threw? <==> caught.Some?)
      && (a.Threw? ==> caught.value == a.message && uploadId == a.uploadId
                       && result.success == old(result.success) && result.error == old(result.error))
      && (a.Returned? && a.outcome.Succeeded? ==>
            result.success == old(result.success) + [a.outcome] && result.error == old(result.error))
      && (a.Returned? && a.outcome.Failed? ==>
            result.error == old(result.error) + [a.outcome] && result.success == old(result.success))
  {
    var totalParts := PartCount(fileBuffer);
    uploadId := "";
    var multipartUpload := CreateMultiPartUpload(s3, key);
    if multipartUpload.Err? {
      caught := Some(multipartUpload.message);
      return;
    }
    uploadId := multipartUpload.value;
    var uploadResults := UploadParts(s3, h, key, uploadId, fileBuffer);
    var partETags := CollectPartETags(uploadResults);
    caught := ConcludeUpload(s3, key, uploadId, partETags, totalParts, etag, result);
    assert s3.sent == old(s3.sent) + ([CreateCall(key)] + Dispatched(h, key, uploadId, fileBuffer)
      + Conclude(s3.backend, key, uploadId, partETags, totalParts, etag).calls);
  }

  /** `handleMultipartUpload`: generate the key, compute the expected tag,
      run the try block, and in the catch block abort (when an upload id is
      known) and record the error; appends exactly one entry to `result`. */
  method HandleMultipartUpload(s3: S3Client, h: Hashes, file: File, random: Bytes, result: BatchResult)
    requires |random| == 8 && result.Valid()
    modifies s3, result
    ensures result.Valid()
    ensures s3.sent == old(s3.sent) + Session(s3.backend, h, file, random).calls
    ensures var o := Session(s3.backend, h, file, random).outcome;
      if o.Succeeded? then result.success == old(result.success) + [o] && result.error == old(result.error)
      else result.error == old(result.error) + [o] && result.success == old(result.success)
  {
    var key := GenerateFileName(file.originalName, random);
    var etag := ETag.CalculateETag(h.md5, file.buffer);
    ghost var attempt := TryBlock(s3.backend, h, key, file.buffer, etag);
    ghost var sent0 := s3.sent;
    var caught, uploadId := TryUpload(s3, h, key, file.buffer, etag, result);
    if caught.Some? {
      if uploadId != "" {
        AbortMultiPartUpload(s3, key, uploadId);
      }
      result.error := result.error + [Failed(key, caught.value)];
      assert s3.sent == sent0 + (attempt.calls + AbortIfStarted(key, uploadId));
    }
  }

  // ---------------------------------------------------------------------------
  // The batch (uploadToS3)

  /** The random bytes drawn for every key are 8 long. */
  predicate KeyBytes(files: seq<File>, randoms: seq<Bytes>) {
    |randoms| == |files| && forall i :: 0 <= i < |randoms| ==> |randoms[i]| == 8
  }

  /** One session per file, in file order. */
  function BatchRuns(b: Backend, h: Hashes, files: seq<File>, randoms: seq<Bytes>): seq<SessionRun>
    requires KeyBytes(files, randoms)
  {
    seq(|files|, i requires 0 <= i < |files| => Session(b, h, files[i], randoms[i]))
  }

  function SuccessesOf(runs: seq<SessionRun>): seq<Outcome> {
    if runs == [] then []
    else
      var last := runs[|runs| - 1].outcome;
      SuccessesOf(runs[..|runs| - 1]) + (if last.Succeeded? then [last] else [])
  }

  function ErrorsOf(runs: seq<SessionRun>): seq<Outcome> {
    if runs == [] then []
    else
      var last := runs[|runs| - 1].outcome;
      ErrorsOf(runs[..|runs| - 1]) + (if last.Failed? then [last] else [])
  }

  function CallsOf(runs: seq<SessionRun>): seq<Call> {
    if runs == [] then [] else CallsOf(runs[..|runs| - 1]) + runs[|runs| - 1].calls
  }

  function Outcomes(runs: seq<SessionRun>): seq<Outcome> {
    seq(|runs|, i requires 0 <= i < |runs| => runs[i].outcome)
  }

  lemma AppendAssoc<T>(a: seq<T>, b: seq<T>, c: seq<T>)
    ensures (a + b) + c == a + (b + c)
  {
  }

  /** How the batch records grow by one session. */
  lemma BatchStep(runs: seq<SessionRun>, i: nat)
    requires i < |runs|
    ensures CallsOf(runs[..i + 1]) == CallsOf(runs[..i]) + runs[i].calls
    ensures SuccessesOf(runs[..i + 1]) == SuccessesOf(runs[..i]) + (if runs[i].outcome.Succeeded? then [runs[i].outcome] else [])
    ensures ErrorsOf(runs[..i + 1]) == ErrorsOf(runs[..i]) + (if runs[i].outcome.Failed? then [runs[i].outcome] else [])
  {
    assert runs[..i + 1][..i] == runs[..i];
  }

  /** `uploadToS3`: one session per file, all appending to one fresh
      `{success, error}` record. */
  method UploadToS3(s3: S3Client, h: Hashes, files: seq<File>, randoms: seq<Bytes>) returns (result: BatchResult)
    requires KeyBytes(files, randoms)
    modifies s3
    ensures fresh(result) && result.Valid()
    ensures result.success == SuccessesOf(BatchRuns(s3.backend, h, files, randoms))
    ensures result.error == ErrorsOf(BatchRuns(s3.backend, h, files, randoms))
    ensures s3.sent == old(s3.sent) + CallsOf(BatchRuns(s3.backend, h, files, randoms))
  {
    result := new BatchResult();
    ghost var runs := BatchRuns(s3.backend, h, files, randoms);
    for i := 0 to |files|
      invariant fresh(result) && result.Valid()
      invariant result.success == SuccessesOf(runs[..i])
      invariant result.error == ErrorsOf(runs[..i])
      invariant s3.sent == old(s3.sent) + CallsOf(runs[..i])
    {
      HandleMultipartUpload(s3, h, files[i], randoms[i], result);
      BatchStep(runs, i);
      AppendAssoc(old(s3.sent), CallsOf(runs[..i]), runs[i].calls);
    }
    assert runs[..|files|] == runs;
  }

  // ---------------------------------------------------------------------------
  // Properties of the batch

  lemma {:induction false} EntriesPartitionOutcomes(runs: seq<SessionRun>)
    ensures |SuccessesOf(runs)| + |ErrorsOf(runs)| == |runs|
    ensures multiset(SuccessesOf(runs)) + multiset(ErrorsOf(runs)) == multiset(Outcomes(runs))
  {
    if runs != [] {
      var init := runs[..|runs| - 1];
      EntriesPartitionOutcomes(init);
      assert Outcomes(runs) == Outcomes(init) + [runs[|runs| - 1].outcome];
    }
  }

  /** Every session records its outcome under the file's generated key. */
  lemma SessionOutcomeKey(b: Backend, h: Hashes, file: File, random: Bytes)
    requires |random| == 8
    ensures Session(b, h, file, random).outcome.fileName == GenerateFileName(file.originalName, random)
  {
    var key := GenerateFileName(file.originalName, random);
    match b.create(key)
    case Err(_) =>
    case Ok(uploadId) =>
  }

  /** Every file of the batch contributes exactly one entry, to exactly one
      of `success` and `error`, under its own generated key. */
  lemma BatchAccountsForEveryFile(b: Backend, h: Hashes, files: seq<File>, randoms: seq<Bytes>)
    requires KeyBytes(files, randoms)
    ensures var runs := BatchRuns(b, h, files, randoms);
      && |SuccessesOf(runs)| + |ErrorsOf(runs)| == |files|
      && multiset(SuccessesOf(runs)) + multiset(ErrorsOf(runs)) == multiset(Outcomes(runs))
      && forall i :: 0 <= i < |files| ==>
           Outcomes(runs)[i].fileName == GenerateFileName(files[i].originalName, randoms[i])
  {
    var runs := BatchRuns(b, h, files, randoms);
    EntriesPartitionOutcomes(runs);
    forall i | 0 <= i < |files|
      ensures Outcomes(runs)[i].fileName == GenerateFileName(files[i].originalName, randoms[i])
    {
      SessionOutcomeKey(b, h, files[i], randoms[i]);
    }
  }
}
