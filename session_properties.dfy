/** What the upload session of src/utils/upload.js guarantees about the
    requests it sends and the outcome it records, for every backend reply. */
module SessionProperties {
  import opened Wrappers
  import opened Encoding
  import ETag
  import opened Upload

  // ---------------------------------------------------------------------------
  // Helpers

  lemma {:induction false} FulfilledAllOk(settled: seq<Result<CompletedPart>>)
    ensures |Fulfilled(settled)| == |settled| <==> forall i :: 0 <= i < |settled| ==> settled[i].Ok?
    ensures (forall i :: 0 <= i < |settled| ==> settled[i].Ok?) ==>
      forall j :: 0 <= j < |settled| ==>
        Fulfilled(settled)[j] == CompletedPart(j + 1, settled[j].value.etag, settled[j].value.checksum)
  {
    if settled != [] {
      var init := settled[..|settled| - 1];
      FulfilledAllOk(init);
      assert forall i :: 0 <= i < |init| ==> init[i] == settled[i];
    }
  }

  lemma {:induction false} CountUploadsOnly(calls: seq<Call>, cmd: Command)
    requires forall k :: 0 <= k < |calls| ==> calls[k].UploadPartCall?
    ensures Count(calls, cmd) == if cmd == Upload then |calls| else 0
  {
    if calls != [] {
      CountUploadsOnly(calls[..|calls| - 1], cmd);
    }
  }

  lemma CountSingle(x: Call, cmd: Command)
    ensures Count([x], cmd) == if x.Command() == cmd then 1 else 0
  {
    assert [x][..0] == [];
  }

  /** The requests sent once every part has settled: those of the
      conclusion, then the abort of the catch block if the conclusion threw. */
  function Tail(b: Backend, key: string, uploadId: string, partETags: seq<CompletedPart>, totalParts: nat, etag: string): seq<Call> {
    var c := Conclude(b, key, uploadId, partETags, totalParts, etag);
    c.calls + (if c.Threw? then AbortIfStarted(key, uploadId) else [])
  }

  /** What a conclusion sends: one completion exactly when every part is
      there; a delete exactly when the completed object's tag differs from
      `etag`; at most one abort, and nothing after it. */
  lemma TailFacts(b: Backend, key: string, uploadId: string, partETags: seq<CompletedPart>, totalParts: nat, etag: string)
    ensures var t := Tail(b, key, uploadId, partETags, totalParts, etag);
      && Count(t, Create) == 0 && Count(t, Upload) == 0
      && Count(t, Complete) == (if |partETags| == totalParts then 1 else 0)
      && Count(t, Delete) == (if |partETags| == totalParts && b.complete(key, uploadId, partETags).Ok?
                                 && b.complete(key, uploadId, partETags).value.etag != etag then 1 else 0)
      && Count(t, Abort) <= 1
      && (Count(t, Abort) == 1 ==> t[|t| - 1] == AbortCall(key, uploadId))
      && (|partETags| == totalParts ==> t[0] == CompleteCall(key, uploadId, partETags))
  {
    var t := Tail(b, key, uploadId, partETags, totalParts, etag);
    var completing := [CompleteCall(key, uploadId, partETags)];
    var abort := [AbortCall(key, uploadId)];
    var maybeAbort := AbortIfStarted(key, uploadId);
    CountSingleAll(CompleteCall(key, uploadId, partETags));
    CountSingleAll(AbortCall(key, uploadId));
    if |partETags| != totalParts {
      assert t == abort;
    } else {
      match b.complete(key, uploadId, partETags)
      case Err(m) =>
        assert t == completing + maybeAbort;
        CountAppendAll(completing, maybeAbort);
      case Ok(res) =>
        if res.etag != etag {
          var deleting := [DeleteCall(res.key)];
          CountSingleAll(DeleteCall(res.key));
          CountAppendAll(completing, deleting);
          match b.delete(res.key)
          case Err(m) =>
            assert t == completing + deleting + maybeAbort;
            CountAppendAll(completing + deleting, maybeAbort);
          case Ok(_) =>
            assert t == completing + deleting + abort;
            CountAppendAll(completing + deleting, abort);
        } else {
          assert t == completing;
        }
    }
  }

  lemma CountSingleAll(x: Call)
    ensures forall cmd :: Count([x], cmd) == if x.Command() == cmd then 1 else 0
  {
    forall cmd ensures Count([x], cmd) == if x.Command() == cmd then 1 else 0 {
      CountSingle(x, cmd);
    }
  }

  lemma CountAppendAll(a: seq<Call>, b: seq<Call>)
    ensures forall cmd :: Count(a + b, cmd) == Count(a, cmd) + Count(b, cmd)
  {
    forall cmd ensures Count(a + b, cmd) == Count(a, cmd) + Count(b, cmd) {
      CountAppend(a, b, cmd);
    }
  }

  /** The requests of a session whose upload was created: the creation, one
      upload per part, then the tail. */
  lemma SessionOnceCreated(b: Backend, h: Hashes, file: File, random: Bytes)
    requires |random| == 8
    requires b.create(GenerateFileName(file.originalName, random)).Ok?
    ensures var key := GenerateFileName(file.originalName, random);
      var uploadId := b.create(key).value;
      var partETags := Fulfilled(Settled(b, h, key, uploadId, file.buffer));
      var etag := ETag.ExpectedETag(h.md5, file.buffer, PartSize);
      var c := Conclude(b, key, uploadId, partETags, PartCount(file.buffer), etag);
      var run := Session(b, h, file, random);
      && run.calls == [CreateCall(key)] + Dispatched(h, key, uploadId, file.buffer)
                      + Tail(b, key, uploadId, partETags, PartCount(file.buffer), etag)
      && run.outcome == (if c.Threw? then Failed(key, c.message) else c.outcome)
  {
    var key := GenerateFileName(file.originalName, random);
    var uploadId := b.create(key).value;
    var partETags := Fulfilled(Settled(b, h, key, uploadId, file.buffer));
    var etag := ETag.ExpectedETag(h.md5, file.buffer, PartSize);
    var c := Conclude(b, key, uploadId, partETags, PartCount(file.buffer), etag);
    var started := [CreateCall(key)] + Dispatched(h, key, uploadId, file.buffer);
    assert TryBlock(b, h, key, file.buffer, etag) == After(started, c);
    AppendAssoc(started, c.calls, if c.Threw? then AbortIfStarted(key, uploadId) else []);
  }

  /** Counting the requests of a session whose upload was created. */
  lemma CountOnceCreated(b: Backend, h: Hashes, file: File, random: Bytes, cmd: Command)
    requires |random| == 8
    requires b.create(GenerateFileName(file.originalName, random)).Ok?
    ensures var key := GenerateFileName(file.originalName, random);
      var uploadId := b.create(key).value;
      var t := Tail(b, key, uploadId, Fulfilled(Settled(b, h, key, uploadId, file.buffer)),
                    PartCount(file.buffer), ETag.ExpectedETag(h.md5, file.buffer, PartSize));
      Count(Session(b, h, file, random).calls, cmd)
        == (if cmd == Create then 1 else 0) + (if cmd == Upload then PartCount(file.buffer) else 0) + Count(t, cmd)
  {
    var key := GenerateFileName(file.originalName, random);
    var uploadId := b.create(key).value;
    var t := Tail(b, key, uploadId, Fulfilled(Settled(b, h, key, uploadId, file.buffer)),
                  PartCount(file.buffer), ETag.ExpectedETag(h.md5, file.buffer, PartSize));
    var d := Dispatched(h, key, uploadId, file.buffer);
    assert |d| == PartCount(file.buffer) && forall k :: 0 <= k < |d| ==> d[k].UploadPartCall?;
    CountStarted(key, d, t, cmd);
    SessionOnceCreated(b, h, file, random);
  }

  lemma CountStarted(key: string, d: seq<Call>, t: seq<Call>, cmd: Command)
    requires forall k :: 0 <= k < |d| ==> d[k].UploadPartCall?
    ensures Count([CreateCall(key)] + d + t, cmd)
      == (if cmd == Create then 1 else 0) + (if cmd == Upload then |d| else 0) + Count(t, cmd)
  {
    CountAppend([CreateCall(key)] + d, t, cmd);
    CountAppend([CreateCall(key)], d, cmd);
    CountUploadsOnly(d, cmd);
    CountSingle(CreateCall(key), cmd);
  }

  /** Every part settles fulfilled exactly when the backend accepted every
      part upload, and then `partETags` holds all of them, numbered 1..n in
      order. */
  lemma PartETagsComplete(b: Backend, h: Hashes, key: string, uploadId: string, buffer: Bytes)
    ensures var partETags := Fulfilled(Settled(b, h, key, uploadId, buffer));
      |partETags| == PartCount(buffer) <==> AllPartsUploaded(b, h, key, uploadId, buffer)
    ensures AllPartsUploaded(b, h, key, uploadId, buffer) ==>
      var partETags := Fulfilled(Settled(b, h, key, uploadId, buffer));
      forall j :: 0 <= j < PartCount(buffer) ==>
        partETags[j] == CompletedPart(j + 1,
          b.uploadPart(key, uploadId, j + 1, PartOf(buffer, j), h.sha256(PartOf(buffer, j))).value,
          h.sha256(PartOf(buffer, j)))
  {
    var settled := Settled(b, h, key, uploadId, buffer);
    FulfilledAllOk(settled);
    assert forall i :: 0 <= i < |settled| ==>
      (settled[i].Ok? <==> b.uploadPart(key, uploadId, i + 1, PartOf(buffer, i), h.sha256(PartOf(buffer, i))).Ok?);
  }

  // ---------------------------------------------------------------------------
  // What one session sends and records

  /** The multipart upload was created, every part was accepted, the
      completion was accepted, and the completed object's tag equals the tag
      computed locally. */
  predicate Verified(b: Backend, h: Hashes, file: File, random: Bytes)
    requires |random| == 8
  {
    var key := GenerateFileName(file.originalName, random);
    && b.create(key).Ok?
    && var uploadId := b.create(key).value;
    && AllPartsUploaded(b, h, key, uploadId, file.buffer)
    && var done := b.complete(key, uploadId, Fulfilled(Settled(b, h, key, uploadId, file.buffer)));
    && done.Ok?
    && done.value.etag == ETag.ExpectedETag(h.md5, file.buffer, PartSize)
  }

  /** A failed creation is thrown before an upload id is known: nothing
      follows the creation request, no abort is sent, and the backend's
      message is recorded as the error. */
  lemma CreateFailureRecordsMessage(b: Backend, h: Hashes, file: File, random: Bytes)
    requires |random| == 8
    requires b.create(GenerateFileName(file.originalName, random)).Err?
    ensures var key := GenerateFileName(file.originalName, random);
      Session(b, h, file, random) == SessionRun(Failed(key, b.create(key).message), [CreateCall(key)])
  {
  }

  /** Part uploads are sent one per part of the ETag partition, numbered
      from 1, each carrying the SHA-256 of exactly its own bytes; together
      the bodies are the whole buffer, every part but the last is 5 MiB and
      none is empty or larger. */
  lemma DispatchFollowsPartition(h: Hashes, key: string, uploadId: string, buffer: Bytes)
    ensures var d := Dispatched(h, key, uploadId, buffer);
      var parts := ETag.Parts(buffer, PartSize);
      && |d| == |parts| == PartCount(buffer)
      && (|d| == 0 <==> |buffer| == 0)
      && (forall j :: 0 <= j < |d| ==> d[j] == UploadPartCall(key, uploadId, j + 1, parts[j], h.sha256(parts[j])))
      && (forall j :: 0 <= j < |parts| ==> 0 < |parts[j]| <= PartSize)
      && (forall j :: 0 <= j < |parts| - 1 ==> |parts[j]| == PartSize)
      && Concat(parts) == buffer
  {
    var d := Dispatched(h, key, uploadId, buffer);
    var parts := ETag.Parts(buffer, PartSize);
    ETag.PartLengths(buffer, PartSize);
    ETag.PartsConcat(buffer, PartSize);
    forall j | 0 <= j < |d|
      ensures d[j] == UploadPartCall(key, uploadId, j + 1, parts[j], h.sha256(parts[j]))
    {
      assert PartOf(buffer, j) == parts[j];
    }
  }

  /** Some part upload was rejected: the session aborts the upload, sends
      no completion, and records "Upload failed for some parts". */
  lemma PartFailureAborts(b: Backend, h: Hashes, file: File, random: Bytes)
    requires |random| == 8
    requires var key := GenerateFileName(file.originalName, random);
      b.create(key).Ok? && !AllPartsUploaded(b, h, key, b.create(key).value, file.buffer)
    ensures var key := GenerateFileName(file.originalName, random);
      var uploadId := b.create(key).value;
      var run := Session(b, h, file, random);
      && run.outcome == Failed(key, "Upload failed for some parts")
      && run.calls == [CreateCall(key)] + Dispatched(h, key, uploadId, file.buffer) + [AbortCall(key, uploadId)]
  {
    var key := GenerateFileName(file.originalName, random);
    var uploadId := b.create(key).value;
    SessionOnceCreated(b, h, file, random);
    PartETagsComplete(b, h, key, uploadId, file.buffer);
  }

  /** The completion request is sent exactly when the upload was created and
      every part was accepted, and never more than once. */
  lemma CompleteOnlyWhenAllPartsUploaded(b: Backend, h: Hashes, file: File, random: Bytes)
    requires |random| == 8
    ensures var key := GenerateFileName(file.originalName, random);
      Count(Session(b, h, file, random).calls, Complete)
        == if b.create(key).Ok? && AllPartsUploaded(b, h, key, b.create(key).value, file.buffer) then 1 else 0
  {
    var key := GenerateFileName(file.originalName, random);
    match b.create(key)
    case Err(_) =>
      CountSingle(CreateCall(key), Complete);
    case Ok(uploadId) =>
      var partETags := Fulfilled(Settled(b, h, key, uploadId, file.buffer));
      var etag := ETag.ExpectedETag(h.md5, file.buffer, PartSize);
      CountOnceCreated(b, h, file, random, Complete);
      TailFacts(b, key, uploadId, partETags, PartCount(file.buffer), etag);
      PartETagsComplete(b, h, key, uploadId, file.buffer);
  }

  /** The completion request lists every part, numbered 1..n in part order,
      with the tag the backend returned for that part and the checksum of
      its bytes; it is sent right after the last part upload. */
  lemma CompletionListsPartsInOrder(b: Backend, h: Hashes, file: File, random: Bytes)
    requires |random| == 8
    requires var key := GenerateFileName(file.originalName, random);
      b.create(key).Ok? && AllPartsUploaded(b, h, key, b.create(key).value, file.buffer)
    ensures var key := GenerateFileName(file.originalName, random);
      var uploadId := b.create(key).value;
      var n := PartCount(file.buffer);
      var calls := Session(b, h, file, random).calls;
      && 1 + n < |calls|
      && calls[0] == CreateCall(key)
      && calls[1 + n].CompleteCall? && calls[1 + n].key == key && calls[1 + n].uploadId == uploadId
      && |calls[1 + n].parts| == n
      && forall j :: 0 <= j < n ==>
           calls[1 + n].parts[j] == CompletedPart(j + 1,
             b.uploadPart(key, uploadId, j + 1, PartOf(file.buffer, j), h.sha256(PartOf(file.buffer, j))).value,
             h.sha256(PartOf(file.buffer, j)))
  {
    var key := GenerateFileName(file.originalName, random);
    var uploadId := b.create(key).value;
    var partETags := Fulfilled(Settled(b, h, key, uploadId, file.buffer));
    var etag := ETag.ExpectedETag(h.md5, file.buffer, PartSize);
    var d := Dispatched(h, key, uploadId, file.buffer);
    var t := Tail(b, key, uploadId, partETags, PartCount(file.buffer), etag);
    SessionOnceCreated(b, h, file, random);
    TailFacts(b, key, uploadId, partETags, PartCount(file.buffer), etag);
    PartETagsComplete(b, h, key, uploadId, file.buffer);
    assert ([CreateCall(key)] + d + t)[1 + |d|] == t[0];
    assert ([CreateCall(key)] + d + t)[0] == CreateCall(key);
  }

  /** A session succeeds exactly when the upload is verified; it then
      records "Upload completed" having sent the creation, the part uploads
      and the completion, and neither deletes nor aborts anything. */
  lemma SucceedsIffVerified(b: Backend, h: Hashes, file: File, random: Bytes)
    requires |random| == 8
    ensures Session(b, h, file, random).outcome.Succeeded? <==> Verified(b, h, file, random)
    ensures Verified(b, h, file, random) ==>
      var key := GenerateFileName(file.originalName, random);
      var uploadId := b.create(key).value;
      var run := Session(b, h, file, random);
      && run.outcome == Succeeded(key, "Upload completed")
      && run.calls == [CreateCall(key)] + Dispatched(h, key, uploadId, file.buffer)
                      + [CompleteCall(key, uploadId, Fulfilled(Settled(b, h, key, uploadId, file.buffer)))]
  {
    var key := GenerateFileName(file.originalName, random);
    if b.create(key).Ok? {
      var uploadId := b.create(key).value;
      SessionOnceCreated(b, h, file, random);
      PartETagsComplete(b, h, key, uploadId, file.buffer);
    }
  }

  /** The completion was accepted but the completed object's tag differs
      from the local one: the session deletes the object, then aborts the
      upload and records "ETag mismatch". When the delete itself fails, its
      error is what is recorded, and the catch block aborts instead (only
      when an upload id is known). */
  lemma MismatchCompensates(b: Backend, h: Hashes, file: File, random: Bytes)
    requires |random| == 8
    requires var key := GenerateFileName(file.originalName, random);
      && b.create(key).Ok?
      && var uploadId := b.create(key).value;
      && AllPartsUploaded(b, h, key, uploadId, file.buffer)
      && var done := b.complete(key, uploadId, Fulfilled(Settled(b, h, key, uploadId, file.buffer)));
      && done.Ok? && done.value.etag != ETag.ExpectedETag(h.md5, file.buffer, PartSize)
    ensures var key := GenerateFileName(file.originalName, random);
      var uploadId := b.create(key).value;
      var partETags := Fulfilled(Settled(b, h, key, uploadId, file.buffer));
      var stored := b.complete(key, uploadId, partETags).value.key;
      var deleted := b.delete(stored);
      var run := Session(b, h, file, random);
      && run.calls == [CreateCall(key)] + Dispatched(h, key, uploadId, file.buffer)
                      + [CompleteCall(key, uploadId, partETags), DeleteCall(stored)]
                      + (if deleted.Ok? then [AbortCall(key, uploadId)] else AbortIfStarted(key, uploadId))
      && run.outcome == Failed(key, if deleted.Ok? then "ETag mismatch" else deleted.message)
  {
    var key := GenerateFileName(file.originalName, random);
    var uploadId := b.create(key).value;
    var partETags := Fulfilled(Settled(b, h, key, uploadId, file.buffer));
    var stored := b.complete(key, uploadId, partETags).value.key;
    PartETagsComplete(b, h, key, uploadId, file.buffer);
    SessionOnceCreated(b, h, file, random);
    assert [CompleteCall(key, uploadId, partETags)] + [DeleteCall(stored)]
      == [CompleteCall(key, uploadId, partETags), DeleteCall(stored)];
  }

  /** A rejected completion is thrown: the catch block records the
      backend's message and aborts the upload when an upload id is known. */
  lemma CompleteFailureAborts(b: Backend, h: Hashes, file: File, random: Bytes)
    requires |random| == 8
    requires var key := GenerateFileName(file.originalName, random);
      && b.create(key).Ok?
      && var uploadId := b.create(key).value;
      && AllPartsUploaded(b, h, key, uploadId, file.buffer)
      && b.complete(key, uploadId, Fulfilled(Settled(b, h, key, uploadId, file.buffer))).Err?
    ensures var key := GenerateFileName(file.originalName, random);
      var uploadId := b.create(key).value;
      var partETags := Fulfilled(Settled(b, h, key, uploadId, file.buffer));
      var run := Session(b, h, file, random);
      && run.calls == [CreateCall(key)] + Dispatched(h, key, uploadId, file.buffer)
                      + [CompleteCall(key, uploadId, partETags)] + AbortIfStarted(key, uploadId)
      && run.outcome == Failed(key, b.complete(key, uploadId, partETags).message)
  {
    var key := GenerateFileName(file.originalName, random);
    var uploadId := b.create(key).value;
    PartETagsComplete(b, h, key, uploadId, file.buffer);
    SessionOnceCreated(b, h, file, random);
  }

  /** A session sends at most one abort, always for its own upload and
      always as its last request, and at most one delete. */
  lemma AbortAtMostOnceAndLast(b: Backend, h: Hashes, file: File, random: Bytes)
    requires |random| == 8
    ensures var key := GenerateFileName(file.originalName, random);
      var calls := Session(b, h, file, random).calls;
      && Count(calls, Create) == 1
      && Count(calls, Abort) <= 1
      && Count(calls, Delete) <= 1
      && (Count(calls, Abort) == 1 ==>
            b.create(key).Ok? && calls[|calls| - 1] == AbortCall(key, b.create(key).value))
  {
    var key := GenerateFileName(file.originalName, random);
    match b.create(key)
    case Err(_) =>
      CountSingleAll(CreateCall(key));
    case Ok(uploadId) =>
      var partETags := Fulfilled(Settled(b, h, key, uploadId, file.buffer));
      var etag := ETag.ExpectedETag(h.md5, file.buffer, PartSize);
      var d := Dispatched(h, key, uploadId, file.buffer);
      var t := Tail(b, key, uploadId, partETags, PartCount(file.buffer), etag);
      SessionOnceCreated(b, h, file, random);
      TailFacts(b, key, uploadId, partETags, PartCount(file.buffer), etag);
      CountOnceCreated(b, h, file, random, Create);
      CountOnceCreated(b, h, file, random, Abort);
      CountOnceCreated(b, h, file, random, Delete);
      if Count(t, Abort) == 1 {
        assert ([CreateCall(key)] + d + t)[|[CreateCall(key)] + d + t| - 1] == t[|t| - 1];
      }
  }

  /** An empty file has no parts, so the session sends the creation and
      then at once a completion listing no parts; it succeeds exactly when
      the backend accepts that completion with the tag of the MD5 of no
      digests, suffixed "-0". */
  lemma EmptyFileSession(b: Backend, h: Hashes, file: File, random: Bytes)
    requires |random| == 8 && file.buffer == []
    requires b.create(GenerateFileName(file.originalName, random)).Ok?
    ensures var key := GenerateFileName(file.originalName, random);
      var uploadId := b.create(key).value;
      var run := Session(b, h, file, random);
      var done := b.complete(key, uploadId, []);
      && |run.calls| >= 2
      && run.calls[0] == CreateCall(key) && run.calls[1] == CompleteCall(key, uploadId, [])
      && (run.outcome.Succeeded? <==> done.Ok? && done.value.etag == ETag.Quote(Hex(h.md5([])) + "-0"))
  {
    EmptyFileCalls(b, h, file, random);
    SucceedsIffVerified(b, h, file, random);
    EmptyFileVerified(b, h, file, random);
  }

  lemma EmptyFileCalls(b: Backend, h: Hashes, file: File, random: Bytes)
    requires |random| == 8 && file.buffer == []
    requires b.create(GenerateFileName(file.originalName, random)).Ok?
    ensures var key := GenerateFileName(file.originalName, random);
      var calls := Session(b, h, file, random).calls;
      && |calls| >= 2
      && calls[0] == CreateCall(key) && calls[1] == CompleteCall(key, b.create(key).value, [])
  {
    var key := GenerateFileName(file.originalName, random);
    var uploadId := b.create(key).value;
    assert PartCount(file.buffer) == 0;
    assert AllPartsUploaded(b, h, key, uploadId, file.buffer);
    CompletionListsPartsInOrder(b, h, file, random);
  }

  lemma EmptyFileVerified(b: Backend, h: Hashes, file: File, random: Bytes)
    requires |random| == 8 && file.buffer == []
    requires b.create(GenerateFileName(file.originalName, random)).Ok?
    ensures var key := GenerateFileName(file.originalName, random);
      var done := b.complete(key, b.create(key).value, []);
      Verified(b, h, file, random) <==> done.Ok? && done.value.etag == ETag.Quote(Hex(h.md5([])) + "-0")
  {
    var key := GenerateFileName(file.originalName, random);
    var uploadId := b.create(key).value;
    ETag.EmptyBufferETag(h.md5, PartSize);
    assert ETag.ExpectedETag(h.md5, file.buffer, PartSize) == ETag.Quote(Hex(h.md5([])) + "-0");
    assert PartCount(file.buffer) == 0;
    assert Settled(b, h, key, uploadId, file.buffer) == [];
    assert Fulfilled(Settled(b, h, key, uploadId, file.buffer)) == [];
    assert AllPartsUploaded(b, h, key, uploadId, file.buffer);
  }

  /** A failed abort is only logged: what the backend answers to aborts
      changes neither the requests of a session nor its outcome. */
  lemma AbortRepliesIgnored(b: Backend, abort: (string, string) -> Result<()>, h: Hashes, file: File, random: Bytes)
    requires |random| == 8
    ensures Session(b.(abort := abort), h, file, random) == Session(b, h, file, random)
  {
    var b' := b.(abort := abort);
    var key := GenerateFileName(file.originalName, random);
    var etag := ETag.ExpectedETag(h.md5, file.buffer, PartSize);
    match b.create(key)
    case Err(_) =>
    case Ok(uploadId) =>
      assert Settled(b', h, key, uploadId, file.buffer) == Settled(b, h, key, uploadId, file.buffer);
      var partETags := Fulfilled(Settled(b, h, key, uploadId, file.buffer));
      assert Conclude(b', key, uploadId, partETags, PartCount(file.buffer), etag)
          == Conclude(b, key, uploadId, partETags, PartCount(file.buffer), etag);
  }
}
