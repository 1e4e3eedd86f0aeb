# Multipart upload with composite-ETag verification

This project models the upload path of a small file-storage service in
Dafny. A file goes to an S3-compatible backend as a multipart upload:

1. Create an upload session.
2. Cut the buffer into 5 MiB parts.
3. Upload every part with its SHA-256 checksum.
4. Complete the upload, but only if every part was accepted. Otherwise abort.
5. Compare the stored object's ETag with one computed locally. On a mismatch,
   delete the object and then abort.

Every file of a batch adds exactly one entry to a shared `{success, error}`
record.

Files:

- `encoding.dfy`: the byte type and the encodings the tags use. It has
  lower-case hex with its inverse, decimal numerals with their parser, and
  `Buffer.concat`.
- `etag.dfy`: `calculateETag` (src/utils/calculateETag.js). It contains the
  part partition, the digest loop and the composite tag format.
- `upload.dfy`: src/utils/upload.js.
  - Key generation.
  - One method per backend request.
  - The upload session as an imperative method, `HandleMultipartUpload`. It
    is proved against a pure specification function, `Session`.
  - The batch `UploadToS3`, proved against `BatchRuns`.
- `session_properties.dfy`: lemmas about `Session`. They say which requests a
  session sends, in what order, and what outcome it records, for every
  backend reply.

Some things are not computed by the model:

- MD5 and base64 SHA-256 are function parameters (`Hashes`).
- The 8 random bytes of each key are a parameter.
- The backend is a `Backend` value. It gives the reply to each request as a
  function of that request.
- An `S3Client` object logs every request sent, in order, in `sent`. The
  session contracts are stated over this log.

Two behaviours of the code are worth noting:

- **An empty buffer is not rejected.** It has zero parts, so the session
  sends a completion that lists no parts. The expected tag is the quoted hex
  MD5 of no bytes, followed by `-0` (`ETag.EmptyBufferETag`,
  `SessionProperties.EmptyFileSession`).
- **A failed delete during compensation is rethrown by `deleteFile`.** The
  session's catch block then records the delete's error message in place of
  "ETag mismatch", and it aborts only if an upload id is known
  (`SessionProperties.MismatchCompensates`).

## Model

| member | source | states |
|---|---|---|
| ETag.TotalParts | src/utils/calculateETag.js:10 | `Math.ceil(len / partSize)`: the fewest parts of `partSize` bytes that hold `len` bytes (`len <= n*partSize`, and `(n-1)*partSize < len` when `n > 0`) |
| ETag.Partition | src/utils/calculateETag.js:10-16 | part `i` is `[i*partSize, min(i*partSize+partSize, len))`; there are no parts iff `len == 0`; every part is non-empty and at most `partSize` long; every part but the last ends exactly where the next begins; the last ends at `len` |
| ETag.PartLengths | src/utils/calculateETag.js:13-16 | the sliced parts are non-empty and at most `partSize` long; all but the last are exactly `partSize` long; there are none iff the buffer is empty |
| ETag.PartsConcat | src/utils/calculateETag.js:13-16 | concatenating the parts in order gives back the buffer exactly, with no gap or overlap |
| ETag.CalculateETag | src/utils/calculateETag.js:9-32 | the loop pushes one digest per part in ascending part order; the returned tag is the composite tag of those digests; `partSize` defaults to 5 MiB |
| ETag.SinglePartETag | src/utils/calculateETag.js:23-24 | a buffer of 1..partSize bytes gets the quoted hex MD5 of the whole buffer, with no dash suffix |
| ETag.TwelveMiBETag | src/utils/calculateETag.js:10-31 | a 12 MiB buffer makes parts of 5, 5 and 2 MiB; its tag is the quoted hex MD5 of the three concatenated digests, suffixed `-3` |
| ETag.EmptyBufferETag | src/utils/calculateETag.js:10-31 | an empty buffer has zero digests and falls to the multipart branch: `"<hex md5 of no bytes>-0"` |
| ETag.DashMarksMultipart | src/utils/calculateETag.js:23-31 | the tag contains `-` iff the number of parts is not exactly one |
| Encoding.UnhexHex | src/utils/calculateETag.js:23-28 | the hex rendering of a digest reads back to the digest, two lower-case hex characters per byte |
| Encoding.HexInjective | src/utils/calculateETag.js:23-28 | different digests render as different hex strings |
| Encoding.ParseDecimalOfDecimal | src/utils/calculateETag.js:31 | the decimal part count in the tag reads back to the count and has no leading zero |
| Encoding.DecimalInjective | src/utils/calculateETag.js:31 | different part counts give different suffixes |
| Upload.ExtName | src/utils/upload.js:201-204 | `path.extname` of one path component: empty, or the suffix of the name from its last `.` |
| Upload.Stem | src/utils/upload.js:201 | `path.basename(name, ext)`: the stem followed by the extension is the name |
| Upload.GenerateFileName | src/utils/upload.js:199-206 | the key is 17 characters longer than the original name |
| Upload.KeyEncodesRandom | src/utils/upload.js:199-206 | the key is the stem, `_`, 16 lower-case hex characters that read back to the 8 random bytes, then the extension |
| Upload.KeyKeepsExtension | src/utils/upload.js:199-206 | the generated key has the same extension as the original name (for every name but `..`) |
| Upload.KeysDiffer | src/utils/upload.js:199-206 | the same name with different random bytes gives different keys |
| Upload.CreateMultiPartUpload | src/utils/upload.js:44-53 | sends one create request for the key; returns the upload id or the error |
| Upload.UploadPartS3 | src/utils/upload.js:55-75 | sends one upload-part request numbered `iteration + 1`, carrying the SHA-256 of exactly the bytes sent; settles to the record `{iteration+1, etag, checksum}`, or to the error `"Part <iteration+1> failed: <message>"` |
| Upload.AbortMultiPartUpload | src/utils/upload.js:77-88 | sends one abort request; never fails and returns nothing, whatever the backend answers |
| Upload.CompleteMultiPartUpload | src/utils/upload.js:169-181 | sends one completion request with the part list; returns the stored object's tag and key, or the error |
| Upload.DeleteFile | src/utils/upload.js:183-197 | sends one delete request for the key; its failure is returned to the caller, not swallowed |
| Upload.Fulfilled | src/utils/upload.js:122-135 | `partETags` keeps at most one record per settlement; its part numbers lie in `1..n` and strictly ascend |
| Upload.UploadParts | src/utils/upload.js:104-122 | the dispatch loop sends one upload per part in part order, over the slices of the default ETag partition; the settlements, indexed by part, are `Settled` |
| Upload.CollectPartETags | src/utils/upload.js:123-135 | the collection loop builds exactly `Fulfilled` of the settlements |
| Upload.ConcludeUpload | src/utils/upload.js:137-159 | complete and verify when all parts are there, else abort and record "Upload failed for some parts"; the requests sent, the entry appended, and the thrown message are those of `Conclude` |
| Upload.TryUpload | src/utils/upload.js:99-159 | the `try` block: the requests sent, the entry appended or the message thrown, and the upload id learnt are those of `TryBlock` |
| Upload.HandleMultipartUpload | src/utils/upload.js:90-167 | a session appends exactly one entry: the outcome of `Session`, to `success` if it succeeded and to `error` otherwise; the requests sent are `Session`'s |
| Upload.UploadToS3 | src/utils/upload.js:29-42 | a fresh `{success, error}` record gets the successes and the errors of one session per file, in file order; the requests sent are those of the sessions in turn |
| Upload.EntriesPartitionOutcomes | src/utils/upload.js:29-42 | `|success| + |error|` is the number of sessions, and together the two lists hold each session outcome exactly once |
| Upload.SessionOutcomeKey | src/utils/upload.js:142-166 | every entry a session records names the file's generated key |
| Upload.BatchAccountsForEveryFile | src/utils/upload.js:29-42 | every file adds exactly one entry, under its own key, to exactly one of `success` and `error` |
| SessionProperties.PartETagsComplete | src/utils/upload.js:122-137 | `partETags` holds all `totalParts` records iff the backend accepted every part; the records are then numbered `1..n` in part order, with the backend's tag and the part's checksum |
| SessionProperties.TailFacts | src/utils/upload.js:137-166 | after the part uploads, a session sends exactly one completion iff all parts are there, and a delete iff the completion's tag differs; it sends at most one abort, always as its last request |
| SessionProperties.SessionOnceCreated | src/utils/upload.js:99-166 | once created, a session sends the create request, then one upload per part, then the conclusion's requests; its outcome is the conclusion's, or the thrown message |
| SessionProperties.CountOnceCreated | src/utils/upload.js:99-166 | once created, a session sends one create request and exactly `totalParts` part uploads |
| SessionProperties.CreateFailureRecordsMessage | src/utils/upload.js:99-166 | when create fails, nothing else is sent, there is no abort (no upload id is known), and the create error's message is recorded |
| SessionProperties.DispatchFollowsPartition | src/utils/upload.js:93-119 | the session uses the default 5 MiB ETag partition: part `i` goes as part number `i+1` with its own checksum; the bodies concatenate to the buffer |
| SessionProperties.PartFailureAborts | src/utils/upload.js:137-158 | a rejected part means no completion; the session sends create, the part uploads and one abort, and records "Upload failed for some parts" |
| SessionProperties.CompleteOnlyWhenAllPartsUploaded | src/utils/upload.js:137-139 | the completion is sent, and only once, iff the upload was created and every part was accepted |
| SessionProperties.CompletionListsPartsInOrder | src/utils/upload.js:122-139 | the completion follows the last part upload and lists every part `1..n` in order, each with its backend tag and checksum |
| SessionProperties.SucceedsIffVerified | src/utils/upload.js:137-152 | a session succeeds iff every step was accepted and the stored tag equals the local one; it then records "Upload completed" and sends neither a delete nor an abort |
| SessionProperties.MismatchCompensates | src/utils/upload.js:142-197 | on a tag mismatch the session deletes the stored object before aborting and records "ETag mismatch"; if the delete fails, its error is recorded and the catch block aborts instead |
| SessionProperties.CompleteFailureAborts | src/utils/upload.js:139-166 | a rejected completion records the backend's message; the catch block aborts iff an upload id is known |
| SessionProperties.AbortAtMostOnceAndLast | src/utils/upload.js:137-166 | a session sends exactly one create request, at most one delete, and at most one abort, which is for its own upload and is its last request |
| SessionProperties.EmptyFileSession | src/utils/upload.js:94-139 | an empty file goes from create straight to a completion with no parts; it succeeds iff the backend accepts and returns `"<hex md5 of no bytes>-0"` |
| SessionProperties.AbortRepliesIgnored | src/utils/upload.js:77-88 | what the backend answers to aborts changes neither a session's requests nor its outcome |

## Left out

- Concurrency. `Promise.all` over files and `Promise.allSettled` over parts
  are modelled as sequential dispatch in index order. Settlements are
  indexed by part, as the code indexes them. Interleavings of appends to
  the shared record are not modelled.
- MD5, SHA-256, base64 and `crypto.randomBytes` are parameters. Whether two
  random draws collide is therefore outside the model.
- The S3 client, dotenv and the environment (bucket name, region,
  credentials, endpoint) are not modelled. Neither is the `s3.send`
  transport.
- Backend replies are fixed functions of the request. Two identical
  requests get the same reply.
- Backend behaviour is not modelled, such as S3 refusing a completion that
  lists no parts, or an abort after a completion finding no upload. It is
  whatever `Backend` says.
- Console logging is not modelled. Neither is the progress percentage,
  which is floating-point and display-only.
- Upload.ExtName: models `path.extname` for a name without `/`. It does not
  model directory components or the platform path rules.
- A create reply without an `UploadId` (JavaScript `undefined`) is not
  modelled. The upload id is always a string.
- src/server.js, src/config/multer.config.js and src/utils/crc32.js are not
  part of this model. They are HTTP routing, library configuration and an
  unused checksum wrapper.
- A zero-length buffer is not rejected, and part and file fan-out are not
  bounded. The code has neither feature.
