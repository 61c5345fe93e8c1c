/** The upload route (POST /api/process) and its job-status poll. The route decodes the
    multipart request, picks one direct request or a chunked upload of the first file,
    writes its progress and outcome to the processing-state register, and answers with
    the job id or an error. Every backend reply is an input: the session reply, the reply
    to chunk i, the direct-upload reply and each job-status reply. */
module ProcessRoute {
  import opened Text
  import opened Config
  import opened Multipart
  import opened Store

  // ---------------------------------------------------------------------------
  // Messages

  const NO_FILES_MESSAGE: string := "No video files provided"
  const NO_VALID_FILES_MESSAGE: string := "No valid video files found"
  const PREPARING_MESSAGE: string := "Preparing to upload videos..."
  const SESSION_FAILED_MESSAGE: string := "Failed to create upload session"
  const NO_JOB_ID_MESSAGE: string := "Failed to complete upload process - no job ID returned"
  const CHUNKED_FALLBACK_MESSAGE: string := "Failed to upload file in chunks"
  /** The TypeError Node.js throws for `file.size.toString()` when the entry is a string,
      which has no `size`. */
  const MISSING_SIZE_MESSAGE: string := "Cannot read properties of undefined (reading 'toString')"
  const DIRECT_FALLBACK_MESSAGE: string := "Failed to process videos"
  const TIMEOUT_MESSAGE: string := "Request timed out. The video files may be too large."
  const BUFFER_MESSAGE: string :=
    "Network buffer overflow. The video files are too large to send at once. Try uploading smaller files or fewer files at a time."
  const STATUS_FAILED_MESSAGE: string := "Failed to get processing status"
  const UNKNOWN_ERROR_MESSAGE: string := "Unknown error occurred"

  function ChunkFailedMessage(i: nat): string {
    "Failed to upload chunk " + Decimal(i + 1)
  }

  // ---------------------------------------------------------------------------
  // Requests, replies and responses

  /** What POST reads from the request: the parsed form, or the message of the error
      request.formData() threw. */
  datatype RequestBody = Unparsable(message: string) | Parsed(form: FormData)

  /** A JavaScript error as the catch blocks inspect it: its name, the code of its cause
      (None when there is no cause or it has no code) and its message. */
  datatype JsError = JsError(name: string, causeCode: Option<string>, message: string)

  /** The session request: it threw (network failure or unreadable body), was answered
      with a non-ok status, or created a session. */
  datatype SessionReply = SessionThrew(error: JsError) | SessionRejected | SessionCreated(sessionId: string)

  /** The reply to one chunk; a stored chunk may carry the job id (absent or "" when not). */
  datatype ChunkReply = ChunkThrew(error: JsError) | ChunkRejected | ChunkStored(jobId: Option<string>, message: Option<string>)

  /** What JSON.parse of a rejection body gives: nothing usable (a parse error, or null),
      or a value whose `error` property is read. */
  datatype JsonView = Unreadable | ErrorField(error: Option<string>)

  /** The reply to the direct batch upload. A DirectThrew covers a rejected fetch, the
      timeout abort and an unreadable success body. */
  datatype DirectReply =
    | DirectThrew(error: JsError)
    | DirectRejected(text: string, json: JsonView)
    | DirectAccepted(jobId: Option<string>, message: Option<string>)

  /** The backend's scripted replies for one POST. */
  datatype Backend = Backend(session: SessionReply, chunk: nat -> ChunkReply, direct: DirectReply)

  /** One chunk request: session, chunk index, chunk count and the chunk's bytes. */
  datatype ChunkRequest = ChunkRequest(sessionId: string, index: nat, total: nat, bytes: seq<byte>)

  datatype ResponseBody =
    | ErrorBody(error: string)
    | StartedBody(id: Option<string>, message: Option<string>)  // status is always "processing"

  datatype ApiResponse = ApiResponse(code: nat, body: ResponseBody)

  // ---------------------------------------------------------------------------
  // Decoding the form

  /** The text that parseInt receives for `formData.get("fileCount") || "0"`. */
  function FileCountText(v: Option<EntryValue>): string {
    if !Present(v) then "0"
    else match v.value
      case StringValue(s) => s
      case FileValue(_) => "[object File]"
  }

  /** The file count; None stands for NaN. */
  function FileCount(fd: FormData): Option<int> {
    ParseInt(FileCountText(Get(fd, "fileCount")))
  }

  /** The number of iterations of `for (i = 0; i < fileCount; i++)`: none for NaN or a
      negative count. */
  function LoopBound(count: Option<int>): nat {
    if count.Some? && count.value > 0 then count.value else 0
  }

  function VideoKey(i: nat): string {
    "video_" + Decimal(i)
  }

  /** `formData.get(key) || fallback`. */
  function ParamOr(fd: FormData, key: string, fallback: string): EntryValue {
    var v := Get(fd, key);
    if Present(v) then v.value else StringValue(fallback)
  }

  function DecodeParams(fd: FormData): Params {
    Params(
      ParamOr(fd, "minJumpDuration", "0.8"),
      ParamOr(fd, "maxJumpDuration", "4.0"),
      ParamOr(fd, "maxCpuUsage", "10"),
      ParamOr(fd, "numWorkers", "6"))
  }

  /** `formData.get(`video_${i}`)`. */
  function VideoAt(fd: FormData, i: nat): Option<EntryValue> {
    Get(fd, VideoKey(i))
  }

  /** The truthy entries under video_0 .. video_{n-1}, in index order. */
  function Collected(fd: FormData, n: nat): (files: seq<EntryValue>)
    ensures |files| <= n
  {
    if n == 0 then []
    else
      var v := VideoAt(fd, n - 1);
      Collected(fd, n - 1) + (if Present(v) then [v.value] else [])
  }

  /** The route's collecting loop. */
  method CollectFiles(fd: FormData, fileCount: Option<int>) returns (filesToProcess: seq<EntryValue>)
    ensures filesToProcess == Collected(fd, LoopBound(fileCount))
  {
    filesToProcess := [];
    var i := 0;
    while i < LoopBound(fileCount)
      invariant 0 <= i <= LoopBound(fileCount)
      invariant filesToProcess == Collected(fd, i)
    {
      var videoFile := VideoAt(fd, i);
      if Present(videoFile) {
        filesToProcess := filesToProcess + [videoFile.value];
      }
      i := i + 1;
    }
  }

  /** When every key video_0 .. video_{n-1} holds a truthy value, those values are collected. */
  lemma {:induction false} CollectedPrefix(fd: FormData, n: nat, values: seq<EntryValue>)
    requires |values| >= n
    requires forall i {:trigger VideoAt(fd, i)} :: 0 <= i < n ==> VideoAt(fd, i) == Some(values[i]) && Present(Some(values[i]))
    ensures Collected(fd, n) == values[..n]
  {
    if n > 0 {
      forall i | 0 <= i < n - 1
        ensures VideoAt(fd, i) == Some(values[i]) && Present(Some(values[i]))
      {
        assert VideoAt(fd, i) == Some(values[i]);
      }
      CollectedPrefix(fd, n - 1, values);
      var v := VideoAt(fd, n - 1);
      assert v == Some(values[n - 1]) && Present(v);
      assert values[..n] == values[..n - 1] + [values[n - 1]];
    }
  }

  /** When every key video_0 .. video_{n-1} holds a file, all of them are collected, in order. */
  lemma CollectedAll(fd: FormData, n: nat, files: seq<File>)
    requires |files| >= n
    requires forall i :: 0 <= i < n ==> VideoAt(fd, i) == Some(FileValue(files[i]))
    ensures Collected(fd, n) == seq(n, i requires 0 <= i < n => FileValue(files[i]))
  {
    var values := seq(n, i requires 0 <= i < n => FileValue(files[i]));
    CollectedPrefix(fd, n, values);
    assert values[..n] == values;
  }

  // ---------------------------------------------------------------------------
  // Strategy

  function EntryName(v: EntryValue): Option<string> {
    if v.FileValue? then Some(v.file.name) else None
  }

  /** `${file.name}` in a template: "undefined" for an entry that is not a file. */
  function EntryNameText(v: EntryValue): string {
    if v.FileValue? then v.file.name else "undefined"
  }

  /** The bytes `file.slice` reads. Only a file reaches the chunk loop: for a string entry
      the session request already throws on its missing `size`, so the empty sequence given
      for other entries is never sent. */
  function EntryData(v: EntryValue): seq<byte> {
    if v.FileValue? then v.file.data else []
  }

  /** `file.size > MAX_DIRECT_UPLOAD_SIZE`; false for an entry without a size. */
  predicate IsLarge(v: EntryValue) {
    v.FileValue? && v.file.Size() > MAX_DIRECT_UPLOAD_SIZE
  }

  predicate ShouldUseChunkedUpload(files: seq<EntryValue>) {
    exists i :: 0 <= i < |files| && IsLarge(files[i])
  }

  // ---------------------------------------------------------------------------
  // Chunks

  /** The integer quotient of a by b. */
  function Quotient(a: nat, b: nat): nat
    requires b > 0
    decreases a
  {
    if a < b then 0 else 1 + Quotient(a - b, b)
  }

  /** The quotient is the largest q with q * b <= a. */
  lemma {:induction false} QuotientBounds(a: nat, b: nat)
    requires b > 0
    ensures Quotient(a, b) * b <= a < Quotient(a, b) * b + b
    decreases a
  {
    if a >= b {
      QuotientBounds(a - b, b);
      var q := Quotient(a - b, b);
      assert (q + 1) * b == q * b + b;
    }
  }

  /** Math.ceil(size / CHUNK_SIZE). */
  function TotalChunks(size: nat): nat {
    Quotient(size + CHUNK_SIZE - 1, CHUNK_SIZE)
  }

  /** TotalChunks is the least n with n chunks covering the size. */
  lemma TotalChunksBounds(size: nat)
    ensures var n := TotalChunks(size); n * CHUNK_SIZE >= size && (n > 0 ==> (n - 1) * CHUNK_SIZE < size)
  {
    var n := TotalChunks(size);
    QuotientBounds(size + CHUNK_SIZE - 1, CHUNK_SIZE);
    if n > 0 {
      assert (n - 1) * CHUNK_SIZE == n * CHUNK_SIZE - CHUNK_SIZE;
    }
  }

  function ChunkStart(i: nat): nat {
    i * CHUNK_SIZE
  }

  /** Math.min(start + CHUNK_SIZE, size). */
  function ChunkEnd(i: nat, size: nat): nat {
    if ChunkStart(i) + CHUNK_SIZE < size then ChunkStart(i) + CHUNK_SIZE else size
  }

  /** Chunk i's range lies inside the file, is not empty, and only the last one is short. */
  lemma ChunkRange(i: nat, size: nat)
    requires i < TotalChunks(size)
    ensures ChunkStart(i) < ChunkEnd(i, size) <= size
    ensures i + 1 < TotalChunks(size) ==> ChunkEnd(i, size) - ChunkStart(i) == CHUNK_SIZE
    ensures i + 1 < TotalChunks(size) ==> ChunkEnd(i, size) == ChunkStart(i + 1)
    ensures i + 1 == TotalChunks(size) ==> ChunkEnd(i, size) == size
  {
    var n := TotalChunks(size);
    TotalChunksBounds(size);
    assert i * CHUNK_SIZE <= (n - 1) * CHUNK_SIZE;
    if i + 1 < n {
      assert (i + 1) * CHUNK_SIZE <= (n - 1) * CHUNK_SIZE;
    }
  }

  /** `file.slice(start, end)` for chunk i. */
  function ChunkBytes(data: seq<byte>, i: nat): seq<byte>
    requires i < TotalChunks(|data|)
  {
    ChunkRange(i, |data|);
    data[ChunkStart(i)..ChunkEnd(i, |data|)]
  }

  /** The bytes of the first k chunks, in order. */
  function Assembled(data: seq<byte>, k: nat): seq<byte>
    requires k <= TotalChunks(|data|)
  {
    if k == 0 then [] else Assembled(data, k - 1) + ChunkBytes(data, k - 1)
  }

  /** The first k chunks are the file's first min(k * CHUNK_SIZE, size) bytes. */
  lemma {:induction false} AssembledPrefix(data: seq<byte>, k: nat)
    requires k <= TotalChunks(|data|)
    ensures k > 0 ==> Assembled(data, k) == data[..ChunkEnd(k - 1, |data|)]
  {
    if k > 1 {
      AssembledPrefix(data, k - 1);
      ChunkRange(k - 2, |data|);
      ChunkRange(k - 1, |data|);
      assert data[..ChunkEnd(k - 1, |data|)]
        == data[..ChunkEnd(k - 2, |data|)] + data[ChunkStart(k - 1)..ChunkEnd(k - 1, |data|)];
    } else if k == 1 {
      assert Assembled(data, 1) == [] + ChunkBytes(data, 0);
    }
  }

  /** The chunks, put back together in index order, are the file. */
  lemma ChunksReassemble(data: seq<byte>)
    ensures Assembled(data, TotalChunks(|data|)) == data
  {
    var n := TotalChunks(|data|);
    AssembledPrefix(data, n);
    if n > 0 {
      ChunkRange(n - 1, |data|);
    } else {
      assert |data| == 0;
    }
  }

  /** A file large enough to be sent in chunks is sent in at least three. */
  lemma LargeFileChunkCount(size: nat)
    requires size > MAX_DIRECT_UPLOAD_SIZE
    ensures TotalChunks(size) >= 3
  {
    TotalChunksBounds(size);
    ConfigValues();
    MulCancel(2, TotalChunks(size), CHUNK_SIZE);
  }

  // ---------------------------------------------------------------------------
  // Progress

  lemma {:induction false} MulMonotone(a: nat, b: nat, c: nat)
    ensures a <= b ==> a * c <= b * c
  {
    if c > 0 {
      MulMonotone(a, b, c - 1);
      assert a * c == a * (c - 1) + a && b * c == b * (c - 1) + b;
    }
  }

  /** A product that is smaller for the same positive factor has the smaller cofactor. */
  lemma MulCancel(a: nat, b: nat, c: nat)
    requires a * c < b * c
    ensures a < b
  {
    MulMonotone(b, a, c);
  }

  /** A product below the next multiple has at most the same cofactor. */
  lemma MulCancelSucc(a: nat, b: nat, c: nat)
    requires a * c < b * c + c
    ensures a <= b
  {
    assert (b + 1) * c == b * c + c;
    MulCancel(a, b + 1, c);
  }

  /** Math.round(num / den) for num >= 0, den > 0: num / den + 1/2, rounded down. */
  function RoundDiv(num: nat, den: nat): nat
    requires den > 0
  {
    Quotient(2 * num + den, 2 * den)
  }

  /** RoundDiv is the nearest integer, a half rounded up: the r with
      r - 1/2 <= num / den < r + 1/2. */
  lemma RoundDivNearest(num: nat, den: nat)
    requires den > 0
    ensures var r := RoundDiv(num, den); 2 * (r * den) <= 2 * num + den < 2 * (r * den) + 2 * den
  {
    var r := RoundDiv(num, den);
    QuotientBounds(2 * num + den, 2 * den);
    assert r * (2 * den) == 2 * (r * den);
  }

  /** `Math.round((chunkIndex / totalChunks) * 100)`. */
  function UploadProgress(i: nat, total: nat): nat
    requires total > 0
  {
    RoundDiv(100 * i, total)
  }

  lemma RoundDivMonotone(a: nat, b: nat, den: nat)
    requires den > 0 && a <= b
    ensures RoundDiv(a, den) <= RoundDiv(b, den)
  {
    var ra, rb := RoundDiv(a, den), RoundDiv(b, den);
    RoundDivNearest(a, den);
    RoundDivNearest(b, den);
    MulCancelSucc(ra, rb, den);
  }

  /** The progress before chunk 0 is 0, it never decreases, and it stays within 0..100. */
  lemma UploadProgressShape(i: nat, j: nat, total: nat)
    requires 0 < total && i <= j <= total
    ensures UploadProgress(0, total) == 0
    ensures UploadProgress(i, total) <= UploadProgress(j, total) <= 100
  {
    RoundDivMonotone(100 * i, 100 * j, total);
    var r := RoundDiv(100 * j, total);
    RoundDivNearest(100 * j, total);
    MulMonotone(j, total, 100);
    MulCancel(r, 101, total);
    var z := RoundDiv(0, total);
    RoundDivNearest(0, total);
    MulCancel(z, 1, total);
  }

  /** The progress written before the last chunk rounds up to 100 exactly when there are at
      least 200 chunks. */
  lemma LastChunkProgress(total: nat)
    requires total > 0
    ensures UploadProgress(total - 1, total) == 100 <==> total >= 200
  {
    var r := UploadProgress(total - 1, total);
    RoundDivNearest(100 * (total - 1), total);
    if total >= 200 {
      MulCancel(r, 101, total);
      MulCancel(99, r, total);
    } else {
      MulCancel(r, 100, total);
    }
  }

  // ---------------------------------------------------------------------------
  // Store messages

  /** `(size / (1024 * 1024)).toFixed(2)`: the size in MB rounded to hundredths, halves up. */
  function MegabytesText(size: nat): string {
    var hundredths := RoundDiv(100 * size, 1024 * 1024);
    var cents := hundredths % 100;
    Decimal(hundredths / 100) + "." + (if cents < 10 then "0" else "") + Decimal(cents)
  }

  /** The same figure for an entry without a size. */
  function EntrySizeText(v: EntryValue): string {
    if v.FileValue? then MegabytesText(v.file.Size()) else "NaN"
  }

  function ChunkedPrepMessage(v: EntryValue): string {
    "Preparing to upload " + EntryNameText(v) + " in chunks (" + EntrySizeText(v) + "MB)..."
  }

  function ChunkMessage(i: nat, total: nat): string {
    "Uploading chunk " + Decimal(i + 1) + " of " + Decimal(total) + "..."
  }

  function DirectMessage(n: nat): string {
    "Uploading " + Decimal(n) + " file(s)..."
  }

  function BatchProcessingMessage(n: nat): string {
    "Processing " + Decimal(n) + " videos..."
  }

  /** The update written before chunk i is sent. */
  function ChunkProgressOp(i: nat, total: nat): StoreOp
    requires total > 0
  {
    UpdateOp(Progressing(Uploading, ChunkMessage(i, total), UploadProgress(i, total)))
  }

  /** The record written once the backend has accepted a job. */
  function ProcessingRecord(id: Option<string>, videoPath: Option<string>, message: string, params: Params): ProcessingState {
    ProcessingState(id, videoPath, Some("output"), Processing, Some(message), None, Some(params), None, None)
  }

  const PreparingRecord: ProcessingState := Bare(Preparing, Some(PREPARING_MESSAGE))

  // ---------------------------------------------------------------------------
  // The chunk loop, as a specification

  /** How the chunk loop ends: with a job id and the reply's message, or with the message of
      the error it throws. */
  datatype Upload = Uploaded(jobId: string, message: Option<string>) | UploadFailed(reason: string)

  /** The store calls, the chunk requests and the result of the loop from one index on. */
  datatype ChunkRun = ChunkRun(ops: seq<StoreOp>, sent: seq<ChunkRequest>, result: Upload)

  /** What the reply to chunk i decides: None to go on with the next chunk, or how the
      loop ends. */
  function ChunkVerdict(r: ChunkReply, i: nat): Option<Upload> {
    match r
    case ChunkThrew(e) => Some(UploadFailed(e.message))
    case ChunkRejected => Some(UploadFailed(ChunkFailedMessage(i)))
    case ChunkStored(jobId, message) => if Truthy(jobId) then Some(Uploaded(jobId.value, message)) else None
  }

  /** The loop from chunk i: write the progress, send the chunk, then stop on a thrown
      error, a non-ok reply or a reply with a job id; after the last chunk without a job id,
      fail. */
  function RunChunks(sid: string, data: seq<byte>, reply: nat -> ChunkReply, i: nat): (run: ChunkRun)
    requires i <= TotalChunks(|data|)
    ensures |run.sent| == |run.ops| <= TotalChunks(|data|) - i
    decreases TotalChunks(|data|) - i
  {
    var total := TotalChunks(|data|);
    if i == total then ChunkRun([], [], UploadFailed(NO_JOB_ID_MESSAGE))
    else
      var op := ChunkProgressOp(i, total);
      var request := ChunkRequest(sid, i, total, ChunkBytes(data, i));
      var verdict := ChunkVerdict(reply(i), i);
      if verdict.Some? then ChunkRun([op], [request], verdict.value)
      else
        var rest := RunChunks(sid, data, reply, i + 1);
        ChunkRun([op] + rest.ops, [request] + rest.sent, rest.result)
  }

  /** The run from a chunk that is not past the end opens with that chunk's progress and
      request, and goes on with the next chunk exactly when the reply decides nothing. */
  lemma RunChunksHead(sid: string, data: seq<byte>, reply: nat -> ChunkReply, i: nat)
    requires i < TotalChunks(|data|)
    ensures var total := TotalChunks(|data|);
      var run := RunChunks(sid, data, reply, i);
      && run.sent != [] && run.sent[0] == ChunkRequest(sid, i, total, ChunkBytes(data, i))
      && run.ops[0] == ChunkProgressOp(i, total)
      && (|run.sent| > 1 ==>
            run.sent[1..] == RunChunks(sid, data, reply, i + 1).sent
            && run.ops[1..] == RunChunks(sid, data, reply, i + 1).ops)
  {
    var run := RunChunks(sid, data, reply, i);
    if ChunkVerdict(reply(i), i).None? {
      var rest := RunChunks(sid, data, reply, i + 1);
      assert run.sent[1..] == rest.sent && run.ops[1..] == rest.ops;
    }
  }

  /** Entry j of a run is chunk k: its request carries that chunk with its index and the
      total, and the update before it is that chunk's progress. */
  predicate SendsChunk(run: ChunkRun, j: nat, sid: string, data: seq<byte>, k: nat) {
    var total := TotalChunks(|data|);
    && k < total && j < |run.sent| && j < |run.ops|
    && run.sent[j] == ChunkRequest(sid, k, total, ChunkBytes(data, k))
    && run.ops[j] == ChunkProgressOp(k, total)
  }

  /** Request k - i of the run from chunk i is chunk k. */
  lemma {:induction false} RunChunksSent(sid: string, data: seq<byte>, reply: nat -> ChunkReply, i: nat, k: nat)
    requires i <= k && i <= TotalChunks(|data|)
    requires k - i < |RunChunks(sid, data, reply, i).sent|
    ensures SendsChunk(RunChunks(sid, data, reply, i), k - i, sid, data, k)
    decreases k - i
  {
    var run := RunChunks(sid, data, reply, i);
    assert i < TotalChunks(|data|);
    RunChunksHead(sid, data, reply, i);
    var total := TotalChunks(|data|);
    if i < k {
      var rest := RunChunks(sid, data, reply, i + 1);
      RunChunksSent(sid, data, reply, i + 1, k);
      var j := k - (i + 1);
      assert k - i == j + 1;
      assert run.sent[j + 1] == rest.sent[j] && run.ops[j + 1] == rest.ops[j];
      assert k < total;
      assert k - i < |run.sent| && k - i < |run.ops|;
      assert run.sent[k - i] == ChunkRequest(sid, k, total, ChunkBytes(data, k));
      assert run.ops[k - i] == ChunkProgressOp(k, total);
    } else {
      assert k - i == 0;
      assert k < total;
      assert k - i < |run.sent| && k - i < |run.ops|;
      assert run.sent[k - i] == ChunkRequest(sid, k, total, ChunkBytes(data, k));
      assert run.ops[k - i] == ChunkProgressOp(k, total);
    }
  }

  /** The replies to chunks i .. k-1 were ok and carried no job id. */
  ghost predicate Quiet(reply: nat -> ChunkReply, i: nat, k: nat) {
    forall j :: i <= j < k ==> reply(j).ChunkStored? && !Truthy(reply(j).jobId)
  }

  /** Quiet chunks are sent one after the other and leave the result to the first chunk
      that is not quiet. */
  lemma {:induction false} RunChunksSkip(sid: string, data: seq<byte>, reply: nat -> ChunkReply, i: nat, k: nat)
    requires i <= k <= TotalChunks(|data|)
    requires Quiet(reply, i, k)
    ensures |RunChunks(sid, data, reply, i).sent| == (k - i) + |RunChunks(sid, data, reply, k).sent|
    ensures RunChunks(sid, data, reply, i).result == RunChunks(sid, data, reply, k).result
    decreases k - i
  {
    if i < k {
      RunChunksSkip(sid, data, reply, i + 1, k);
    }
  }

  /** The loop stops at the first reply that carries a job id: nothing after it is sent. */
  lemma FirstJobIdStops(sid: string, data: seq<byte>, reply: nat -> ChunkReply, k: nat)
    requires k < TotalChunks(|data|) && Quiet(reply, 0, k)
    requires reply(k).ChunkStored? && Truthy(reply(k).jobId)
    ensures RunChunks(sid, data, reply, 0).result == Uploaded(reply(k).jobId.value, reply(k).message)
    ensures |RunChunks(sid, data, reply, 0).sent| == k + 1
  {
    RunChunksSkip(sid, data, reply, 0, k);
  }

  /** A non-ok reply to chunk k aborts with its number; no later chunk is sent. */
  lemma RejectedChunkAborts(sid: string, data: seq<byte>, reply: nat -> ChunkReply, k: nat)
    requires k < TotalChunks(|data|) && Quiet(reply, 0, k)
    requires reply(k).ChunkRejected?
    ensures RunChunks(sid, data, reply, 0).result == UploadFailed("Failed to upload chunk " + Decimal(k + 1))
    ensures |RunChunks(sid, data, reply, 0).sent| == k + 1
  {
    RunChunksSkip(sid, data, reply, 0, k);
  }

  /** The concatenated bytes of a list of chunk requests. */
  function SentBytes(sent: seq<ChunkRequest>): seq<byte> {
    if sent == [] then [] else SentBytes(sent[..|sent| - 1]) + sent[|sent| - 1].bytes
  }

  lemma {:induction false} SentBytesAssembled(sid: string, data: seq<byte>, sent: seq<ChunkRequest>)
    requires |sent| <= TotalChunks(|data|)
    requires forall j :: 0 <= j < |sent| ==> sent[j].bytes == ChunkBytes(data, j)
    ensures SentBytes(sent) == Assembled(data, |sent|)
  {
    if sent != [] {
      SentBytesAssembled(sid, data, sent[..|sent| - 1]);
    }
  }

  /** When every reply is ok without a job id, all chunks are sent, their bytes are exactly
      the file, and the loop fails for want of a job id. */
  lemma NoJobIdSendsWholeFile(sid: string, data: seq<byte>, reply: nat -> ChunkReply)
    requires Quiet(reply, 0, TotalChunks(|data|))
    ensures RunChunks(sid, data, reply, 0).result == UploadFailed(NO_JOB_ID_MESSAGE)
    ensures SentBytes(RunChunks(sid, data, reply, 0).sent) == data
  {
    var total := TotalChunks(|data|);
    var run := RunChunks(sid, data, reply, 0);
    RunChunksSkip(sid, data, reply, 0, total);
    assert |run.sent| == total;
    forall j | 0 <= j < |run.sent|
      ensures run.sent[j].bytes == ChunkBytes(data, j)
    {
      RunChunksSent(sid, data, reply, 0, j);
    }
    SentBytesAssembled(sid, data, run.sent);
    ChunksReassemble(data);
  }

  // ---------------------------------------------------------------------------
  // Failure classification

  /** The message the direct path's catch block reports for an error, in its order of tests. */
  function DirectFailureMessage(e: JsError): string {
    if e.name == "AbortError" then TIMEOUT_MESSAGE
    else if e.causeCode == Some("ENOBUFS") then BUFFER_MESSAGE
    else StringOr(e.message, DIRECT_FALLBACK_MESSAGE)
  }

  /** The message thrown for a non-ok direct reply: a body that parses gives its `error`
      field when that is truthy and the generic message otherwise, whatever the body text;
      a body that does not parse gives its text when non-empty and the generic message
      otherwise. */
  function RejectionMessage(text: string, json: JsonView): (m: string)
    ensures m != ""
    ensures json.ErrorField? && Truthy(json.error) ==> m == json.error.value
    ensures json.Unreadable? && text != "" ==> m == text
    ensures (json.ErrorField? && !Truthy(json.error)) || (json.Unreadable? && text == "") ==>
      m == DIRECT_FALLBACK_MESSAGE
  {
    match json
    case ErrorField(error) => OrElse(error, DIRECT_FALLBACK_MESSAGE)
    case Unreadable => StringOr(text, DIRECT_FALLBACK_MESSAGE)
  }

  /** An error is never reported with an empty message; a timeout is reported as one
      whatever its cause says; a buffer-exhaustion cause gives the buffer-overflow message;
      any other error is reported with its own message, or the generic one when that is
      empty, so the message a non-ok reply throws reaches the client unchanged. */
  lemma DirectFailureClasses(e: JsError, text: string, json: JsonView)
    ensures DirectFailureMessage(e) != ""
    ensures e.name == "AbortError" ==> DirectFailureMessage(e) == "Request timed out. The video files may be too large."
    ensures e.name != "AbortError" && e.causeCode == Some("ENOBUFS") ==> DirectFailureMessage(e) == BUFFER_MESSAGE
    ensures e.name != "AbortError" && e.causeCode != Some("ENOBUFS") && e.message != "" ==> DirectFailureMessage(e) == e.message
    ensures e.name != "AbortError" && e.causeCode != Some("ENOBUFS") && e.message == "" ==>
      DirectFailureMessage(e) == DIRECT_FALLBACK_MESSAGE
    ensures DirectFailureMessage(JsError("Error", None, RejectionMessage(text, json))) == RejectionMessage(text, json)
  {
  }

  // ---------------------------------------------------------------------------
  // POST, as a specification

  /** The store calls, response, poll start (with the job id it polls) and chunk requests
      of one POST. */
  datatype Outcome = Outcome(ops: seq<StoreOp>, response: ApiResponse, poll: Option<Option<string>>, sent: seq<ChunkRequest>)

  function ChunkedFailure(ops: seq<StoreOp>, sent: seq<ChunkRequest>, thrown: string): Outcome {
    var m := StringOr(thrown, CHUNKED_FALLBACK_MESSAGE);
    Outcome(ops + [UpdateOp(Failing(Some(m)))], ApiResponse(500, ErrorBody(m)), None, sent)
  }

  function ChunkedSpec(file: EntryValue, params: Params, backend: Backend): Outcome {
    var start := [UpdateOp(Progressing(Uploading, ChunkedPrepMessage(file), 0))];
    if !file.FileValue? then ChunkedFailure(start, [], MISSING_SIZE_MESSAGE)
    else match backend.session
    case SessionThrew(e) => ChunkedFailure(start, [], e.message)
    case SessionRejected => ChunkedFailure(start, [], SESSION_FAILED_MESSAGE)
    case SessionCreated(sid) =>
      var run := RunChunks(sid, EntryData(file), backend.chunk, 0);
      match run.result
      case UploadFailed(m) => ChunkedFailure(start + run.ops, run.sent, m)
      case Uploaded(jobId, message) =>
        var name := EntryNameText(file);
        var record := ProcessingRecord(Some(jobId), EntryName(file), OrElse(message, "Processing " + name + "..."), params);
        Outcome(start + run.ops + [SetOp(Some(record))],
                ApiResponse(200, StartedBody(Some(jobId), Some(OrElse(message, "Started processing " + name)))),
                Some(Some(jobId)), run.sent)
  }

  function DirectFailure(ops: seq<StoreOp>, e: JsError): Outcome {
    var m := DirectFailureMessage(e);
    Outcome(ops + [UpdateOp(Failing(Some(m)))], ApiResponse(500, ErrorBody(m)), None, [])
  }

  function DirectSpec(files: seq<EntryValue>, params: Params, reply: DirectReply): Outcome
    requires |files| > 0
  {
    var start := [UpdateOp(Progressing(Uploading, DirectMessage(|files|), 0))];
    match reply
    case DirectThrew(e) => DirectFailure(start, e)
    case DirectRejected(text, json) => DirectFailure(start, JsError("Error", None, RejectionMessage(text, json)))
    case DirectAccepted(jobId, message) =>
      var record := ProcessingRecord(jobId, EntryName(files[0]), BatchProcessingMessage(|files|), params);
      Outcome(start + [SetOp(Some(record))], ApiResponse(200, StartedBody(jobId, message)), Some(jobId), [])
  }

  /** The upload strategy: chunks of the first file when any file is large, else one batch. */
  function Dispatch(files: seq<EntryValue>, params: Params, backend: Backend): Outcome
    requires |files| > 0
  {
    if ShouldUseChunkedUpload(files) then ChunkedSpec(files[0], params, backend)
    else DirectSpec(files, params, backend.direct)
  }

  function Rejected400(message: string): Outcome {
    Outcome([], ApiResponse(400, ErrorBody(message)), None, [])
  }

  function PostSpec(body: RequestBody, backend: Backend): Outcome {
    match body
    case Unparsable(m) => Outcome([UpdateOp(Failing(Some(m)))], ApiResponse(500, ErrorBody(m)), None, [])
    case Parsed(fd) =>
      var fileCount := FileCount(fd);
      if fileCount == Some(0) then Rejected400(NO_FILES_MESSAGE)
      else
        var files := Collected(fd, LoopBound(fileCount));
        if files == [] then Rejected400(NO_VALID_FILES_MESSAGE)
        else
          var o := Dispatch(files, DecodeParams(fd), backend);
          o.(ops := [SetOp(Some(PreparingRecord))] + o.ops)
  }

  // ---------------------------------------------------------------------------
  // Properties of POST

  /** A failed upload: the answer is an error, no poll starts, the last store call records
      the answered error and every call before it is an update. */
  ghost predicate EndsFailing(o: Outcome) {
    && o.response.code == 500
    && o.response.body.ErrorBody?
    && o.poll.None?
    && |o.ops| > 0
    && o.ops[|o.ops| - 1] == UpdateOp(Failing(Some(o.response.body.error)))
    && forall i :: 0 <= i < |o.ops| - 1 ==> o.ops[i].UpdateOp?
  }

  /** A started upload: polling starts for the answered job, and the last store call sets a
      record of that job as processing, without progress. */
  ghost predicate EndsStarted(o: Outcome) {
    && o.response.code == 200
    && o.response.body.StartedBody?
    && o.poll == Some(o.response.body.id)
    && |o.ops| > 0
    && o.ops[|o.ops| - 1].SetOp?
    && o.ops[|o.ops| - 1].state.Some?
    && o.ops[|o.ops| - 1].state.value.status == Processing
    && o.ops[|o.ops| - 1].state.value.id == o.response.body.id
    && o.ops[|o.ops| - 1].state.value.progress == None
  }

  /** Every chunk request sent carries chunk `index` of the file, in order. */
  ghost predicate SendsChunksOf(sent: seq<ChunkRequest>, data: seq<byte>) {
    forall j :: 0 <= j < |sent| ==>
      sent[j].index == j && j < TotalChunks(|data|) && sent[j].bytes == ChunkBytes(data, j)
  }

  /** The chunk loop sends the file's chunks in order, and every store call it makes is an
      update. */
  lemma RunSendsChunks(sid: string, data: seq<byte>, reply: nat -> ChunkReply)
    ensures var run := RunChunks(sid, data, reply, 0);
      && SendsChunksOf(run.sent, data)
      && forall k :: 0 <= k < |run.ops| ==> run.ops[k].UpdateOp?
  {
    var run := RunChunks(sid, data, reply, 0);
    forall k | 0 <= k < |run.ops|
      ensures run.ops[k].UpdateOp?
      ensures run.sent[k].index == k && k < TotalChunks(|data|) && run.sent[k].bytes == ChunkBytes(data, k)
    {
      RunChunksSent(sid, data, reply, 0, k);
    }
  }

  /** A chunked upload whose first entry is a string fails with the TypeError of its missing
      size before any request: the answer is the same whatever the backend would reply, and
      nothing is sent. */
  lemma NonFileChunkedFails(v: EntryValue, params: Params, backend: Backend, other: Backend)
    requires !v.FileValue?
    ensures var o := ChunkedSpec(v, params, backend);
      && o == ChunkedSpec(v, params, other)
      && o.response == ApiResponse(500, ErrorBody(MISSING_SIZE_MESSAGE))
      && o.sent == [] && o.poll.None?
  {
    assert MISSING_SIZE_MESSAGE != "";
  }

  /** The chunked upload either fails or starts, and it sends the file's chunks in order. */
  lemma ChunkedShape(file: EntryValue, params: Params, backend: Backend)
    ensures var o := ChunkedSpec(file, params, backend);
      (EndsFailing(o) || EndsStarted(o)) && SendsChunksOf(o.sent, EntryData(file))
  {
    var o := ChunkedSpec(file, params, backend);
    var start := [UpdateOp(Progressing(Uploading, ChunkedPrepMessage(file), 0))];
    match backend.session {
      case SessionThrew(e) =>
      case SessionRejected =>
      case SessionCreated(sid) =>
        var data := EntryData(file);
        var run := RunChunks(sid, data, backend.chunk, 0);
        var pre := start + run.ops;
        RunSendsChunks(sid, data, backend.chunk);
        assert forall i :: 0 <= i < |pre| ==> pre[i].UpdateOp?;
        if run.result.UploadFailed? {
          assert o.ops == pre + [o.ops[|o.ops| - 1]];
        }
    }
  }

  /** The direct upload either fails or starts, and it sends no chunk. */
  lemma DirectShape(files: seq<EntryValue>, params: Params, reply: DirectReply)
    requires |files| > 0
    ensures var o := DirectSpec(files, params, reply);
      (EndsFailing(o) || EndsStarted(o)) && o.sent == []
  {
  }

  /** A zero file count, and a form without any video entry, are answered 400 without a
      store call, a poll or a chunk. */
  lemma EmptyRequestsRejected(fd: FormData, backend: Backend)
    ensures FileCount(fd) == Some(0) ==>
      PostSpec(Parsed(fd), backend) == Outcome([], ApiResponse(400, ErrorBody("No video files provided")), None, [])
    ensures FileCount(fd) != Some(0) && Collected(fd, LoopBound(FileCount(fd))) == [] ==>
      PostSpec(Parsed(fd), backend) == Outcome([], ApiResponse(400, ErrorBody("No valid video files found")), None, [])
  {
  }

  /** With no count at all the count is zero; a count that is NaN or negative reads no file. */
  lemma MissingCountIsZero(fd: FormData)
    ensures Get(fd, "fileCount").None? ==> FileCount(fd) == Some(0)
    ensures FileCount(fd).None? || FileCount(fd).value < 0 ==> Collected(fd, LoopBound(FileCount(fd))) == []
  {
    if Get(fd, "fileCount").None? {
      ParseIntDecimal(0);
    }
  }

  /** Missing and empty parameters take their defaults. */
  lemma ParamDefaults(fd: FormData)
    ensures !Present(Get(fd, "minJumpDuration")) ==> DecodeParams(fd).minJumpDuration == StringValue("0.8")
    ensures !Present(Get(fd, "maxJumpDuration")) ==> DecodeParams(fd).maxJumpDuration == StringValue("4.0")
    ensures !Present(Get(fd, "maxCpuUsage")) ==> DecodeParams(fd).maxCpuUsage == StringValue("10")
    ensures !Present(Get(fd, "numWorkers")) ==> DecodeParams(fd).numWorkers == StringValue("6")
  {
  }

  /** Once there are files, POST first records that it is preparing; it sends chunks only
      when some file is larger than the direct-upload limit, and then only chunks of the
      first file, whether or not that one is the large one. */
  lemma StrategyChoice(fd: FormData, backend: Backend)
    requires FileCount(fd) != Some(0)
    requires Collected(fd, LoopBound(FileCount(fd))) != []
    ensures var files := Collected(fd, LoopBound(FileCount(fd)));
      var o := PostSpec(Parsed(fd), backend);
      && o.ops[0] == SetOp(Some(PreparingRecord))
      && (!ShouldUseChunkedUpload(files) ==> o.sent == [])
      && (ShouldUseChunkedUpload(files) ==> SendsChunksOf(o.sent, EntryData(files[0])))
  {
    var files := Collected(fd, LoopBound(FileCount(fd)));
    if ShouldUseChunkedUpload(files) {
      ChunkedShape(files[0], DecodeParams(fd), backend);
    } else {
      DirectShape(files, DecodeParams(fd), backend.direct);
    }
  }

  /** The outcome of a form with files is the dispatched upload behind the preparing record. */
  lemma PostDispatches(fd: FormData, backend: Backend)
    requires FileCount(fd) != Some(0)
    requires Collected(fd, LoopBound(FileCount(fd))) != []
    ensures var files := Collected(fd, LoopBound(FileCount(fd)));
      var inner := Dispatch(files, DecodeParams(fd), backend);
      var o := PostSpec(Parsed(fd), backend);
      && (EndsFailing(inner) || EndsStarted(inner))
      && o.ops == [SetOp(Some(PreparingRecord))] + inner.ops
      && o.response == inner.response && o.poll == inner.poll
  {
    var files := Collected(fd, LoopBound(FileCount(fd)));
    if ShouldUseChunkedUpload(files) {
      ChunkedShape(files[0], DecodeParams(fd), backend);
    } else {
      DirectShape(files, DecodeParams(fd), backend.direct);
    }
  }

  /** Behind the preparing record, a failed upload leaves the store in an error state
      holding the answered message. */
  lemma FailingOpsRecorded(inner: Outcome, s0: Option<ProcessingState>)
    requires EndsFailing(inner)
    ensures var st := ApplyOps(s0, [SetOp(Some(PreparingRecord))] + inner.ops);
      st.Some? && st.value.status == Error && st.value.error == Some(inner.response.body.error)
  {
    var n := |inner.ops|;
    var last := inner.ops[n - 1];
    var middle := inner.ops[..n - 1];
    assert forall i :: 0 <= i < |middle| ==> middle[i].UpdateOp?;
    assert inner.ops == middle + [last];
    ApplyOpsAppend(s0, [], [SetOp(Some(PreparingRecord))], inner.ops);
    ApplyOpsSnoc(Some(PreparingRecord), [], middle, last);
    UpdatesKeepPresence(Some(PreparingRecord), [], middle);
  }

  /** After a failed POST of a readable form, the store holds an error state whose message
      is the one answered, and no poll starts. */
  lemma FailureRecorded(fd: FormData, backend: Backend, s0: Option<ProcessingState>)
    requires PostSpec(Parsed(fd), backend).response.code == 500
    ensures var o := PostSpec(Parsed(fd), backend);
      && o.response.body.ErrorBody?
      && o.poll.None?
      && ApplyOps(s0, o.ops).Some?
      && ApplyOps(s0, o.ops).value.status == Error
      && ApplyOps(s0, o.ops).value.error == Some(o.response.body.error)
  {
    var files := Collected(fd, LoopBound(FileCount(fd)));
    PostDispatches(fd, backend);
    FailingOpsRecorded(Dispatch(files, DecodeParams(fd), backend), s0);
  }

  /** Whatever came before, a started upload leaves the store holding its record. */
  lemma StartedOpsRecorded(inner: Outcome, s0: Option<ProcessingState>)
    requires EndsStarted(inner)
    ensures var st := ApplyOps(s0, [SetOp(Some(PreparingRecord))] + inner.ops);
      && st.Some? && st.value.status == Processing
      && st.value.id == inner.response.body.id && st.value.progress == None
  {
    var all := [SetOp(Some(PreparingRecord))] + inner.ops;
    var n := |all|;
    assert all == all[..n - 1] + [all[n - 1]];
    ApplyOpsSnoc(s0, [], all[..n - 1], all[n - 1]);
  }

  /** After a successful POST, the store records the answered job as processing, and
      polling starts for that job. */
  lemma SuccessRecorded(fd: FormData, backend: Backend, s0: Option<ProcessingState>)
    requires PostSpec(Parsed(fd), backend).response.code == 200
    ensures var o := PostSpec(Parsed(fd), backend);
      && o.response.body.StartedBody?
      && o.poll == Some(o.response.body.id)
      && ApplyOps(s0, o.ops).Some?
      && ApplyOps(s0, o.ops).value.status == Processing
      && ApplyOps(s0, o.ops).value.id == o.response.body.id
      && ApplyOps(s0, o.ops).value.progress == None
  {
    var files := Collected(fd, LoopBound(FileCount(fd)));
    PostDispatches(fd, backend);
    StartedOpsRecorded(Dispatch(files, DecodeParams(fd), backend), s0);
  }

  // ---------------------------------------------------------------------------
  // POST, as the route runs it

  /** The store has made exactly the calls `ops` since it held `s0` and had told `d0`. */
  ghost predicate Performed(store: ProcessingStore, s0: Option<ProcessingState>, d0: seq<Delivery>, ops: seq<StoreOp>)
    reads store
  {
    store.processingState == ApplyOps(s0, ops) && store.delivered == d0 + Deliveries(s0, store.listeners, ops)
  }

  lemma {:induction false} PerformedThen(ls: seq<ListenerId>, s0: Option<ProcessingState>, d0: seq<Delivery>, a: seq<StoreOp>, b: seq<StoreOp>)
    ensures ApplyOps(s0, a + b) == ApplyOps(ApplyOps(s0, a), b)
    ensures d0 + Deliveries(s0, ls, a) + Deliveries(ApplyOps(s0, a), ls, b) == d0 + Deliveries(s0, ls, a + b)
  {
    ApplyOpsAppend(s0, ls, a, b);
    Assoc(d0, Deliveries(s0, ls, a), Deliveries(ApplyOps(s0, a), ls, b));
  }

  lemma PerformedStep(ls: seq<ListenerId>, s0: Option<ProcessingState>, d0: seq<Delivery>, ops: seq<StoreOp>, op: StoreOp,
                      told: seq<Delivery>, after: Option<ProcessingState>, now: seq<Delivery>)
    requires told == d0 + Deliveries(s0, ls, ops)
    requires after == ApplyOp(ApplyOps(s0, ops), op)
    requires now == told + OpDeliveries(ApplyOps(s0, ops), ls, op)
    ensures after == ApplyOps(s0, ops + [op]) && now == d0 + Deliveries(s0, ls, ops + [op])
  {
    ApplyOpsSnoc(s0, ls, ops, op);
    Assoc(d0, Deliveries(s0, ls, ops), OpDeliveries(ApplyOps(s0, ops), ls, op));
  }

  /** Makes one store call. */
  method Perform(store: ProcessingStore, op: StoreOp,
                 ghost s0: Option<ProcessingState>, ghost d0: seq<Delivery>, ghost ops: seq<StoreOp>)
    requires Performed(store, s0, d0, ops)
    modifies store
    ensures store.listeners == old(store.listeners)
    ensures Performed(store, s0, d0, ops + [op])
  {
    ghost var before, told := store.processingState, store.delivered;
    match op {
      case SetOp(s) =>
        store.SetProcessingState(s);
      case UpdateOp(u) =>
        store.UpdateProcessingState(u);
    }
    PerformedStep(store.listeners, s0, d0, ops, op, told, store.processingState, store.delivered);
  }

  /** The loop, having made the calls `ops` and sent `sent`, resumes at chunk i: what is
      left of the whole run is the run from chunk i. */
  ghost predicate Resumes(whole: ChunkRun, sid: string, data: seq<byte>, reply: nat -> ChunkReply, i: nat,
                          ops: seq<StoreOp>, sent: seq<ChunkRequest>)
    requires i <= TotalChunks(|data|)
  {
    var rest := RunChunks(sid, data, reply, i);
    whole.ops == ops + rest.ops && whole.sent == sent + rest.sent && whole.result == rest.result
  }

  /** One turn of the chunk loop, seen from the whole run: chunk i is announced and sent,
      then its reply either ends the run or hands over to chunk i + 1. */
  lemma RunChunksStep(sid: string, data: seq<byte>, reply: nat -> ChunkReply, i: nat,
                      whole: ChunkRun, ops: seq<StoreOp>, sent: seq<ChunkRequest>)
    requires i < TotalChunks(|data|)
    requires Resumes(whole, sid, data, reply, i, ops, sent)
    ensures var total := TotalChunks(|data|);
      var op := ChunkProgressOp(i, total);
      var request := ChunkRequest(sid, i, total, ChunkBytes(data, i));
      var verdict := ChunkVerdict(reply(i), i);
      && (verdict.Some? ==> whole == ChunkRun(ops + [op], sent + [request], verdict.value))
      && (verdict.None? ==> Resumes(whole, sid, data, reply, i + 1, ops + [op], sent + [request]))
  {
    var total := TotalChunks(|data|);
    var op := ChunkProgressOp(i, total);
    var request := ChunkRequest(sid, i, total, ChunkBytes(data, i));
    var rest := RunChunks(sid, data, reply, i + 1);
    if ChunkVerdict(reply(i), i).None? {
      assert ops + ([op] + rest.ops) == (ops + [op]) + rest.ops;
      assert sent + ([request] + rest.sent) == (sent + [request]) + rest.sent;
    }
  }

  /** The chunk loop, with the early exit on a job id and the throw on a non-ok reply. */
  method UploadChunks(store: ProcessingStore, sessionId: string, data: seq<byte>, reply: nat -> ChunkReply)
    returns (result: Upload, sent: seq<ChunkRequest>)
    modifies store
    ensures store.listeners == old(store.listeners)
    ensures var run := RunChunks(sessionId, data, reply, 0);
      result == run.result && sent == run.sent
      && Performed(store, old(store.processingState), old(store.delivered), run.ops)
  {
    ghost var s0, d0 := store.processingState, store.delivered;
    ghost var whole := RunChunks(sessionId, data, reply, 0);
    ghost var ops: seq<StoreOp> := [];
    var totalChunks := TotalChunks(|data|);
    sent := [];
    var jobId: Option<string> := None;
    var statusMessage: Option<string> := None;
    var chunkIndex := 0;
    while chunkIndex < totalChunks
      invariant chunkIndex <= totalChunks
      invariant store.listeners == old(store.listeners)
      invariant Performed(store, s0, d0, ops)
      invariant jobId == None
      invariant Resumes(whole, sessionId, data, reply, chunkIndex, ops, sent)
    {
      var chunk := ChunkBytes(data, chunkIndex);
      var op := ChunkProgressOp(chunkIndex, totalChunks);
      Perform(store, op, s0, d0, ops);
      var request := ChunkRequest(sessionId, chunkIndex, totalChunks, chunk);
      RunChunksStep(sessionId, data, reply, chunkIndex, whole, ops, sent);
      ops := ops + [op];
      sent := sent + [request];
      match reply(chunkIndex) {
        case ChunkThrew(e) =>
          result := UploadFailed(e.message);
          return;
        case ChunkRejected =>
          result := UploadFailed(ChunkFailedMessage(chunkIndex));
          return;
        case ChunkStored(j, m) =>
          if Truthy(j) {
            jobId := j;
            statusMessage := m;
            break;
          }
      }
      chunkIndex := chunkIndex + 1;
    }
    if !Truthy(jobId) {
      result := UploadFailed(NO_JOB_ID_MESSAGE);
      assert ops + [] == ops && sent + [] == sent;
    } else {
      result := Uploaded(jobId.value, statusMessage);
    }
  }

  /** The chunked branch of POST, with its catch block. */
  method ChunkedUpload(store: ProcessingStore, file: EntryValue, params: Params, backend: Backend)
    returns (response: ApiResponse, poll: Option<Option<string>>, sent: seq<ChunkRequest>)
    modifies store
    ensures store.listeners == old(store.listeners)
    ensures var o := ChunkedSpec(file, params, backend);
      response == o.response && poll == o.poll && sent == o.sent
      && Performed(store, old(store.processingState), old(store.delivered), o.ops)
  {
    ghost var s0, d0 := store.processingState, store.delivered;
    var first := UpdateOp(Progressing(Uploading, ChunkedPrepMessage(file), 0));
    Perform(store, first, s0, d0, []);
    assert [] + [first] == [first];
    ghost var ops := [first];
    var thrown: string;
    sent := [];
    if !file.FileValue? {
      thrown := MISSING_SIZE_MESSAGE;
    } else {
      match backend.session {
        case SessionThrew(e) =>
          thrown := e.message;
        case SessionRejected =>
          thrown := SESSION_FAILED_MESSAGE;
        case SessionCreated(sessionId) =>
          var result;
          result, sent := UploadChunks(store, sessionId, EntryData(file), backend.chunk);
          ghost var run := RunChunks(sessionId, EntryData(file), backend.chunk, 0);
          PerformedThen(store.listeners, s0, d0, ops, run.ops);
          ops := ops + run.ops;
          if result.Uploaded? {
            var name := EntryNameText(file);
            var record := ProcessingRecord(Some(result.jobId), EntryName(file), OrElse(result.message, "Processing " + name + "..."), params);
            Perform(store, SetOp(Some(record)), s0, d0, ops);
            response := ApiResponse(200, StartedBody(Some(result.jobId), Some(OrElse(result.message, "Started processing " + name))));
            poll := Some(Some(result.jobId));
            return;
          }
          thrown := result.reason;
      }
    }
    var errorMessage := StringOr(thrown, CHUNKED_FALLBACK_MESSAGE);
    Perform(store, UpdateOp(Failing(Some(errorMessage))), s0, d0, ops);
    response := ApiResponse(500, ErrorBody(errorMessage));
    poll := None;
  }

  /** The direct branch of POST, with its catch block. */
  method DirectUpload(store: ProcessingStore, files: seq<EntryValue>, params: Params, reply: DirectReply)
    returns (response: ApiResponse, poll: Option<Option<string>>)
    requires |files| > 0
    modifies store
    ensures store.listeners == old(store.listeners)
    ensures var o := DirectSpec(files, params, reply);
      response == o.response && poll == o.poll
      && Performed(store, old(store.processingState), old(store.delivered), o.ops)
  {
    ghost var s0, d0 := store.processingState, store.delivered;
    var first := UpdateOp(Progressing(Uploading, DirectMessage(|files|), 0));
    Perform(store, first, s0, d0, []);
    assert [] + [first] == [first];
    var fetchError: JsError;
    match reply {
      case DirectAccepted(jobId, message) =>
        var record := ProcessingRecord(jobId, EntryName(files[0]), BatchProcessingMessage(|files|), params);
        Perform(store, SetOp(Some(record)), s0, d0, [first]);
        return ApiResponse(200, StartedBody(jobId, message)), Some(jobId);
      case DirectRejected(text, json) =>
        fetchError := JsError("Error", None, RejectionMessage(text, json));
      case DirectThrew(e) =>
        fetchError := e;
    }
    var errorMessage := DirectFailureMessage(fetchError);
    Perform(store, UpdateOp(Failing(Some(errorMessage))), s0, d0, [first]);
    response := ApiResponse(500, ErrorBody(errorMessage));
    poll := None;
  }

  /** POST /api/process. */
  method Post(store: ProcessingStore, body: RequestBody, backend: Backend)
    returns (response: ApiResponse, poll: Option<Option<string>>, sent: seq<ChunkRequest>)
    modifies store
    ensures store.listeners == old(store.listeners)
    ensures var o := PostSpec(body, backend);
      response == o.response && poll == o.poll && sent == o.sent
      && Performed(store, old(store.processingState), old(store.delivered), o.ops)
  {
    ghost var s0, d0 := store.processingState, store.delivered;
    sent := [];
    poll := None;
    if body.Unparsable? {
      var errorMessage := body.message;
      Perform(store, UpdateOp(Failing(Some(errorMessage))), s0, d0, []);
      assert [] + [UpdateOp(Failing(Some(errorMessage)))] == [UpdateOp(Failing(Some(errorMessage)))];
      response := ApiResponse(500, ErrorBody(errorMessage));
      return;
    }
    var formData := body.form;
    var fileCount := FileCount(formData);
    if fileCount == Some(0) {
      response := ApiResponse(400, ErrorBody(NO_FILES_MESSAGE));
      return;
    }
    var params := DecodeParams(formData);
    var filesToProcess := CollectFiles(formData, fileCount);
    if |filesToProcess| == 0 {
      response := ApiResponse(400, ErrorBody(NO_VALID_FILES_MESSAGE));
      return;
    }
    var shouldUseChunkedUpload := ShouldUseChunkedUpload(filesToProcess);
    var prepare := SetOp(Some(PreparingRecord));
    Perform(store, prepare, s0, d0, []);
    assert [] + [prepare] == [prepare];
    ghost var inner := Dispatch(filesToProcess, params, backend);
    if shouldUseChunkedUpload {
      response, poll, sent := ChunkedUpload(store, filesToProcess[0], params, backend);
    } else {
      response, poll := DirectUpload(store, filesToProcess, params, backend.direct);
      DirectShape(filesToProcess, params, backend.direct);
    }
    PerformedThen(store.listeners, s0, d0, [prepare], inner.ops);
  }

  // ---------------------------------------------------------------------------
  // The job-status poll

  /** One job-status reply: the request failed (a thrown fetch, a non-ok status or an
      unreadable body), or the backend reported a status with its optional fields. */
  datatype PollReply =
    | PollFailed
    | JobStatus(status: string, processedVideos: Option<nat>, totalVideos: Option<nat>,
                results: Option<Results>, error: Option<string>)

  /** `Math.round((processed / total) * 100)`. */
  function PollProgress(processed: nat, total: nat): nat
    requires total > 0
  {
    RoundDiv(100 * processed, total)
  }

  function PollMessage(processed: nat, total: nat): string {
    "Processing video " + Decimal(processed) + " of " + Decimal(total) + "..."
  }

  /** Both counters are present and non-zero. */
  predicate HasCounters(r: PollReply) {
    r.JobStatus? && r.processedVideos.Some? && r.processedVideos.value != 0
    && r.totalVideos.Some? && r.totalVideos.value != 0
  }

  predicate IsTerminal(r: PollReply) {
    r.PollFailed? || r.status == "completed" || r.status == "error"
  }

  /** The store calls of one poll step. */
  function PollOps(r: PollReply): seq<StoreOp> {
    match r
    case PollFailed => [UpdateOp(Failing(Some(STATUS_FAILED_MESSAGE)))]
    case JobStatus(status, processed, total, results, error) =>
      if status == "completed" then [UpdateOp(Completing(results))]
      else if status == "error" then [UpdateOp(Failing(Some(OrElse(error, UNKNOWN_ERROR_MESSAGE))))]
      else if HasCounters(r) then
        [UpdateOp(Progressing(Processing, PollMessage(processed.value, total.value), PollProgress(processed.value, total.value)))]
      else []
  }

  /** One run of pollJobStatus: handle the reply and say whether another poll is scheduled. */
  method PollJobStatus(store: ProcessingStore, jobStatus: PollReply) returns (again: bool)
    modifies store
    ensures store.listeners == old(store.listeners)
    ensures again == !IsTerminal(jobStatus)
    ensures Performed(store, old(store.processingState), old(store.delivered), PollOps(jobStatus))
  {
    ghost var s0, d0 := store.processingState, store.delivered;
    var op: StoreOp;
    if jobStatus.PollFailed? {
      op := UpdateOp(Failing(Some(STATUS_FAILED_MESSAGE)));
      again := false;
    } else if jobStatus.status == "completed" {
      op := UpdateOp(Completing(jobStatus.results));
      again := false;
    } else if jobStatus.status == "error" {
      op := UpdateOp(Failing(Some(OrElse(jobStatus.error, UNKNOWN_ERROR_MESSAGE))));
      again := false;
    } else {
      again := true;
      if HasCounters(jobStatus) {
        var processed, total := jobStatus.processedVideos.value, jobStatus.totalVideos.value;
        op := UpdateOp(Progressing(Processing, PollMessage(processed, total), PollProgress(processed, total)));
      } else {
        return;
      }
    }
    Perform(store, op, s0, d0, []);
    assert [] + [op] == [op];
  }

  /** The polls a job sees for a script of replies: each reply is handled in turn, and
      polling stops after the first terminal one. */
  datatype PollTrace = PollTrace(ops: seq<StoreOp>, polls: nat, stopped: bool)

  function RunPolls(replies: seq<PollReply>): (t: PollTrace)
    ensures t.polls <= |replies|
    ensures !t.stopped ==> t.polls == |replies|
  {
    if replies == [] then PollTrace([], 0, false)
    else if IsTerminal(replies[0]) then PollTrace(PollOps(replies[0]), 1, true)
    else
      var rest := RunPolls(replies[1..]);
      PollTrace(PollOps(replies[0]) + rest.ops, 1 + rest.polls, rest.stopped)
  }

  /** Polling stops at the first terminal reply: no reply after it is requested. */
  lemma {:induction false} PollingStopsAtTerminal(replies: seq<PollReply>, k: nat)
    requires k < |replies| && IsTerminal(replies[k])
    requires forall j :: 0 <= j < k ==> !IsTerminal(replies[j])
    ensures RunPolls(replies).stopped && RunPolls(replies).polls == k + 1
  {
    if k > 0 {
      PollingStopsAtTerminal(replies[1..], k - 1);
    }
  }

  /** The messages and progress values of the counters 1 of 2 and 2 of 2. */
  lemma HalfwayPolls()
    ensures PollProgress(1, 2) == 50 && PollProgress(2, 2) == 100
    ensures PollMessage(1, 2) == "Processing video 1 of 2..."
    ensures PollMessage(2, 2) == "Processing video 2 of 2..."
  {
    assert Decimal(1) == "1" && Decimal(2) == "2";
    RoundDivNearest(100, 2);
    RoundDivNearest(200, 2);
  }

  /** A "processing" reply with both counters non-zero reports "Processing video p of t..."
      at the rounded percentage and polling goes on. */
  lemma ProcessingPoll(p: nat, t: nat)
    requires p != 0 && t != 0
    ensures var r := JobStatus("processing", Some(p), Some(t), None, None);
      && !IsTerminal(r)
      && PollOps(r) == [UpdateOp(Progressing(Processing, PollMessage(p, t), PollProgress(p, t)))]
  {
    assert "processing" != "completed" && "processing" != "error";
  }

  /** A "completed" reply hands its results to the store and stops polling. */
  lemma CompletedPoll(results: Option<Results>, later: seq<PollReply>)
    ensures var r := JobStatus("completed", None, None, results, None);
      && IsTerminal(r)
      && RunPolls([r] + later) == PollTrace([UpdateOp(Completing(results))], 1, true)
  {
  }

  /** Processing 1 of 2, then 2 of 2, then completed: progress 50, then 100, then the
      results; three polls and no more. */
  lemma ScriptedPolling(results: Results, later: seq<PollReply>)
    ensures var replies := [JobStatus("processing", Some(1), Some(2), None, None),
                            JobStatus("processing", Some(2), Some(2), None, None),
                            JobStatus("completed", None, None, Some(results), None)] + later;
      RunPolls(replies) == PollTrace(
        [UpdateOp(Progressing(Processing, "Processing video 1 of 2...", 50)),
         UpdateOp(Progressing(Processing, "Processing video 2 of 2...", 100)),
         UpdateOp(Completing(Some(results)))], 3, true)
  {
    var r0 := JobStatus("processing", Some(1), Some(2), None, None);
    var r1 := JobStatus("processing", Some(2), Some(2), None, None);
    var r2 := JobStatus("completed", None, None, Some(results), None);
    HalfwayPolls();
    ProcessingPoll(1, 2);
    ProcessingPoll(2, 2);
    CompletedPoll(Some(results), later);
    var t1 := RunPolls([r1, r2] + later);
    assert ([r1, r2] + later)[1..] == [r2] + later;
    assert t1.ops == PollOps(r1) + [UpdateOp(Completing(Some(results)))] && t1.polls == 2 && t1.stopped;
    assert ([r0, r1, r2] + later)[1..] == [r1, r2] + later;
  }

  /** A terminal reply leaves a present state completed or failed with the reported error. */
  lemma TerminalPollOutcome(s: ProcessingState, r: PollReply)
    requires IsTerminal(r)
    ensures var st := ApplyOps(Some(s), PollOps(r));
      && st.Some?
      && (r.PollFailed? ==> st.value.status == Error && st.value.error == Some("Failed to get processing status"))
      && (r.JobStatus? && r.status == "completed" ==> st.value.status == Completed && st.value.results == r.results)
      && (r.JobStatus? && r.status == "error" ==>
            st.value.status == Error && st.value.error == Some(OrElse(r.error, "Unknown error occurred")))
  {
  }
}
