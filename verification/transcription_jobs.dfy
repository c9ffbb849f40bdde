/** The transcription job queue: the enqueue endpoint
    (app/api/transcriptions/route.ts) and the background worker
    (supabase/functions/transcription-worker/index.ts). The two database
    tables are maps held by one `Store`; every query the source issues is a
    method on it, and every answer the outside world gives (a failed read or
    write, another worker's claim, the audio download, the provider's HTTP
    reply) is a parameter. */
module TranscriptionJobs {
  import opened Wrappers
  import opened Text
  import opened Deepgram

  // ----- Records -----

  datatype JobStatus = Pending | Processing | Completed | Failed

  /** A JSON value as stored in a `jsonb` column. */
  datatype Json =
    | JNull
    | JBool(b: bool)
    | JNum(n: real)
    | JStr(s: string)
    | JArr(items: seq<Json>)
    | JObj(fields: map<string, Json>)

  /** A row of `transcription_jobs`; the row id is a number here. */
  datatype Job = Job(
    id: nat,
    lectureId: string,
    userId: string,
    audioPath: string,
    audioMimeType: Option<string>,
    status: JobStatus,
    attempts: nat,
    error: Option<string>,
    metadata: map<string, Json>,
    createdAt: nat,
    startedAt: Option<nat>,
    completedAt: Option<nat>)

  /** A row of `lectures`, with the two transcription columns the code writes. */
  datatype Lecture = Lecture(
    userId: string,
    title: string,
    audioUrl: Option<string>,
    transcript: Option<string>,
    duration: Option<int>,
    metadata: Json,
    transcriptionStatus: Option<JobStatus>,
    transcriptionError: Option<string>)

  // ----- Claiming -----

  predicate HasPending(jobs: map<nat, Job>) {
    exists id | id in jobs :: jobs[id].status == Pending
  }

  /** `id` is a pending job that no pending job was created before. */
  predicate IsOldestPending(jobs: map<nat, Job>, id: nat) {
    id in jobs && jobs[id].status == Pending
    && forall other | other in jobs && jobs[other].status == Pending :: jobs[id].createdAt <= jobs[other].createdAt
  }

  /** A table with a pending job has an oldest one. */
  lemma OldestPendingExists(jobs: map<nat, Job>)
    requires HasPending(jobs)
    ensures exists id :: IsOldestPending(jobs, id)
  {
    var pending := set id | id in jobs && jobs[id].status == Pending;
    var some :| some in jobs && jobs[some].status == Pending;
    assert some in pending;
    var oldest := OldestIn(jobs, pending);
    assert IsOldestPending(jobs, oldest);
  }

  /** The earliest-created of a non-empty set of jobs. */
  lemma {:induction false} OldestIn(jobs: map<nat, Job>, ids: set<nat>) returns (oldest: nat)
    requires ids != {} && ids <= jobs.Keys
    ensures oldest in ids
    ensures forall other :: other in ids ==> jobs[oldest].createdAt <= jobs[other].createdAt
    decreases |ids|
  {
    var x :| x in ids;
    if ids == {x} {
      oldest := x;
    } else {
      var rest := OldestIn(jobs, ids - {x});
      oldest := if jobs[x].createdAt <= jobs[rest].createdAt then x else rest;
    }
  }

  /** The row a successful claim writes: processing, started now, one more
      attempt, no error; everything else as it was. */
  function Claimed(job: Job, now: nat): (r: Job)
    ensures r.status == Processing && r.attempts == job.attempts + 1 && r.error.None?
    ensures r.startedAt == Some(now)
    ensures r.(status := job.status, attempts := job.attempts, error := job.error, startedAt := job.startedAt) == job
  {
    job.(status := Processing, startedAt := Some(now), attempts := job.attempts + 1, error := None)
  }

  /** `after` is `before` claimed by some worker, and perhaps processed
      since: no longer pending, with one more attempt. */
  predicate Reclaimed(before: Job, after: Job) {
    before.status == Pending && after.status != Pending && after.attempts == before.attempts + 1
  }

  /** Between `before` and `after` every row is untouched or was claimed. */
  predicate ClaimsOnly(before: map<nat, Job>, after: map<nat, Job>) {
    before.Keys == after.Keys
    && forall id :: id in after ==> after[id] == before[id] || Reclaimed(before[id], after[id])
  }

  /** Since `start`, a row that is still pending is untouched, and every
      row's attempts are as they were or were raised by one claim. */
  predicate AttemptsOnlyByClaims(start: map<nat, Job>, now: map<nat, Job>) {
    start.Keys == now.Keys
    && (forall id :: id in now && now[id].status == Pending ==> now[id] == start[id])
    && (forall id :: id in now ==> now[id].attempts == start[id].attempts || Reclaimed(start[id], now[id]))
  }

  lemma AttemptsOnlyByClaimsStep(start: map<nat, Job>, mid: map<nat, Job>, now: map<nat, Job>)
    requires AttemptsOnlyByClaims(start, mid) && ClaimsOnly(mid, now)
    ensures AttemptsOnlyByClaims(start, now)
  {
    forall id | id in now
      ensures now[id].attempts == start[id].attempts || Reclaimed(start[id], now[id])
    {
      if now[id] != mid[id] {
        assert mid[id] == start[id];
      }
    }
  }

  /** What the conditional update `... WHERE id = id AND status = 'pending'`
      leaves in the table, and the row it returns. */
  datatype CasOutcome = CasOutcome(jobs: map<nat, Job>, row: Option<Job>)

  /** The compare-and-set claim: it succeeds exactly when the row is still
      pending, and a failed claim changes nothing. */
  function ClaimCas(jobs: map<nat, Job>, id: nat, now: nat): (r: CasOutcome)
    ensures r.row.Some? <==> id in jobs && jobs[id].status == Pending
    ensures r.row.None? ==> r.jobs == jobs
    ensures r.row.Some? ==> r.row.value == Claimed(jobs[id], now) && r.jobs == jobs[id := r.row.value]
  {
    if id in jobs && jobs[id].status == Pending then
      var row := Claimed(jobs[id], now);
      CasOutcome(jobs[id := row], Some(row))
    else CasOutcome(jobs, None)
  }

  /** Several workers racing for the same row, one after the other: the
      table afterwards and how many of them got the row. */
  function Race(jobs: map<nat, Job>, id: nat, times: seq<nat>): (nat, map<nat, Job>)
    decreases |times|
  {
    if |times| == 0 then (0, jobs)
    else
      var step := ClaimCas(jobs, id, times[0]);
      var rest := Race(step.jobs, id, times[1..]);
      (rest.0 + (if step.row.Some? then 1 else 0), rest.1)
  }

  /** After a successful claim, every later claim of the same row loses and
      leaves the table as it is. */
  lemma {:induction false} LaterClaimsLose(jobs: map<nat, Job>, id: nat, times: seq<nat>)
    requires id in jobs && jobs[id].status != Pending
    ensures Race(jobs, id, times) == (0, jobs)
    decreases |times|
  {
    if |times| > 0 {
      LaterClaimsLose(jobs, id, times[1..]);
    }
  }

  /** Of any number of workers claiming the same pending row, exactly one
      wins, and the row ends up with exactly one more attempt. */
  lemma {:induction false} ExactlyOneClaimWins(jobs: map<nat, Job>, id: nat, times: seq<nat>)
    requires id in jobs && jobs[id].status == Pending && |times| >= 1
    ensures Race(jobs, id, times).0 == 1
    ensures Race(jobs, id, times).1 == jobs[id := Claimed(jobs[id], times[0])]
  {
    var step := ClaimCas(jobs, id, times[0]);
    LaterClaimsLose(step.jobs, id, times[1..]);
  }

  // ----- Transcript reconciliation -----

  /** The six metadata keys the worker writes from the provider response. */
  const ReconciledKeys: set<string> := {"model", "duration", "confidence", "language", "summary", "deepgram_request_id"}

  /** An object spread of a `jsonb` value: an object gives its entries, an
      array its elements under the keys "0", "1", ..., anything else nothing. */
  function ExistingEntries(j: Json): (r: map<string, Json>)
    ensures j.JObj? ==> r == j.fields
    ensures !j.JObj? && !j.JArr? ==> r == map[]
    ensures j.JArr? ==> forall i :: 0 <= i < |j.items| ==> NatToString(i) in r && r[NatToString(i)] == j.items[i]
  {
    match j
    case JObj(fields) => fields
    case JArr(items) =>
      IndexKeysDistinct();
      map i | 0 <= i < |items| :: NatToString(i) := items[i]
    case _ => map[]
  }

  /** Different indices have different decimal names. */
  lemma IndexKeysDistinct()
    ensures forall i: nat, k: nat :: NatToString(i) == NatToString(k) ==> i == k
  {
    forall i: nat, k: nat | NatToString(i) == NatToString(k) ensures i == k {
      NatToStringRoundTrip(i);
      NatToStringRoundTrip(k);
    }
  }

  /** The metadata the worker starts from: the lecture's when the read
      returned the row, and nothing when it did not. */
  function ExistingMetadata(lecture: Option<Lecture>, readOk: bool): map<string, Json> {
    if readOk && lecture.Some? then ExistingEntries(lecture.value.metadata) else map[]
  }

  /** A key with an `undefined` value is dropped when the object is stored. */
  function Defined(key: string, value: Option<Json>): (r: map<string, Json>)
    ensures r.Keys <= {key}
    ensures key in r <==> value.Some?
    ensures key in r ==> r[key] == value.value
  {
    if value.Some? then map[key := value.value] else map[]
  }

  /** `model` and `duration`, from the response's metadata. */
  function MetadataFields(meta: Option<ResponseMetadata>): (r: map<string, Json>)
    ensures forall k :: k in r ==> k == "model" || k == "duration"
  {
    Defined("model", ExtractModelName(meta).Map(s => JStr(s)))
    + Defined("duration", if meta.Some? then meta.value.duration.Map(d => JNum(d)) else None)
  }

  /** `confidence`, `language` and `summary`, from the first alternative
      and channel. */
  function AlternativeFields(results: Results, alt: Alternative): (r: map<string, Json>)
    ensures forall k :: k in r ==> k == "confidence" || k == "language" || k == "summary"
  {
    var channel := FirstChannel(results);
    Defined("confidence", alt.confidence.Map(c => JNum(c)))
    + Defined("language", if channel.Some? then channel.value.detectedLanguage.Map(s => JStr(s)) else None)
    + Defined("summary", ExtractSummary(Some(alt), results).Map(s => JStr(s)))
  }

  /** The reconciled keys that the response defines, with their values. */
  function ResponseMetadata(payload: Response, alt: Alternative): (r: map<string, Json>)
    ensures r.Keys <= ReconciledKeys
    ensures "deepgram_request_id" in r
  {
    var meta := payload.metadata;
    var requestId := if meta.Some? && meta.value.requestId.Some? then JStr(meta.value.requestId.value) else JNull;
    var fields := MetadataFields(meta) + AlternativeFields(payload.results, alt);
    assert forall k :: k in fields ==> k in ReconciledKeys;
    fields["deepgram_request_id" := requestId]
  }

  /** `{ ...existing, ...incoming }` as stored: every key outside the reconciled
      six keeps its old value, and each of the six is exactly what the
      response gives (absent when the response leaves it undefined). */
  function MergeMetadata(existing: map<string, Json>, incoming: map<string, Json>): (r: map<string, Json>)
    requires incoming.Keys <= ReconciledKeys
    ensures forall k :: k !in ReconciledKeys ==> (k in r <==> k in existing)
    ensures forall k :: k !in ReconciledKeys && k in existing ==> r[k] == existing[k]
    ensures forall k :: k in ReconciledKeys ==> (k in r <==> k in incoming)
    ensures forall k :: k in incoming ==> r[k] == incoming[k]
  {
    (existing - ReconciledKeys) + incoming
  }

  /** `Math.round` on a non-negative or negative real: the integer nearest
      to `x`, halves rounded up. */
  function RoundHalfUp(x: real): (r: int)
    ensures x - 0.5 < r as real <= x + 0.5
  {
    (x + 0.5).Floor
  }

  /** `duration ? Math.round(duration) : null`. */
  function LectureDuration(d: Option<real>): (r: Option<int>)
    ensures r.None? <==> d.None? || d.value == 0.0
    ensures r.Some? ==> d.value - 0.5 < r.value as real <= d.value + 0.5
  {
    if d.None? || d.value == 0.0 then None else Some(RoundHalfUp(d.value))
  }

  /** The transcript the worker accepts: the first alternative's text,
      which must exist and be non-empty. */
  function WorkerTranscript(payload: Response): (r: Result<(Alternative, string), string>)
    ensures r.Err? <==> FirstAlternative(payload.results).None? || ChooseTranscript(FirstAlternative(payload.results).value) == ""
    ensures FirstAlternative(payload.results).None? ==> r == Err("Deepgram returned an empty transcription result.")
    ensures r.Ok? ==>
      (r.value.0 == FirstAlternative(payload.results).value
       && r.value.1 == ChooseTranscript(r.value.0) && r.value.1 != "" && IsTrimmed(r.value.1))
  {
    var alt := FirstAlternative(payload.results);
    if alt.None? then Err("Deepgram returned an empty transcription result.")
    else
      var transcript := ChooseTranscript(alt.value);
      if transcript == "" then Err("Deepgram produced an empty transcript.")
      else Ok((alt.value, transcript))
  }

  /** The worker rejects the empty transcript that the in-process client
      returns without complaint. */
  lemma WorkerStricterThanClient(request: TranscriptionRequest, env: map<string, string>, reply: SdkReply)
    requires TranscribeWithDeepgram(request, env, reply).outcome.Ok?
    requires TranscribeWithDeepgram(request, env, reply).outcome.value.transcript == ""
    ensures WorkerTranscript(reply.result.value) == Err("Deepgram produced an empty transcript.")
  {
  }

  /** The lecture row after a successful transcript update. */
  function Transcribed(lecture: Lecture, transcript: string, payload: Response, alt: Alternative, existing: map<string, Json>): (r: Lecture)
    ensures r.transcript == Some(transcript)
    ensures r.transcriptionStatus == Some(Completed) && r.transcriptionError.None?
    ensures r.duration == LectureDuration(if payload.metadata.Some? then payload.metadata.value.duration else None)
    ensures r.metadata == JObj(MergeMetadata(existing, ResponseMetadata(payload, alt)))
    ensures r.userId == lecture.userId && r.title == lecture.title && r.audioUrl == lecture.audioUrl
  {
    var merged := MergeMetadata(existing, ResponseMetadata(payload, alt));
    lecture.(
      transcript := Some(transcript),
      duration := LectureDuration(if payload.metadata.Some? then payload.metadata.value.duration else None),
      metadata := JObj(merged),
      transcriptionStatus := Some(Completed),
      transcriptionError := None)
  }

  /** The job row after `markJobCompleted`: the metadata is the claimed
      snapshot's with `extra` over it; attempts are untouched. */
  function CompletedRow(row: Job, snapshot: map<string, Json>, extra: map<string, Json>, now: nat): (r: Job)
    ensures r.status == Completed && r.error.None? && r.completedAt == Some(now)
    ensures r.attempts == row.attempts && r.lectureId == row.lectureId && r.id == row.id
    ensures forall k :: k in r.metadata <==> k in snapshot || k in extra
  {
    row.(status := Completed, completedAt := Some(now), error := None, metadata := snapshot + extra)
  }

  /** The job row after `markJobFailed`; attempts are untouched. */
  function FailedRow(row: Job, message: string, now: nat): (r: Job)
    ensures r.status == Failed && r.error == Some(message) && r.completedAt == Some(now)
    ensures r.attempts == row.attempts && r.lectureId == row.lectureId && r.id == row.id
  {
    row.(status := Failed, error := Some(message), completedAt := Some(now))
  }

  // ----- The outside world -----

  /** The storage download: the bytes, or no data with an optional message. */
  datatype Download = Downloaded(audio: seq<bv8>) | DownloadFailed(message: Option<string>)

  /** The provider's HTTP answer; `json` is the body parsed, or the parse
      error's message. */
  datatype HttpReply = HttpReply(status: int, text: string, json: Result<Response, string>)

  /** What the world answers while one claimed job is processed. */
  datatype JobWorld = JobWorld(
    download: Download,
    fetch: Result<HttpReply, string>,
    lectureReadOk: bool,
    lectureWrite: Option<Thrown>,
    completeWrite: Option<Thrown>,
    failJobWriteOk: bool,
    failLectureWriteOk: bool)

  /** What the world answers while a job is claimed: an error from the
      select, another worker's claim of the same row in between (at time
      `rivalNow`), or a failed update. */
  datatype ClaimWorld = ClaimWorld(selectError: Option<Thrown>, rival: bool, rivalNow: nat, updateFails: bool)

  /** The download, the transcription and the lecture update succeed. */
  predicate LectureUpdated(w: JobWorld) {
    && FetchTranscription(w.download, w.fetch).Ok?
    && WorkerTranscript(FetchTranscription(w.download, w.fetch).value).Ok?
    && w.lectureWrite.None?
  }

  /** Everything in the processing of one job succeeds. */
  predicate Succeeds(w: JobWorld) {
    LectureUpdated(w) && w.completeWrite.None?
  }

  /** The lecture table after a successful update: the job's lecture, when
      its row exists, holds the transcript and the merged metadata. */
  function LecturesTranscribed(lectures: map<string, Lecture>, lectureId: string, w: JobWorld): (r: map<string, Lecture>)
    requires LectureUpdated(w)
    ensures LecturesChangedOnly(lectures, r, {lectureId})
    ensures lectureId in lectures ==>
      r[lectureId].transcriptionStatus == Some(Completed)
      && r[lectureId].transcript == Some(WorkerTranscript(FetchTranscription(w.download, w.fetch).value).value.1)
  {
    if lectureId in lectures
    then lectures[lectureId := TranscribedLecture(lectures[lectureId], w)]
    else lectures
  }

  /** One lecture row after a successful update. */
  function TranscribedLecture(lecture: Lecture, w: JobWorld): Lecture
    requires LectureUpdated(w)
  {
    var payload := FetchTranscription(w.download, w.fetch).value;
    var found := WorkerTranscript(payload).value;
    Transcribed(lecture, found.1, payload, found.0, ExistingMetadata(Some(lecture), w.lectureReadOk))
  }

  /** The job table after `markJobCompleted` for a job whose processing
      succeeded: only the job's row changes, to the completed row. */
  function JobsCompleted(jobs: map<nat, Job>, job: Job, w: JobWorld, now: nat): (r: map<nat, Job>)
    requires LectureUpdated(w) && job.id in jobs
    ensures r.Keys == jobs.Keys
    ensures forall id :: id in r && id != job.id ==> r[id] == jobs[id]
    ensures forall id :: id in r ==> r[id].attempts == jobs[id].attempts
    ensures r[job.id].status == Completed && r[job.id].error.None?
  {
    jobs[job.id := CompletedRow(jobs[job.id], job.metadata, RequestIdEntry(FetchTranscription(w.download, w.fetch).value), now)]
  }

  /** The lecture table after `markJobFailed`'s lecture write. */
  function LecturesFailed(lectures: map<string, Lecture>, lectureId: string, message: string, writeOk: bool): (r: map<string, Lecture>)
    ensures LecturesChangedOnly(lectures, r, {lectureId})
  {
    if writeOk && lectureId in lectures
    then lectures[lectureId := lectures[lectureId].(transcriptionStatus := Some(Failed), transcriptionError := Some(message))]
    else lectures
  }

  /** Between `before` and `after` only the lectures named in `ids` changed,
      and no lecture was added or removed. */
  predicate LecturesChangedOnly(before: map<string, Lecture>, after: map<string, Lecture>, ids: set<string>) {
    before.Keys == after.Keys && forall id :: id in after && id !in ids ==> after[id] == before[id]
  }

  /** The lectures of the jobs the entries report, as `jobs` records them. */
  function EntryLectures(entries: seq<Entry>, jobs: map<nat, Job>): set<string> {
    set k | 0 <= k < |entries| && entries[k].jobId in jobs :: jobs[entries[k].jobId].lectureId
  }

  /** The lectures of the jobs claimed between `before` and `after`. */
  function ClaimedLectures(before: map<nat, Job>, after: map<nat, Job>): set<string> {
    set id | id in before && id in after && Reclaimed(before[id], after[id]) :: before[id].lectureId
  }

  /** The metadata `markJobCompleted` merges into the job: the provider's
      request id, or `null` when the response has none. */
  function RequestIdEntry(payload: Response): map<string, Json> {
    map["deepgram_request_id" := if payload.metadata.Some? && payload.metadata.value.requestId.Some?
                                 then JStr(payload.metadata.value.requestId.value) else JNull]
  }

  datatype ServeRequest = ServeRequest(httpMethod: string, limit: Option<NumberValue>)

  /** An entry of the worker's answer agrees with the table: its job was
      pending when the run began and got exactly one more attempt; it is
      completed or failed, only a failed entry carries an error, and a
      completed entry's row is completed. */
  predicate WellReported(e: Entry, before: map<nat, Job>, after: map<nat, Job>) {
    && e.jobId in before && e.jobId in after
    && Reclaimed(before[e.jobId], after[e.jobId])
    && (e.status == Completed || e.status == Failed)
    && (e.error.Some? <==> e.status == Failed)
    && (e.status == Completed ==> after[e.jobId].status == Completed)
    && (e.status == Failed ==> after[e.jobId].status != Completed)
  }

  /** Rows that a later claim leaves alone keep their reports. */
  lemma ReportsSurviveClaims(entries: seq<Entry>, start: map<nat, Job>, mid: map<nat, Job>, now: map<nat, Job>)
    requires forall k :: 0 <= k < |entries| ==> WellReported(entries[k], start, mid)
    requires ClaimsOnly(mid, now)
    ensures forall k :: 0 <= k < |entries| ==> WellReported(entries[k], start, now)
  {
    forall k | 0 <= k < |entries| ensures WellReported(entries[k], start, now) {
      assert now[entries[k].jobId] == mid[entries[k].jobId];
    }
  }

  /** A table where one row was claimed and every other row is untouched
      changed only by claims. */
  lemma OneRowReclaimed(before: map<nat, Job>, after: map<nat, Job>, id: nat)
    requires before.Keys == after.Keys && id in before
    requires forall j :: j in after && j != id ==> after[j] == before[j]
    requires Reclaimed(before[id], after[id])
    ensures ClaimsOnly(before, after)
  {
  }

  /** Changes confined to `first`, then to `second`, are confined to both. */
  lemma LecturesChangedOnlyTrans(a: map<string, Lecture>, b: map<string, Lecture>, c: map<string, Lecture>,
                                 first: set<string>, second: set<string>)
    requires LecturesChangedOnly(a, b, first) && LecturesChangedOnly(b, c, second)
    ensures LecturesChangedOnly(a, c, first + second)
  {
  }

  lemma EntryLecturesAppend(entries: seq<Entry>, e: Entry, jobs: map<nat, Job>)
    requires e.jobId in jobs
    ensures EntryLectures(entries + [e], jobs) == EntryLectures(entries, jobs) + {jobs[e.jobId].lectureId}
  {
    var whole := entries + [e];
    assert whole[|entries|] == e;
    forall k | 0 <= k < |entries| ensures whole[k] == entries[k] {
    }
  }

  /** The lectures of reported jobs are lectures of claimed jobs. */
  lemma ReportedLecturesClaimed(entries: seq<Entry>, start: map<nat, Job>, now: map<nat, Job>)
    requires forall k :: 0 <= k < |entries| ==> WellReported(entries[k], start, now)
    ensures EntryLectures(entries, start) <= ClaimedLectures(start, now)
  {
    forall id | id in EntryLectures(entries, start) ensures id in ClaimedLectures(start, now) {
      var k :| 0 <= k < |entries| && entries[k].jobId in start && start[entries[k].jobId].lectureId == id;
      assert WellReported(entries[k], start, now);
    }
  }

  /** What the batch loop keeps about the entries so far: each is reported
      well, their jobs are distinct, each is completed exactly when its
      round succeeded, and only their lectures changed. */
  ghost predicate Reported(entries: seq<Entry>, rounds: nat -> Round, start: map<nat, Job>, jobs: map<nat, Job>,
                           lectures0: map<string, Lecture>, lectures: map<string, Lecture>)
  {
    && (forall k :: 0 <= k < |entries| ==> WellReported(entries[k], start, jobs))
    && (forall i, j :: 0 <= i < j < |entries| ==> entries[i].jobId != entries[j].jobId)
    && (forall k :: 0 <= k < |entries| ==> (entries[k].status == Completed <==> Succeeds(rounds(k).job)))
    && LecturesChangedOnly(lectures0, lectures, EntryLectures(entries, start))
  }

  /** A round that claims no job of ours keeps the loop's facts. */
  lemma ReportedSurvives(entries: seq<Entry>, rounds: nat -> Round, start: map<nat, Job>, mid: map<nat, Job>, now: map<nat, Job>,
                         lectures0: map<string, Lecture>, lectures: map<string, Lecture>)
    requires Reported(entries, rounds, start, mid, lectures0, lectures) && ClaimsOnly(mid, now)
    ensures Reported(entries, rounds, start, now, lectures0, lectures)
  {
    ReportsSurviveClaims(entries, start, mid, now);
  }

  /** A round that claims and processes a job extends the loop's facts by
      its entry. */
  lemma ReportedStep(entries: seq<Entry>, rounds: nat -> Round, start: map<nat, Job>, mid: map<nat, Job>, now: map<nat, Job>,
                     lectures0: map<string, Lecture>, lecturesMid: map<string, Lecture>, lecturesNow: map<string, Lecture>, e: Entry)
    requires Reported(entries, rounds, start, mid, lectures0, lecturesMid)
    requires AttemptsOnlyByClaims(start, mid) && ClaimsOnly(mid, now)
    requires WellReported(e, mid, now) && mid[e.jobId].status == Pending
    requires e.status == Completed <==> Succeeds(rounds(|entries|).job)
    requires LecturesChangedOnly(lecturesMid, lecturesNow, {mid[e.jobId].lectureId})
    ensures Reported(entries + [e], rounds, start, now, lectures0, lecturesNow)
  {
    WellReportedAppend(entries, start, mid, now, e);
    DistinctAppend(entries, start, mid, e);
    OutcomesAppend(entries, (k: nat) => Succeeds(rounds(k).job), e);
    assert mid[e.jobId] == start[e.jobId];
    LecturesChangedOnlyTrans(lectures0, lecturesMid, lecturesNow, EntryLectures(entries, start), {start[e.jobId].lectureId});
    EntryLecturesAppend(entries, e, start);
  }

  lemma WellReportedAppend(entries: seq<Entry>, start: map<nat, Job>, mid: map<nat, Job>, now: map<nat, Job>, e: Entry)
    requires forall k :: 0 <= k < |entries| ==> WellReported(entries[k], start, mid)
    requires AttemptsOnlyByClaims(start, mid) && ClaimsOnly(mid, now)
    requires WellReported(e, mid, now) && mid[e.jobId].status == Pending
    ensures forall k :: 0 <= k < |entries + [e]| ==> WellReported((entries + [e])[k], start, now)
  {
    ReportsSurviveClaims(entries, start, mid, now);
    assert mid[e.jobId] == start[e.jobId];
    assert WellReported(e, start, now);
  }

  lemma DistinctAppend(entries: seq<Entry>, start: map<nat, Job>, mid: map<nat, Job>, e: Entry)
    requires forall i, j :: 0 <= i < j < |entries| ==> entries[i].jobId != entries[j].jobId
    requires forall k :: 0 <= k < |entries| ==> WellReported(entries[k], start, mid)
    requires e.jobId in mid && mid[e.jobId].status == Pending
    ensures forall i, j :: 0 <= i < j < |entries + [e]| ==> (entries + [e])[i].jobId != (entries + [e])[j].jobId
  {
    forall k | 0 <= k < |entries| ensures entries[k].jobId != e.jobId {
      assert mid[entries[k].jobId].status != Pending;
    }
  }

  lemma OutcomesAppend(entries: seq<Entry>, ok: nat -> bool, e: Entry)
    requires forall k :: 0 <= k < |entries| ==> (entries[k].status == Completed <==> ok(k))
    requires e.status == Completed <==> ok(|entries|)
    ensures forall k :: 0 <= k < |entries + [e]| ==> ((entries + [e])[k].status == Completed <==> ok(k))
  {
  }

  /** One iteration of the batch loop. */
  datatype Round = Round(claim: ClaimWorld, job: JobWorld, now: nat)

  /** `downloadAudio` followed by `runDeepgramTranscription`: the parsed
      response or what was thrown. */
  function FetchTranscription(download: Download, fetch: Result<HttpReply, string>): (r: Result<Response, Thrown>)
    ensures download.DownloadFailed? ==>
      r == Err(ErrorInstance("Unable to download audio file: " + download.message.GetOr("Unknown error")))
    ensures r.Ok? ==> download.Downloaded? && fetch.Ok? && 200 <= fetch.value.status <= 299 && fetch.value.json == Ok(r.value)
    ensures download.Downloaded? && fetch.Ok? && !(200 <= fetch.value.status <= 299) ==>
      r == Err(ErrorInstance("Deepgram request failed (" + IntToString(fetch.value.status) + "): " + fetch.value.text))
  {
    if download.DownloadFailed? then
      Err(ErrorInstance("Unable to download audio file: " + download.message.GetOr("Unknown error")))
    else if fetch.Err? then Err(ErrorInstance(fetch.error))
    else if !(200 <= fetch.value.status <= 299) then
      Err(ErrorInstance("Deepgram request failed (" + IntToString(fetch.value.status) + "): " + fetch.value.text))
    else if fetch.value.json.Err? then Err(ErrorInstance(fetch.value.json.error))
    else Ok(fetch.value.json.value)
  }

  // ----- Enqueue -----

  datatype EnqueueBody = EnqueueBody(lectureId: Option<string>, audioPath: Option<string>, audioMimeType: Option<string>)

  /** Why the enqueue endpoint refused, each with its status code and message. */
  datatype Refusal = Unreadable(message: string) | MissingFields | Unauthorized | LectureNotFound | InsertFailed {
    function Code(): nat {
      match this
      case Unreadable(_) => 500
      case MissingFields => 400
      case Unauthorized => 401
      case LectureNotFound => 404
      case InsertFailed => 500
    }

    function Message(): string {
      match this
      case Unreadable(m) => m
      case MissingFields => "lectureId and audioPath are required."
      case Unauthorized => "Unauthorized"
      case LectureNotFound => "Lecture not found."
      case InsertFailed => "Failed to enqueue transcription job."
    }
  }

  datatype EnqueueReply = Enqueued(jobId: nat, status: JobStatus) | Rejected(reason: Refusal)

  /** A job the enqueue endpoint replaces. */
  predicate IsStale(job: Job, lectureId: string) {
    job.lectureId == lectureId && (job.status == Pending || job.status == Failed)
  }

  /** The delete of a lecture's pending and failed jobs: exactly those rows
      go, every other row stays as it was. */
  function DeleteStale(jobs: map<nat, Job>, lectureId: string): (r: map<nat, Job>)
    ensures forall id :: id in r <==> id in jobs && !IsStale(jobs[id], lectureId)
    ensures forall id :: id in r ==> r[id] == jobs[id]
  {
    map id | id in jobs && !IsStale(jobs[id], lectureId) :: jobs[id]
  }

  /** The row the enqueue endpoint inserts. */
  function NewJob(id: nat, lectureId: string, userId: string, audioPath: string, mime: Option<string>, attempts: nat, now: nat): (r: Job)
    ensures r.status == Pending && r.error.None? && r.id == id
    ensures r.lectureId == lectureId && r.userId == userId && r.audioPath == audioPath && r.audioMimeType == mime
  {
    Job(id, lectureId, userId, audioPath, mime, Pending, attempts, None, map[], now, None, None)
  }

  /** The trimmed fields of a well-formed enqueue request. */
  datatype EnqueueInput = EnqueueInput(lectureId: string, audioPath: string, audioMimeType: Option<string>)

  /** The body checks that come before any database access: an unreadable
      body is a 500 with the parser's message, and a lecture id or audio
      path that is missing or blank after trimming is a 400. */
  function ParseEnqueue(body: Result<EnqueueBody, string>): (r: Result<EnqueueInput, EnqueueReply>)
    ensures body.Err? ==> r == Err(Rejected(Unreadable(body.error)))
    ensures body.Ok? ==>
      (r.Err? <==> Trim(body.value.lectureId.GetOr("")) == "" || Trim(body.value.audioPath.GetOr("")) == "")
    ensures body.Ok? && r.Err? ==> r.error == Rejected(MissingFields)
    ensures r.Ok? ==>
      && r.value.lectureId != "" && r.value.lectureId == Trim(body.value.lectureId.value)
      && r.value.audioPath != "" && r.value.audioPath == Trim(body.value.audioPath.value)
      && r.value.audioMimeType == body.value.audioMimeType.Map(Trim)
  {
    if body.Err? then Err(Rejected(Unreadable(body.error)))
    else
      var lectureId := Trim(body.value.lectureId.GetOr(""));
      var audioPath := Trim(body.value.audioPath.GetOr(""));
      if lectureId == "" || audioPath == "" then Err(Rejected(MissingFields))
      else Ok(EnqueueInput(lectureId, audioPath, body.value.audioMimeType.Map(Trim)))
  }

  /** After the stale jobs are deleted and the new one inserted, the new
      job is the lecture's only pending or failed job. */
  lemma OneOpenJobAfterEnqueue(jobs: map<nat, Job>, job: Job)
    requires job.status == Pending && job.id !in jobs
    ensures var after := DeleteStale(jobs, job.lectureId)[job.id := job];
      forall id :: id in after && IsStale(after[id], job.lectureId) <==> id == job.id
  {
  }

  // ----- The worker's answer -----

  /** One entry of the `jobs` array. */
  datatype Entry = Entry(jobId: nat, status: JobStatus, error: Option<string>)

  datatype ServeReply = NotAllowed | NoPendingJobs | Batch(entries: seq<Entry>) | ServerError(message: string)

  /** A body is plain text or JSON. */
  datatype Body = Text(text: string) | JsonBody(json: Json)

  datatype HttpResponse = HttpResponse(status: nat, body: Body)

  /** `{ jobId, status }`, with `error` only on a failed entry. */
  function EntryJson(e: Entry): (j: Json)
    ensures j.JObj? && "jobId" in j.fields && "status" in j.fields
    ensures "error" in j.fields <==> e.error.Some?
    ensures forall key :: key in j.fields ==> key == "jobId" || key == "status" || key == "error"
    ensures j.fields["jobId"] == JNum(e.jobId as real) && j.fields["status"] == JStr(StatusName(e.status))
    ensures e.error.Some? ==> j.fields["error"] == JStr(e.error.value)
  {
    JObj(map["jobId" := JNum(e.jobId as real), "status" := JStr(StatusName(e.status))]
      + (if e.error.Some? then map["error" := JStr(e.error.value)] else map[]))
  }

  function StatusName(s: JobStatus): string {
    match s
    case Pending => "pending"
    case Processing => "processing"
    case Completed => "completed"
    case Failed => "failed"
  }

  /** The HTTP response `serve` sends for each outcome. */
  function Render(r: ServeReply): (h: HttpResponse)
    ensures h.status == (if r.NotAllowed? then 405 else if r.ServerError? then 500 else 200)
    ensures r.NoPendingJobs? ==> h.body == JsonBody(JObj(map["processed" := JNum(0.0), "message" := JStr("No pending jobs.")]))
    ensures r.Batch? ==>
      (h.body.JsonBody? && h.body.json.JObj? && "processed" in h.body.json.fields && "jobs" in h.body.json.fields
       && h.body.json.fields["processed"] == JNum(|r.entries| as real)
       && h.body.json.fields["jobs"].JArr? && |h.body.json.fields["jobs"].items| == |r.entries|
       && forall k :: 0 <= k < |r.entries| ==> h.body.json.fields["jobs"].items[k] == EntryJson(r.entries[k]))
    ensures r.NotAllowed? ==> h.body == Text("Method not allowed")
    ensures r.ServerError? ==> h.body == JsonBody(JObj(map["error" := JStr(r.message)]))
  {
    match r
    case NotAllowed => HttpResponse(405, Text("Method not allowed"))
    case NoPendingJobs => HttpResponse(200, JsonBody(JObj(map["processed" := JNum(0.0), "message" := JStr("No pending jobs.")])))
    case Batch(entries) =>
      var items := seq(|entries|, i requires 0 <= i < |entries| => EntryJson(entries[i]));
      HttpResponse(200, JsonBody(JObj(map["processed" := JNum(|entries| as real), "jobs" := JArr(items)])))
    case ServerError(m) => HttpResponse(500, JsonBody(JObj(map["error" := JStr(m)])))
  }

  /** `Number(param)`: a finite number, or NaN / an infinity. */
  datatype NumberValue = Finite(x: real) | NotFinite

  /** The batch limit: `Number(limit ?? '1')`, clamped to [1, 3], and 1 when
      it is not a finite number. */
  function ClampLimit(param: Option<NumberValue>): (r: real)
    ensures 1.0 <= r <= 3.0
    ensures param.None? || param == Some(NotFinite) ==> r == 1.0
    ensures param.Some? && param.value.Finite? && 1.0 <= param.value.x <= 3.0 ==> r == param.value.x
  {
    var n := if param.None? then Finite(1.0) else param.value;
    if n.NotFinite? then 1.0
    else
      var atLeastOne := if n.x > 1.0 then n.x else 1.0;
      if atLeastOne < 3.0 then atLeastOne else 3.0
  }

  /** How many times `for (let i = 0; i < limit; i++)` runs: the least
      whole number not below `limit`. */
  function Iterations(limit: real): (n: nat)
    requires 0.0 <= limit
    ensures limit <= n as real && (n == 0 || (n - 1) as real < limit)
  {
    if limit == 0.0 then 0
    else if limit == limit.Floor as real then limit.Floor
    else limit.Floor + 1
  }

  /** The loop runs between one and three times. */
  lemma BatchBounds(param: Option<NumberValue>)
    ensures 1 <= Iterations(ClampLimit(param)) <= 3
  {
  }

  // ----- The two tables -----

  class Store {
    var jobs: map<nat, Job>
    var lectures: map<string, Lecture>
    /** The id the next inserted job receives. */
    var nextId: nat

    ghost predicate Valid()
      reads this`jobs, this`nextId
    {
      forall id :: id in jobs ==> id < nextId && jobs[id].id == id
    }

    constructor (lectures0: map<string, Lecture>)
      ensures Valid() && jobs == map[] && lectures == lectures0
    {
      jobs := map[];
      lectures := lectures0;
      nextId := 0;
    }

    /** The `POST` handler of app/api/transcriptions/route.ts. The checks
        come in a fixed order, and none of the early answers touches a
        table; the delete's and the lecture update's results are not
        examined, so their failures go unnoticed. */
    method Enqueue(body: Result<EnqueueBody, string>, session: Option<string>, visible: bool,
                   deleteOk: bool, insertOk: bool, lectureUpdateOk: bool, attemptsDefault: nat, now: nat)
      returns (reply: EnqueueReply)
      requires Valid()
      modifies this
      ensures Valid()
      ensures ParseEnqueue(body).Err? ==> reply == ParseEnqueue(body).error && jobs == old(jobs) && lectures == old(lectures)
      ensures ParseEnqueue(body).Ok? && session.None? ==>
        reply == Rejected(Unauthorized) && jobs == old(jobs) && lectures == old(lectures)
      ensures ParseEnqueue(body).Ok? && session.Some? && !(visible && ParseEnqueue(body).value.lectureId in old(lectures)) ==>
        reply == Rejected(LectureNotFound) && jobs == old(jobs) && lectures == old(lectures)
      ensures reply.Enqueued? || reply == Rejected(InsertFailed) ==>
        && ParseEnqueue(body).Ok? && session.Some? && visible && ParseEnqueue(body).value.lectureId in old(lectures)
        && (reply.Enqueued? <==> insertOk)
      ensures reply == Rejected(InsertFailed) ==>
        var lectureId := ParseEnqueue(body).value.lectureId;
        && jobs == (if deleteOk then DeleteStale(old(jobs), lectureId) else old(jobs))
        && lectures == old(lectures)
      ensures reply.Enqueued? ==>
        var input := ParseEnqueue(body).value;
        var job := NewJob(old(nextId), input.lectureId, session.value, input.audioPath, input.audioMimeType, attemptsDefault, now);
        && reply == Enqueued(job.id, Pending)
        && job.id !in old(jobs)
        && jobs == (if deleteOk then DeleteStale(old(jobs), input.lectureId) else old(jobs))[job.id := job]
        && lectures == (if lectureUpdateOk
                        then old(lectures)[input.lectureId := old(lectures)[input.lectureId].(transcriptionStatus := Some(Pending), transcriptionError := None)]
                        else old(lectures))
    {
      var parsed := ParseEnqueue(body);
      if parsed.Err? {
        return parsed.error;
      }
      var input := parsed.value;
      if session.None? {
        return Rejected(Unauthorized);
      }
      if !(visible && input.lectureId in lectures) {
        return Rejected(LectureNotFound);
      }
      if deleteOk {
        jobs := DeleteStale(jobs, input.lectureId);
      }
      if !insertOk {
        return Rejected(InsertFailed);
      }
      var job := NewJob(nextId, input.lectureId, session.value, input.audioPath, input.audioMimeType, attemptsDefault, now);
      jobs := jobs[job.id := job];
      nextId := nextId + 1;
      if lectureUpdateOk {
        lectures := lectures[input.lectureId := lectures[input.lectureId].(transcriptionStatus := Some(Pending), transcriptionError := None)];
      }
      reply := Enqueued(job.id, Pending);
    }

    /** `claimNextJob`: select the oldest pending row, then claim it with a
        compare-and-set. A select error is thrown; no pending row, a lost
        race or a failed update give no job. */
    method ClaimNext(w: ClaimWorld, now: nat) returns (r: Result<Option<Job>, Thrown>)
      requires Valid()
      modifies this`jobs
      ensures Valid() && jobs.Keys == old(jobs).Keys
      ensures w.selectError.Some? ==> r == Err(w.selectError.value) && jobs == old(jobs)
      ensures w.selectError.None? && !HasPending(old(jobs)) ==> r == Ok(None) && jobs == old(jobs)
      ensures r.Ok? && r.value.Some? ==>
        var id := r.value.value.id;
        IsOldestPending(old(jobs), id) && !w.rival && !w.updateFails
        && r.value.value == Claimed(old(jobs)[id], now) && jobs == old(jobs)[id := r.value.value]
      ensures w.selectError.None? && HasPending(old(jobs)) && !w.rival && !w.updateFails ==> r.Ok? && r.value.Some?
      ensures r.Ok? && r.value.None? ==>
        jobs == old(jobs) || (w.rival && exists id :: IsOldestPending(old(jobs), id) && jobs == old(jobs)[id := Claimed(old(jobs)[id], w.rivalNow)])
      ensures r.Err? <==> w.selectError.Some?
      ensures ClaimsOnly(old(jobs), jobs)
    {
      if w.selectError.Some? {
        return Err(w.selectError.value);
      }
      if !HasPending(jobs) {
        return Ok(None);
      }
      OldestPendingExists(jobs);
      var id :| IsOldestPending(jobs, id);
      if w.rival {
        jobs := ClaimCas(jobs, id, w.rivalNow).jobs;
      }
      if w.updateFails {
        return Ok(None);
      }
      var cas := ClaimCas(jobs, id, now);
      jobs := cas.jobs;
      r := Ok(cas.row);
    }

    /** `updateLectureWithTranscript`: reject a response without a usable
        transcript, read the lecture's metadata, merge, and write the
        transcript, duration, metadata and completed status. A missing
        lecture row makes the write a no-op, not an error. */
    method UpdateLectureWithTranscript(job: Job, payload: Response, readOk: bool, writeError: Option<Thrown>)
      returns (failure: Option<Thrown>)
      modifies this`lectures
      ensures WorkerTranscript(payload).Err? ==> failure == Some(ErrorInstance(WorkerTranscript(payload).error)) && lectures == old(lectures)
      ensures WorkerTranscript(payload).Ok? ==> failure == writeError
      ensures lectures.Keys == old(lectures).Keys
      ensures failure.Some? ==> lectures == old(lectures)
      ensures failure.None? ==>
        var found := WorkerTranscript(payload).value;
        lectures == if job.lectureId in old(lectures)
                    then old(lectures)[job.lectureId := Transcribed(old(lectures)[job.lectureId], found.1, payload, found.0,
                                                                    ExistingMetadata(Some(old(lectures)[job.lectureId]), readOk))]
                    else old(lectures)
    {
      var found := WorkerTranscript(payload);
      if found.Err? {
        return Some(ErrorInstance(found.error));
      }
      var row := if job.lectureId in lectures then Some(lectures[job.lectureId]) else None;
      var existing := ExistingMetadata(row, readOk);
      if writeError.Some? {
        return writeError;
      }
      if job.lectureId in lectures {
        lectures := lectures[job.lectureId := Transcribed(lectures[job.lectureId], found.value.1, payload, found.value.0, existing)];
      }
      failure := None;
    }

    /** `markJobCompleted`: a failed write is thrown; otherwise the row is
        completed, with `extra` merged over the claimed row's metadata. */
    method MarkJobCompleted(job: Job, extra: map<string, Json>, writeError: Option<Thrown>, now: nat)
      returns (failure: Option<Thrown>)
      requires Valid()
      modifies this`jobs
      ensures Valid() && jobs.Keys == old(jobs).Keys
      ensures failure == writeError
      ensures forall id :: id in jobs && id != job.id ==> jobs[id] == old(jobs)[id]
      ensures forall id :: id in jobs ==> jobs[id].attempts == old(jobs)[id].attempts
      ensures jobs == if failure.None? && job.id in old(jobs)
                      then old(jobs)[job.id := CompletedRow(old(jobs)[job.id], job.metadata, extra, now)]
                      else old(jobs)
    {
      if writeError.Some? {
        return writeError;
      }
      if job.id in jobs {
        jobs := jobs[job.id := CompletedRow(jobs[job.id], job.metadata, extra, now)];
      }
      failure := None;
    }

    /** `markJobFailed`: the job and the lecture both get the message; the
        results of the two writes are not examined. */
    method MarkJobFailed(job: Job, message: string, jobWriteOk: bool, lectureWriteOk: bool, now: nat)
      requires Valid()
      modifies this`jobs, this`lectures
      ensures Valid() && jobs.Keys == old(jobs).Keys && lectures.Keys == old(lectures).Keys
      ensures jobs == if jobWriteOk && job.id in old(jobs) then old(jobs)[job.id := FailedRow(old(jobs)[job.id], message, now)] else old(jobs)
      ensures lectures == LecturesFailed(old(lectures), job.lectureId, message, lectureWriteOk)
      ensures lectureWriteOk && job.lectureId in old(lectures) ==>
        lectures[job.lectureId].transcriptionStatus == Some(Failed) && lectures[job.lectureId].transcriptionError == Some(message)
    {
      if jobWriteOk && job.id in jobs {
        jobs := jobs[job.id := FailedRow(jobs[job.id], message, now)];
      }
      lectures := LecturesFailed(lectures, job.lectureId, message, lectureWriteOk);
    }

    /** The first three steps of the batch loop's `try` block: download,
        transcribe, update the lecture. Only `lectures` changes, and only
        when all three succeed; the provider's response is handed on. */
    method TranscribeLecture(job: Job, w: JobWorld) returns (r: Result<Response, Thrown>)
      modifies this`lectures
      ensures lectures.Keys == old(lectures).Keys
      ensures r.Ok? <==> LectureUpdated(w)
      ensures r.Ok? ==> r == FetchTranscription(w.download, w.fetch)
      ensures FetchTranscription(w.download, w.fetch).Err? ==> r == FetchTranscription(w.download, w.fetch)
      ensures FetchTranscription(w.download, w.fetch).Ok? && WorkerTranscript(FetchTranscription(w.download, w.fetch).value).Err? ==>
        r == Err(ErrorInstance(WorkerTranscript(FetchTranscription(w.download, w.fetch).value).error))
      ensures FetchTranscription(w.download, w.fetch).Ok? && WorkerTranscript(FetchTranscription(w.download, w.fetch).value).Ok? ==>
        (r.Err? <==> w.lectureWrite.Some?) && (r.Err? ==> r.error == w.lectureWrite.value)
      ensures r.Err? ==> lectures == old(lectures)
      ensures r.Ok? && job.lectureId in old(lectures) ==>
        lectures[job.lectureId].transcriptionStatus == Some(Completed)
        && lectures[job.lectureId].transcript == Some(WorkerTranscript(r.value).value.1)
      ensures lectures == if LectureUpdated(w) then LecturesTranscribed(old(lectures), job.lectureId, w) else old(lectures)
    {
      r := FetchTranscription(w.download, w.fetch);
      if r.Ok? {
        var failure := UpdateLectureWithTranscript(job, r.value, w.lectureReadOk, w.lectureWrite);
        if failure.Some? {
          r := Err(failure.value);
        }
      }
    }

    /** The `try` block of the batch loop: the lecture update, then the
        job's completion. The job row changes only when everything before
        the completion write succeeded. */
    method Reconcile(job: Job, w: JobWorld, now: nat) returns (failure: Option<Thrown>)
      requires Valid() && job.id in jobs && job.lectureId == jobs[job.id].lectureId
      modifies this`jobs, this`lectures
      ensures Valid() && jobs.Keys == old(jobs).Keys && lectures.Keys == old(lectures).Keys
      ensures forall id :: id in jobs && id != job.id ==> jobs[id] == old(jobs)[id]
      ensures forall id :: id in jobs ==> jobs[id].attempts == old(jobs)[id].attempts
      ensures failure.None? <==> Succeeds(w)
      ensures failure.Some? ==> jobs[job.id] == old(jobs)[job.id]
      ensures failure.None? ==> jobs[job.id].status == Completed && jobs[job.id].error.None?
      ensures failure.None? && job.lectureId in old(lectures) ==>
        lectures[job.lectureId].transcriptionStatus == Some(Completed)
        && lectures[job.lectureId].transcript == Some(WorkerTranscript(FetchTranscription(w.download, w.fetch).value).value.1)
      ensures lectures == if LectureUpdated(w) then LecturesTranscribed(old(lectures), job.lectureId, w) else old(lectures)
      ensures jobs == if Succeeds(w) then JobsCompleted(old(jobs), job, w, now) else old(jobs)
    {
      var transcribed := TranscribeLecture(job, w);
      if transcribed.Err? {
        return Some(transcribed.error);
      }
      failure := MarkJobCompleted(job, RequestIdEntry(transcribed.value), w.completeWrite, now);
    }

    /** One iteration of the batch loop for a claimed job: on success the
        entry is completed; any error marks the job and the lecture failed
        with the same message, which the entry carries. */
    method ProcessJob(job: Job, w: JobWorld, now: nat) returns (entry: Entry)
      requires Valid() && job.id in jobs && job.lectureId == jobs[job.id].lectureId
      modifies this`jobs, this`lectures
      ensures Valid() && jobs.Keys == old(jobs).Keys && lectures.Keys == old(lectures).Keys
      ensures entry.jobId == job.id
      ensures entry.status == Completed || entry.status == Failed
      ensures entry.error.Some? <==> entry.status == Failed
      ensures forall id :: id in jobs && id != job.id ==> jobs[id] == old(jobs)[id]
      ensures forall id :: id in jobs ==> jobs[id].attempts == old(jobs)[id].attempts
      ensures entry.status == Completed <==> Succeeds(w)
      ensures entry.status == Completed ==> jobs[job.id].status == Completed && jobs[job.id].error.None?
      ensures entry.status == Failed ==>
        (w.failJobWriteOk ==> jobs[job.id] == FailedRow(old(jobs)[job.id], entry.error.value, now))
        && (!w.failJobWriteOk ==> jobs[job.id] == old(jobs)[job.id])
        && (w.failLectureWriteOk && job.lectureId in old(lectures) ==>
              lectures[job.lectureId].transcriptionStatus == Some(Failed)
              && lectures[job.lectureId].transcriptionError == entry.error)
      ensures entry.status == Completed ==>
        && lectures == LecturesTranscribed(old(lectures), job.lectureId, w)
        && jobs == old(jobs)[job.id := CompletedRow(old(jobs)[job.id], job.metadata,
                                                    RequestIdEntry(FetchTranscription(w.download, w.fetch).value), now)]
      ensures entry.status == Failed ==>
        && jobs == (if w.failJobWriteOk then old(jobs)[job.id := FailedRow(old(jobs)[job.id], entry.error.value, now)] else old(jobs))
        && lectures == LecturesFailed(if LectureUpdated(w) then LecturesTranscribed(old(lectures), job.lectureId, w) else old(lectures),
                                      job.lectureId, entry.error.value, w.failLectureWriteOk)
    {
      var failure := Reconcile(job, w, now);
      if failure.None? {
        entry := Entry(job.id, Completed, None);
      } else {
        var message := CaughtMessage(failure.value, "Unknown worker error");
        MarkJobFailed(job, message, w.failJobWriteOk, w.failLectureWriteOk, now);
        entry := Entry(job.id, Failed, Some(message));
      }
    }

    /** One iteration of the batch loop: claim the next job and, when there
        is one, process it. */
    method RunRound(round: Round) returns (r: Result<Option<Entry>, Thrown>)
      requires Valid()
      modifies this`jobs, this`lectures
      ensures Valid() && ClaimsOnly(old(jobs), jobs)
      ensures r.Err? ==> round.claim.selectError == Some(r.error) && jobs == old(jobs)
      ensures r == Ok(None) ==> round.claim.rival || round.claim.updateFails || (!HasPending(jobs) && jobs == old(jobs))
      ensures r.Ok? && r.value.Some? ==>
        WellReported(r.value.value, old(jobs), jobs) && old(jobs)[r.value.value.jobId].status == Pending
      ensures r.Err? || r.value.None? ==> lectures == old(lectures)
      ensures r.Ok? && r.value.Some? ==>
        var e, lectureId := r.value.value, old(jobs)[r.value.value.jobId].lectureId;
        && (e.status == Completed <==> Succeeds(round.job))
        && (e.status == Completed ==> lectures == LecturesTranscribed(old(lectures), lectureId, round.job))
        && (e.status == Failed ==>
              lectures == LecturesFailed(if LectureUpdated(round.job) then LecturesTranscribed(old(lectures), lectureId, round.job) else old(lectures),
                                         lectureId, e.error.value, round.job.failLectureWriteOk))
      ensures r.Ok? && r.value.Some? ==> LecturesChangedOnly(old(lectures), lectures, {old(jobs)[r.value.value.jobId].lectureId})
    {
      var claimed := ClaimNext(round.claim, round.now);
      if claimed.Err? {
        return Err(claimed.error);
      }
      if claimed.value.None? {
        return Ok(None);
      }
      var job := claimed.value.value;
      ghost var start := old(jobs);
      var entry := ProcessJob(job, round.job, round.now);
      assert Reclaimed(start[job.id], jobs[job.id]);
      OneRowReclaimed(start, jobs, job.id);
      r := Ok(Some(entry));
    }

    /** The `serve` handler: anything but `POST` is refused; otherwise up to
        `Iterations(ClampLimit(limit))` jobs are claimed and processed one by
        one, stopping at the first claim that yields no job. A select error
        ends the run with a 500. Each processed job appears once, was pending
        when the run began, and received exactly one more attempt; no other
        change to `attempts` happens except through claims of pending jobs. */
    method Serve(request: ServeRequest, rounds: nat -> Round) returns (reply: ServeReply)
      requires Valid()
      modifies this`jobs, this`lectures
      ensures Valid()
      ensures request.httpMethod != "POST" <==> reply == NotAllowed
      ensures reply == NotAllowed ==> jobs == old(jobs) && lectures == old(lectures)
      ensures AttemptsOnlyByClaims(old(jobs), jobs)
      ensures reply.ServerError? ==>
        exists k :: 0 <= k < Iterations(ClampLimit(request.limit)) && rounds(k).claim.selectError.Some?
          && reply.message == CaughtMessage(rounds(k).claim.selectError.value, "Unknown error")
      ensures reply.NoPendingJobs? ==>
        rounds(0).claim.rival || rounds(0).claim.updateFails || !HasPending(old(jobs))
      ensures reply.Batch? ==> 1 <= |reply.entries| <= Iterations(ClampLimit(request.limit)) <= 3
      ensures reply.Batch? && |reply.entries| < Iterations(ClampLimit(request.limit)) ==>
        var next := rounds(|reply.entries|).claim;
        next.rival || next.updateFails || !HasPending(jobs)
      ensures reply.Batch? ==> forall i, j :: 0 <= i < j < |reply.entries| ==> reply.entries[i].jobId != reply.entries[j].jobId
      ensures reply.Batch? ==> forall k :: 0 <= k < |reply.entries| ==> WellReported(reply.entries[k], old(jobs), jobs)
      ensures reply.Batch? ==> forall k :: 0 <= k < |reply.entries| ==> (reply.entries[k].status == Completed <==> Succeeds(rounds(k).job))
      ensures reply.Batch? ==> LecturesChangedOnly(old(lectures), lectures, EntryLectures(reply.entries, old(jobs)))
      ensures reply.NoPendingJobs? ==> lectures == old(lectures)
      ensures reply.ServerError? ==> LecturesChangedOnly(old(lectures), lectures, ClaimedLectures(old(jobs), jobs))
    {
      if request.httpMethod != "POST" {
        return NotAllowed;
      }
      var limit := Iterations(ClampLimit(request.limit));
      BatchBounds(request.limit);
      var processed: seq<Entry> := [];
      while |processed| < limit
        invariant |processed| <= limit
        invariant Valid() && AttemptsOnlyByClaims(old(jobs), jobs)
        invariant |processed| == 0 ==> jobs == old(jobs) && lectures == old(lectures)
        invariant Reported(processed, rounds, old(jobs), jobs, old(lectures), lectures)
        decreases limit - |processed|
      {
        ghost var before, lecturesBefore := jobs, lectures;
        var round := rounds(|processed|);
        var r := RunRound(round);
        AttemptsOnlyByClaimsStep(old(jobs), before, jobs);
        if r.Err? || r.value.None? {
          ReportedSurvives(processed, rounds, old(jobs), before, jobs, old(lectures), lectures);
          if r.Err? {
            ReportedLecturesClaimed(processed, old(jobs), jobs);
            return ServerError(CaughtMessage(r.error, "Unknown error"));
          }
          break;
        }
        ReportedStep(processed, rounds, old(jobs), before, jobs, old(lectures), lecturesBefore, lectures, r.value.value);
        processed := processed + [r.value.value];
      }
      if |processed| == 0 {
        return NoPendingJobs;
      }
      reply := Batch(processed);
    }
  }
}
