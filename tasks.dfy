/**
 The upload task record and what one upload attempt does to it.

 The bot reassigns four fields of a task in place (status, progress, the Drive
 file id and the error text); `TaskState` is the value of those four fields,
 and `DirectUpload` / `ChunkedUpload` say how each outcome of the storage
 provider changes it.
 */
module Tasks {

  datatype Option<T> = None | Some(value: T)

  /** The only status strings the bot ever stores in a task. */
  datatype Status = Queued | Uploading | Completed | Failed

  predicate IsTerminal(s: Status) {
    s == Completed || s == Failed
  }

  /** What the storage provider's upload call did: returned an id, returned nothing, or raised. */
  datatype ProviderResult = Uploaded(id: string) | NoId | Raised(message: string)

  /** The four fields of a task that the upload code reassigns. */
  datatype TaskState = TaskState(status: Status, progress: int, driveFileId: Option<string>, error: Option<string>)

  /** The defaults a new task is created with. */
  const InitialState: TaskState := TaskState(Queued, 0, None, None)

  const AuthRequiredError: string := "Authentication required. Please use /login first."
  const UploadFailedError: string := "Upload failed"
  const DownloadFailedError: string := "Failed to download file from Telegram"

  /** Files strictly larger than this (20 MiB) take the chunked path. */
  const ChunkedUploadThreshold: nat := 20 * 1024 * 1024

  /** The new task state and the boolean the upload function returns. */
  datatype UploadStep = UploadStep(state: TaskState, success: bool)

  /** The returned id is truthy: present and not the empty string. */
  predicate ReturnsId(result: ProviderResult) {
    result.Uploaded? && result.id != ""
  }

  /** The error text recorded when the provider did not return a usable id. */
  function FailureReason(result: ProviderResult): string {
    match result
    case Raised(message) => message
    case _ => UploadFailedError
  }

  /** A task state is well formed when a completed task has its id and full progress,
      a failed task has an error, and a task not yet finished has no Drive id. */
  predicate WellFormed(s: TaskState) {
    && (s.status == Completed ==> s.driveFileId.Some? && s.progress == 100)
    && (s.status == Failed ==> s.error.Some?)
    && (s.status == Queued || s.status == Uploading ==> s.driveFileId.None?)
  }

  /** Outcome handling once the status has been set to uploading and the provider has answered. */
  function Settle(s: TaskState, result: ProviderResult): UploadStep {
    if ReturnsId(result) then
      UploadStep(s.(driveFileId := Some(result.id), status := Completed, progress := 100), true)
    else
      UploadStep(s.(error := Some(FailureReason(result)), status := Failed), false)
  }

  /** The single-call upload path. Without a Drive service the upload is not attempted,
      the error is set and the status is left as it was. */
  function DirectUpload(s: TaskState, hasService: bool, result: ProviderResult): (r: UploadStep)
    ensures r.success <==> hasService && ReturnsId(result)
    ensures !hasService ==>
      r.state.status == s.status && r.state.progress == s.progress
      && r.state.driveFileId == s.driveFileId && r.state.error == Some(AuthRequiredError)
    ensures hasService ==> IsTerminal(r.state.status)
    ensures r.success ==> r.state == TaskState(Completed, 100, Some(result.id), s.error)
    ensures hasService && !r.success ==>
      r.state == TaskState(Failed, s.progress, s.driveFileId, Some(FailureReason(result)))
  {
    if !hasService then UploadStep(s.(error := Some(AuthRequiredError)), false)
    else Settle(s.(status := Uploading), result)
  }

  /** The progress the task holds after the provider's callbacks: the last value reported, if any. */
  function Reported(progress: int, lastProgress: Option<int>): int {
    match lastProgress
    case Some(p) => p
    case None => progress
  }

  /** The resumable upload path. Its outcomes are those of the direct path, except that
      the progress callback may have overwritten the progress before the provider answered. */
  function ChunkedUpload(s: TaskState, hasService: bool, lastProgress: Option<int>, result: ProviderResult): (r: UploadStep)
    ensures r.success <==> hasService && ReturnsId(result)
    ensures !hasService ==>
      r.state.status == s.status && r.state.progress == s.progress
      && r.state.driveFileId == s.driveFileId && r.state.error == Some(AuthRequiredError)
    ensures hasService ==> IsTerminal(r.state.status)
    ensures r.success ==> r.state == TaskState(Completed, 100, Some(result.id), s.error)
    ensures hasService && !r.success ==>
      r.state == TaskState(Failed, Reported(s.progress, lastProgress), s.driveFileId, Some(FailureReason(result)))
  {
    if !hasService then UploadStep(s.(error := Some(AuthRequiredError)), false)
    else Settle(s.(status := Uploading, progress := Reported(s.progress, lastProgress)), result)
  }

  /** The worker's choice of path: chunked only for sizes strictly above the threshold. */
  predicate UsesChunkedUpload(fileSize: int) {
    fileSize > ChunkedUploadThreshold
  }

  /** The upload the worker runs for a task of the given size. */
  function WorkerUpload(fileSize: int, s: TaskState, hasService: bool, lastProgress: Option<int>, result: ProviderResult): UploadStep {
    if UsesChunkedUpload(fileSize) then ChunkedUpload(s, hasService, lastProgress, result)
    else DirectUpload(s, hasService, result)
  }

  /** Exactly 20 MiB goes to the direct path; one byte more goes to the chunked path. */
  lemma PathSelection(fileSize: int)
    ensures UsesChunkedUpload(fileSize) <==> fileSize > 20971520
    ensures !UsesChunkedUpload(20 * 1024 * 1024) && UsesChunkedUpload(20 * 1024 * 1024 + 1)
  {
  }

  /** A chunked upload whose callback never fired ends exactly like a direct one. */
  lemma ChunkedWithoutProgressIsDirect(s: TaskState, hasService: bool, result: ProviderResult)
    ensures ChunkedUpload(s, hasService, None, result) == DirectUpload(s, hasService, result)
  {
  }

  /** Both upload paths keep a task well formed. */
  lemma UploadKeepsWellFormed(fileSize: int, s: TaskState, hasService: bool, lastProgress: Option<int>, result: ProviderResult)
    requires WellFormed(s)
    ensures WellFormed(WorkerUpload(fileSize, s, hasService, lastProgress, result).state)
  {
  }

  /** From a queued task, an upload never leaves the task in the uploading state: it ends
      completed or failed, or, without a Drive service, still queued with the error set. */
  lemma UploadFromQueued(fileSize: int, s: TaskState, hasService: bool, lastProgress: Option<int>, result: ProviderResult)
    requires s.status == Queued
    ensures var r := WorkerUpload(fileSize, s, hasService, lastProgress, result).state;
      && r.status != Uploading
      && (r.status == Queued <==> !hasService)
      && (r.status == Completed <==> hasService && ReturnsId(result))
  {
  }

  /** An empty id from the provider is treated as a failed upload. */
  lemma EmptyIdIsFailure(fileSize: int, s: TaskState, lastProgress: Option<int>)
    ensures var r := WorkerUpload(fileSize, s, true, lastProgress, Uploaded(""));
      !r.success && r.state.status == Failed && r.state.error == Some(UploadFailedError)
  {
  }

  /** One file transfer request. The five request fields never change after creation. */
  class UploadTask {
    const userId: int
    const fileId: string
    const fileName: string
    const fileSize: int
    const messageId: int
    var status: Status
    var progress: int
    var driveFileId: Option<string>
    var error: Option<string>

    /** A new task carries the request fields and the defaults of `InitialState`. */
    constructor (userId: int, fileId: string, fileName: string, fileSize: int, messageId: int)
      ensures this.userId == userId && this.fileId == fileId && this.fileName == fileName
      ensures this.fileSize == fileSize && this.messageId == messageId
      ensures State() == InitialState
    {
      this.userId := userId;
      this.fileId := fileId;
      this.fileName := fileName;
      this.fileSize := fileSize;
      this.messageId := messageId;
      status := Queued;
      progress := 0;
      driveFileId := None;
      error := None;
    }

    /** The current value of the reassigned fields. */
    function State(): TaskState
      reads this
    {
      TaskState(status, progress, driveFileId, error)
    }
  }
}
