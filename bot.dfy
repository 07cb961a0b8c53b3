/**
 The bot's mutable state: the FIFO upload queue, the index of active uploads by
 user, and the per-user cache of Drive managers; the attachment handlers that
 admit tasks, the two upload functions, the download step and one iteration of
 the worker loop.
 */
module Bot {
  import opened Tasks
  import opened Naming
  import opened Commands
  import Config

  /** A user's Drive manager; all the upload code asks of it is whether it built a service. */
  datatype DriveManager = DriveManager(hasService: bool)

  /** The manager `get_drive_manager` hands out: the cached one, or a new one whose
      service exists exactly when the user's stored credential loads. */
  function ManagerFor(cache: map<int, DriveManager>, userId: int, credentialLoads: bool): (m: DriveManager)
    ensures userId in cache ==> m == cache[userId]
    ensures userId !in cache ==> m.hasService == credentialLoads
  {
    if userId in cache then cache[userId] else DriveManager(credentialLoads)
  }

  /** The cache after `get_drive_manager`: the user's entry is added if missing, and
      no existing entry is ever replaced. */
  function CacheAfter(cache: map<int, DriveManager>, userId: int, credentialLoads: bool): (c: map<int, DriveManager>)
    ensures c.Keys == cache.Keys + {userId}
    ensures forall u :: u in cache ==> c[u] == cache[u]
    ensures c[userId] == ManagerFor(cache, userId, credentialLoads)
  {
    if userId in cache then cache else cache[userId := DriveManager(credentialLoads)]
  }

  /** Get-or-create is idempotent, and the first load decides: a later call sees the cached
      manager whatever the stored credential then is. */
  lemma ManagerCacheIsSticky(cache: map<int, DriveManager>, userId: int, first: bool, later: bool)
    ensures var c := CacheAfter(cache, userId, first);
      && ManagerFor(c, userId, later) == ManagerFor(cache, userId, first)
      && CacheAfter(c, userId, later) == c
  {
  }

  /** A handler's verdict on an inbound message. */
  datatype Admission = Ignored | TooLarge | Enqueued

  /** No attachment is ignored; one larger than the maximum is rejected; anything else is queued. */
  function AdmissionFor(attachment: Option<Attachment>): (a: Admission)
    ensures a == Ignored <==> attachment.None?
    ensures a == TooLarge <==> attachment.Some? && attachment.value.fileSize > Config.MaxFileSize
    ensures a == Enqueued <==> attachment.Some? && attachment.value.fileSize <= Config.MaxFileSize
  {
    match attachment
    case None => Ignored
    case Some(a) => if a.fileSize > Config.MaxFileSize then TooLarge else Enqueued
  }

  /** The limit itself is accepted; one byte more is refused. */
  lemma MaxFileSizeBoundary(fileId: string, fileName: Option<string>)
    ensures AdmissionFor(Some(Attachment(fileId, fileName, 2147483648))) == Enqueued
    ensures AdmissionFor(Some(Attachment(fileId, fileName, 2147483649))) == TooLarge
  {
  }

  /** What the outside world does during one iteration of the worker. */
  datatype WorkerInput = WorkerInput(
    downloadOk: bool,             // the Telegram download succeeded
    credentialLoads: bool,        // the user's stored credential loads, if the manager is not cached yet
    lastProgress: Option<int>,    // the last value the chunked upload's progress callback reported
    result: ProviderResult)       // what the storage provider's upload call did

  /** The reply of `/rename`. */
  datatype RenameReply = RenameUsage | RenameNeedsLogin | Renamed(newName: string) | RenameFailed

  /** Removing a key just written drops the write as well as any earlier entry. */
  lemma RemoveAfterUpdate<V>(m: map<int, V>, k: int, v: V)
    ensures m[k := v] - {k} == m - {k}
  {
  }

  class WOWDriveBot {
    var uploadQueue: seq<UploadTask>
    var activeUploads: map<int, UploadTask>
    var userDriveManagers: map<int, DriveManager>

    /** Every queued task was admitted within the size limit and is untouched since its
        creation, and no task is queued twice. */
    ghost predicate Valid()
      reads this`uploadQueue, uploadQueue
    {
      && (forall i :: 0 <= i < |uploadQueue| ==>
            uploadQueue[i].fileSize <= Config.MaxFileSize && uploadQueue[i].State() == InitialState)
      && (forall i, j :: 0 <= i < j < |uploadQueue| ==> uploadQueue[i] != uploadQueue[j])
    }

    constructor ()
      ensures Valid()
      ensures uploadQueue == [] && activeUploads == map[] && userDriveManagers == map[]
    {
      uploadQueue := [];
      activeUploads := map[];
      userDriveManagers := map[];
    }

    /** `get_drive_manager`: the cached manager, created and cached on first use. */
    method GetDriveManager(userId: int, credentialLoads: bool) returns (manager: DriveManager)
      modifies this`userDriveManagers
      ensures manager == ManagerFor(old(userDriveManagers), userId, credentialLoads)
      ensures userDriveManagers == CacheAfter(old(userDriveManagers), userId, credentialLoads)
      ensures uploadQueue == old(uploadQueue) && activeUploads == old(activeUploads)
    {
      if userId !in userDriveManagers {
        var created := DriveManager(credentialLoads);
        userDriveManagers := userDriveManagers[userId := created];
      }
      manager := userDriveManagers[userId];
    }

    /** The document, photo and video handlers: reject an oversized file, otherwise append
        one new task with its defaulted name at the tail of the queue. */
    method HandleFile(kind: FileKind, userId: int, messageId: int, attachment: Option<Attachment>) returns (outcome: Admission)
      requires Valid()
      modifies this`uploadQueue
      ensures Valid()
      ensures outcome == AdmissionFor(attachment)
      ensures activeUploads == old(activeUploads) && userDriveManagers == old(userDriveManagers)
      ensures outcome != Enqueued ==> uploadQueue == old(uploadQueue)
      ensures outcome == Enqueued ==>
        && |uploadQueue| == |old(uploadQueue)| + 1
        && uploadQueue[..|old(uploadQueue)|] == old(uploadQueue)
        && var t := uploadQueue[|old(uploadQueue)|];
           && fresh(t)
           && t.userId == userId && t.messageId == messageId
           && t.fileId == attachment.value.fileId && t.fileSize == attachment.value.fileSize
           && t.fileName == TaskFileName(kind, attachment.value)
           && t.State() == InitialState
    {
      if attachment.None? {
        return Ignored;
      }
      var a := attachment.value;
      if a.fileSize > Config.MaxFileSize {
        return TooLarge;
      }
      var task := new UploadTask(userId, a.fileId, TaskFileName(kind, a), a.fileSize, messageId);
      uploadQueue := uploadQueue + [task];
      outcome := Enqueued;
    }

    /** `upload_file_direct`, its state changes proved equal to `DirectUpload`. */
    method UploadFileDirect(task: UploadTask, credentialLoads: bool, result: ProviderResult) returns (success: bool)
      modifies this`userDriveManagers, task
      ensures uploadQueue == old(uploadQueue) && activeUploads == old(activeUploads)
      ensures userDriveManagers == CacheAfter(old(userDriveManagers), task.userId, credentialLoads)
      ensures UploadStep(task.State(), success)
        == DirectUpload(old(task.State()), ManagerFor(old(userDriveManagers), task.userId, credentialLoads).hasService, result)
    {
      var manager := GetDriveManager(task.userId, credentialLoads);
      if !manager.hasService {
        task.error := Some(AuthRequiredError);
        return false;
      }
      task.status := Uploading;
      if result.Raised? {
        task.error := Some(result.message);
        task.status := Failed;
        return false;
      }
      var driveFileId := if result.Uploaded? then Some(result.id) else None;
      if driveFileId.Some? && driveFileId.value != "" {
        task.driveFileId := driveFileId;
        task.status := Completed;
        task.progress := 100;
        success := true;
      } else {
        task.error := Some(UploadFailedError);
        task.status := Failed;
        success := false;
      }
    }

    /** `upload_file_chunked`, its state changes proved equal to `ChunkedUpload`; the progress
        callback's assignments are summed up by the last value it reported. */
    method UploadFileChunked(task: UploadTask, credentialLoads: bool, lastProgress: Option<int>, result: ProviderResult)
      returns (success: bool)
      modifies this`userDriveManagers, task
      ensures uploadQueue == old(uploadQueue) && activeUploads == old(activeUploads)
      ensures userDriveManagers == CacheAfter(old(userDriveManagers), task.userId, credentialLoads)
      ensures UploadStep(task.State(), success)
        == ChunkedUpload(old(task.State()), ManagerFor(old(userDriveManagers), task.userId, credentialLoads).hasService,
                         lastProgress, result)
    {
      var manager := GetDriveManager(task.userId, credentialLoads);
      if !manager.hasService {
        task.error := Some(AuthRequiredError);
        return false;
      }
      task.status := Uploading;
      if lastProgress.Some? {
        task.progress := lastProgress.value;
      }
      if result.Raised? {
        task.error := Some(result.message);
        task.status := Failed;
        return false;
      }
      var driveFileId := if result.Uploaded? then Some(result.id) else None;
      if driveFileId.Some? && driveFileId.value != "" {
        task.driveFileId := driveFileId;
        task.status := Completed;
        task.progress := 100;
        success := true;
      } else {
        task.error := Some(UploadFailedError);
        task.status := Failed;
        success := false;
      }
    }

    /** `download_telegram_file`: the staging path on success, nothing on failure. */
    method DownloadTelegramFile(task: UploadTask, downloadOk: bool) returns (filePath: Option<string>)
      ensures downloadOk ==> filePath == Some(StagingPath(task.fileId, task.fileName)) && filePath.value != ""
      ensures !downloadOk ==> filePath.None?
    {
      if downloadOk {
        filePath := Some(StagingPath(task.fileId, task.fileName));
      } else {
        filePath := None;
      }
    }

    /** The worker's choice of upload function by size, its effect stated by `WorkerUpload`. */
    method UploadByPath(task: UploadTask, input: WorkerInput) returns (success: bool)
      modifies this`userDriveManagers, task
      ensures uploadQueue == old(uploadQueue) && activeUploads == old(activeUploads)
      ensures userDriveManagers == CacheAfter(old(userDriveManagers), task.userId, input.credentialLoads)
      ensures UploadStep(task.State(), success)
        == WorkerUpload(task.fileSize, old(task.State()),
                        ManagerFor(old(userDriveManagers), task.userId, input.credentialLoads).hasService,
                        input.lastProgress, input.result)
    {
      if task.fileSize > 20 * 1024 * 1024 {
        success := UploadFileChunked(task, input.credentialLoads, input.lastProgress, input.result);
      } else {
        success := UploadFileDirect(task, input.credentialLoads, input.result);
      }
    }

    /** The body of one worker iteration once the task has left the queue: the task is recorded
        as its user's active upload; a failed download marks it failed and leaves it in the active
        index; after a download the task is uploaded and the user's active entry is removed. */
    method RunTask(task: UploadTask, input: WorkerInput)
      modifies this`activeUploads, this`userDriveManagers, task
      ensures !input.downloadOk ==>
        && activeUploads == old(activeUploads)[task.userId := task]
        && userDriveManagers == old(userDriveManagers)
        && task.State() == old(task.State()).(status := Failed, error := Some(DownloadFailedError))
      ensures input.downloadOk ==>
        && activeUploads == old(activeUploads) - {task.userId}
        && userDriveManagers == CacheAfter(old(userDriveManagers), task.userId, input.credentialLoads)
        && task.State() == WorkerUpload(task.fileSize, old(task.State()),
                                        ManagerFor(old(userDriveManagers), task.userId, input.credentialLoads).hasService,
                                        input.lastProgress, input.result).state
    {
      activeUploads := activeUploads[task.userId := task];

      var filePath := DownloadTelegramFile(task, input.downloadOk);
      if filePath.None? || filePath.value == "" {
        task.status := Failed;
        task.error := Some(DownloadFailedError);
        return;
      }

      var success := UploadByPath(task, input);

      if task.userId in activeUploads {
        activeUploads := activeUploads - {task.userId};
      }
      RemoveAfterUpdate(old(activeUploads), task.userId, task);
    }

    /** One iteration of the worker loop. On an empty queue nothing happens. Otherwise the head
        is popped, the rest of the queue keeps its order, and the popped task is run by `RunTask`
        from its initial state. */
    method ProcessNext(input: WorkerInput) returns (processed: Option<UploadTask>)
      requires Valid()
      modifies this`uploadQueue, this`activeUploads, this`userDriveManagers,
        if uploadQueue == [] then {} else {uploadQueue[0]}
      ensures Valid()
      ensures old(uploadQueue) == [] ==>
        && processed == None && uploadQueue == []
        && activeUploads == old(activeUploads) && userDriveManagers == old(userDriveManagers)
      ensures old(uploadQueue) != [] ==>
        && processed == Some(old(uploadQueue)[0])
        && uploadQueue == old(uploadQueue)[1..]
        && old(uploadQueue)[0].status != Uploading
      ensures old(uploadQueue) != [] && !input.downloadOk ==>
        var t := old(uploadQueue)[0];
        && activeUploads == old(activeUploads)[t.userId := t]
        && userDriveManagers == old(userDriveManagers)
        && t.State() == TaskState(Failed, 0, None, Some(DownloadFailedError))
      ensures old(uploadQueue) != [] && input.downloadOk ==>
        var t := old(uploadQueue)[0];
        && activeUploads == old(activeUploads) - {t.userId}
        && userDriveManagers == CacheAfter(old(userDriveManagers), t.userId, input.credentialLoads)
        && t.State() == WorkerUpload(t.fileSize, InitialState,
                                     ManagerFor(old(userDriveManagers), t.userId, input.credentialLoads).hasService,
                                     input.lastProgress, input.result).state
    {
      if uploadQueue == [] {
        return None;
      }
      var task := uploadQueue[0];
      uploadQueue := uploadQueue[1..];
      assert task !in uploadQueue;
      processed := Some(task);
      UploadFromQueued(task.fileSize, InitialState, ManagerFor(userDriveManagers, task.userId, input.credentialLoads).hasService,
                       input.lastProgress, input.result);
      RunTask(task, input);
    }

    /** The worker loop run until the queue or the inputs run out: tasks are taken strictly in
        admission order, every one of them was admitted within the size limit, and none is left
        in the uploading state. */
    method ProcessQueue(inputs: seq<WorkerInput>) returns (processed: seq<UploadTask>)
      requires Valid()
      modifies this`uploadQueue, this`activeUploads, this`userDriveManagers, set t | t in uploadQueue
      ensures Valid()
      ensures var n := if |inputs| < |old(uploadQueue)| then |inputs| else |old(uploadQueue)|;
        && processed == old(uploadQueue)[..n]
        && uploadQueue == old(uploadQueue)[n..]
      ensures forall k :: 0 <= k < |processed| ==>
        processed[k].fileSize <= Config.MaxFileSize && processed[k].status != Uploading
    {
      ghost var queue := uploadQueue;
      processed := [];
      var i := 0;
      while i < |inputs| && uploadQueue != []
        invariant Valid()
        invariant i <= |inputs| && i <= |queue|
        invariant uploadQueue == queue[i..] && processed == queue[..i]
        invariant forall a, b :: 0 <= a < b < |queue| ==> queue[a] != queue[b]
        invariant forall k :: 0 <= k < i ==> queue[k].fileSize <= Config.MaxFileSize && queue[k].status != Uploading
      {
        var task := uploadQueue[0];
        assert task == queue[i];
        assert forall k :: 0 <= k < i ==> queue[k] != task;
        var p := ProcessNext(inputs[i]);
        processed := processed + [task];
        i := i + 1;
      }
      assert i == |inputs| || i == |queue|;
    }

    /** `/rename`: too few arguments is a usage error and touches nothing; otherwise the user's
        manager is fetched (and cached), and without a service the user is asked to log in. */
    method RenameCommand(userId: int, args: seq<string>, credentialLoads: bool, renameOk: bool) returns (reply: RenameReply)
      modifies this`userDriveManagers
      ensures uploadQueue == old(uploadQueue) && activeUploads == old(activeUploads)
      ensures |args| < 2 ==> reply == RenameUsage && userDriveManagers == old(userDriveManagers)
      ensures |args| >= 2 ==>
        && userDriveManagers == CacheAfter(old(userDriveManagers), userId, credentialLoads)
        && reply == (if !ManagerFor(old(userDriveManagers), userId, credentialLoads).hasService then RenameNeedsLogin
                     else if renameOk then Renamed(ParseRenameArgs(args).value.newName)
                     else RenameFailed)
    {
      var request := ParseRenameArgs(args);
      if request.None? {
        return RenameUsage;
      }
      var manager := GetDriveManager(userId, credentialLoads);
      if !manager.hasService {
        return RenameNeedsLogin;
      }
      if renameOk {
        reply := Renamed(request.value.newName);
      } else {
        reply := RenameFailed;
      }
    }
  }
}
