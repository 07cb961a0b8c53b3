# WOWDrive upload queue — a Dafny model

WOWDrive is a Telegram bot that copies files sent to it into the sender's Google Drive.
This project models its upload pipeline in `src/bot.py`:

- the `UploadTask` record;
- the bot's FIFO `upload_queue`, its `active_uploads` index keyed by user id, and its
  per-user cache of Drive managers;
- the document, photo and video handlers that admit tasks;
- one iteration of the worker loop `process_upload_queue`;
- the direct and chunked upload functions, which change a task according to what the
  storage provider does;
- the small pure pieces: default file names, the staging path, the progress keyboard and
  the `/rename` argument handling.

Files:

- `config.dfy` (`Config`): the constants of `config.py` that the core uses.
- `tasks.dfy` (`Tasks`): the `UploadTask` class, the `TaskState` view of its four
  reassigned fields, and the pure transitions `DirectUpload`, `ChunkedUpload` and
  `WorkerUpload`.
- `naming.dfy` (`Naming`): task file names and staging paths.
- `keyboard.dfy` (`Keyboard`): the inline keyboard of a progress message, and how button
  data is routed back by the callback handler.
- `commands.dfy` (`Commands`): `/rename` argument parsing, with Python's `join` and `split`.
- `bot.dfy` (`Bot`): the `WOWDriveBot` class, its invariant `Valid()`, and its methods.

What the outside world does is passed in as parameters:

- whether the Telegram download succeeds (`downloadOk`);
- whether the user's stored credential loads when a manager is first created
  (`credentialLoads`);
- the last value the chunked upload's progress callback reported (`lastProgress`);
- what the provider's upload call did: `Uploaded(id) | NoId | Raised(message)`.

The state-changing methods are proved against pure functions. For example,
`UploadFileDirect` leaves the task in exactly the state `DirectUpload` computes, and the
cache of managers in exactly the state `CacheAfter` computes. The lemmas are stated about
those functions.

Behaviour of the code that the model keeps:

- A provider id of `""` is falsy in Python, so it is handled as a failed upload.
- A document or video whose name is `""` gets the default name, like one with no name.
- Without a Drive service, the upload functions set the error, return false and leave the
  status alone. A task that was queued stays `Queued`, although it has left the queue.
- A failed download marks the task failed and leaves it in `active_uploads`.
- Exactly 20 MiB takes the direct path, because the test is `> 20 * 1024 * 1024`.
- The first `get_drive_manager` call for a user fixes that user's manager for the life of
  the process. A later successful login is not seen.
- `os.path.join` drops the upload folder when the staging name starts with `/`.
- `data.replace("cancel_", "")` removes every occurrence, not only the prefix.

Behaviour of the code that a reader expecting a conventional upload pipeline might not
expect, and which the model follows:

- There is no `Downloading` status: a task stays `Queued` until the upload sets `Uploading`.
- A missing credential does not fail the task: the status is kept and only the error is set.
- A task whose download fails is marked failed but is not removed from the active index.
- The chunked path is taken only strictly above the 20 MiB threshold, not at it.
- The staging name is not collision-free: `StagingPathsCanCollide` exhibits two different
  (file id, file name) pairs with the same path.
- Nothing starts the worker loop. `process_upload_queue` (src/bot.py:199) is never called or
  scheduled: `start_bot` registers the handlers and calls `run_polling()`, and `src/main.py`
  only starts the web server thread and `start_bot`. In the program as written, admitted
  tasks are therefore never dequeued. `ProcessNext` and `ProcessQueue` describe the loop body
  as it would behave if the loop were started.

## Model

| member | source | states |
|---|---|---|
| `Tasks.UploadTask.constructor` | src/bot.py:32-42 | a new task keeps its user, file id, name, size and message id, with status queued, progress 0, no Drive id and no error |
| `Tasks.DirectUpload` | src/bot.py:133-161 | success exactly when a service exists and the provider returns a non-empty id; no service: error is the authentication message and status, progress and Drive id are unchanged; returned id: completed, progress 100, Drive id set; otherwise failed, with "Upload failed" or the exception text |
| `Tasks.ChunkedUpload` | src/bot.py:95-131 | the same outcomes as the direct path, except that on failure the progress is whatever the callback last reported |
| `Tasks.PathSelection` | src/bot.py:214-217 | the chunked path is taken exactly for sizes above 20971520; exactly 20 MiB is direct, one byte more is chunked |
| `Tasks.ChunkedWithoutProgressIsDirect` | src/bot.py:95-161 | when no progress callback fired, the two upload paths end in the same state and return the same value |
| `Tasks.UploadKeepsWellFormed` | src/bot.py:95-161 | either path keeps the invariant: completed implies Drive id and progress 100, failed implies an error, unfinished implies no Drive id |
| `Tasks.UploadFromQueued` | src/bot.py:95-161 | from a queued task an upload never ends in the uploading state; it stays queued exactly when there is no service, and completes exactly when an id is returned |
| `Tasks.EmptyIdIsFailure` | src/bot.py:144-154 | an empty id from the provider gives a failed task with "Upload failed" and return value false |
| `Naming.TaskFileName` | src/bot.py:447-512 | never empty; a document or video keeps its non-empty name; a nameless one, and every photo, gets the default for its kind |
| `Naming.JoinPath` | src/bot.py:233-234 | the joined path ends with the name; an absolute name replaces the directory; a relative name after a non-empty directory without a trailing "/" gives directory "/" name |
| `Naming.StagingPath` | src/bot.py:233-234 | the staging path is never empty and ends with the task's file name; for a file id not starting with "/" it is "uploads/" + file id + "_" + file name |
| `Naming.StagingPathDistinguishesNames` | src/bot.py:233-234 | for one file id, equal staging paths imply equal file names |
| `Naming.StagingPathsCanCollide` | src/bot.py:233-234 | ("a_b", "c") and ("a", "b_c") give the same staging path |
| `Keyboard.ProgressKeyboard` | src/bot.py:177-189 | no markup exactly for queued and failed; a cancel button for the file while uploading; view and delete buttons for the Drive id when completed |
| `Keyboard.RemoveAllNoOccurrence` | src/bot.py:528-536 | removing a pattern that does not occur leaves the text unchanged |
| `Keyboard.RemoveAllNoLonger` | src/bot.py:529-534 | removing a pattern never makes the text longer |
| `Keyboard.RouteCallback` | src/bot.py:526-536 | data starting with "cancel_" is a cancel request; otherwise data starting with "delete_" is a delete request; anything else is ignored; the routed id is no longer than the data after its prefix |
| `Keyboard.CancelButtonRoundTrip` | src/bot.py:528-531 | the uploading keyboard's cancel data is routed back as a cancel request for the same file id, when that id does not contain "cancel_" |
| `Keyboard.DeleteButtonRoundTrip` | src/bot.py:533-534 | the delete data is routed back as a delete request for the same Drive id, when that id does not contain "delete_" |
| `Keyboard.CancelIdCanBeMangled` | src/bot.py:528-529 | a file id containing "cancel_" is routed back as a different id |
| `Commands.SplitJoin` | src/bot.py:371 | joining words that contain no space and splitting on a space gives the words back |
| `Commands.ParseRenameArgs` | src/bot.py:366-371 | a usage error exactly for fewer than two arguments; otherwise the first argument is the file id and the new name splits back into the remaining arguments |
| `Bot.ManagerFor` | src/bot.py:56-62 | a cached manager is returned as is; a new one has a service exactly when the stored credential loads |
| `Bot.CacheAfter` | src/bot.py:56-62 | the cache gains the user's key and no existing entry is replaced |
| `Bot.ManagerCacheIsSticky` | src/bot.py:56-62 | get-or-create is idempotent, and later credential changes do not change the cached manager |
| `Bot.AdmissionFor` | src/bot.py:434-445 | no attachment is ignored; a size above the maximum is rejected; any other size is queued |
| `Bot.MaxFileSizeBoundary` | config.py:23 | exactly 2 GiB is queued; 2 GiB plus one byte is rejected |
| `Bot.WOWDriveBot.constructor` | src/bot.py:46-49 | the bot starts with an empty queue, no active uploads and no cached managers |
| `Bot.WOWDriveBot.GetDriveManager` | src/bot.py:56-62 | returns `ManagerFor` of the old cache and leaves the cache as `CacheAfter` |
| `Bot.WOWDriveBot.HandleFile` | src/bot.py:434-518 | the verdict is `AdmissionFor`; when queued, exactly one fresh task is appended at the tail with the request's fields and the default state, and earlier entries are unchanged; nothing else changes; the queue invariant is kept |
| `Bot.WOWDriveBot.UploadFileDirect` | src/bot.py:133-161 | the task's new state and the return value are those of `DirectUpload` with the cached manager's service; the cache becomes `CacheAfter` |
| `Bot.WOWDriveBot.UploadFileChunked` | src/bot.py:95-131 | the task's new state and the return value are those of `ChunkedUpload`; the cache becomes `CacheAfter` |
| `Bot.WOWDriveBot.UploadByPath` | src/bot.py:214-217 | the task's new state and the return value are those of `WorkerUpload`: the chunked upload strictly above 20 MiB, the direct one otherwise; the cache becomes `CacheAfter` |
| `Bot.WOWDriveBot.DownloadTelegramFile` | src/bot.py:228-243 | on success the non-empty staging path; on failure nothing |
| `Bot.WOWDriveBot.RunTask` | src/bot.py:204-224 | the task becomes its user's active upload; a failed download marks it failed with the download error and leaves the active entry; otherwise its state is `WorkerUpload` for its size, the cache becomes `CacheAfter`, and the user's active entry is removed |
| `Bot.WOWDriveBot.ProcessNext` | src/bot.py:201-224 | empty queue: nothing changes; otherwise exactly the head is removed, the rest keeps its order, the head is run from its initial state as `RunTask` states, and it is never left uploading; the queue invariant is kept |
| `Bot.WOWDriveBot.ProcessQueue` | src/bot.py:199-226 | repeated worker steps take tasks strictly in queue order, until the inputs or the queue run out; each was admitted within the size limit, and none is left uploading |
| `Bot.WOWDriveBot.RenameCommand` | src/bot.py:361-382 | too few arguments is a usage reply and leaves the cache alone; otherwise the manager is fetched and cached, no service asks for login, and the rename result decides between the joined new name and failure |

## Left out

- The `asyncio` machinery is not modelled: `await`, the one-second poll, `create_task` in
  the progress callback and the endless loop. `ProcessQueue` bounds the loop by the inputs
  it is given.
- Concurrent enqueueing by the Telegram handlers is not modelled; the queue is treated as
  single-threaded.
- The storage client in `src/drive.py` is not part of this model. Its whole effect is the
  `ProviderResult` parameter and the last progress value.
- The per-chunk progress stream and its float-derived percentages are not modelled, so no
  claim is made that progress is non-decreasing.
- `Bot.WOWDriveBot.UploadFileChunked`: it records only the last progress value the callback
  reported, not the sequence of values.
- `Bot.WOWDriveBot.ProcessQueue`: it states order, the size bound and "not left uploading"
  for the whole run. The exact outcome of each task is stated per step by `ProcessNext`.
- The progress message is not modelled: its text, its logging, and the calls that refresh
  it. The Telegram replies, Markdown and emoji are left out too. Button labels become
  constructors of `Button`.
- File-system effects are left out: the dummy file written by the download and the
  `os.remove` cleanup. The model cannot fail at them, and so does not show that a failing
  `os.remove` would end the worker loop.
- Credential loading is reduced to one boolean, whether the stored credential loads. This
  covers the token file, its refresh and the service build.
- The OAuth site (`src/site.py`), setup (`src/setup.py`), thread startup (`src/main.py`),
  environment loading in `config.py`, the `Throttler` and `get_auth_url` are not part of
  this model.
- The other commands are not modelled, because they only forward to the provider and
  reply: `/start`, `/help`, `/login`, `/stat` (float GB arithmetic), `/list`, `/remove`
  and `/privacy`.
- `/rename`'s provider call is the boolean `renameOk`. Exceptions other than HTTP errors
  are left to the error handler and are not modelled.
- Cancel and delete buttons only edit a message in the source. The model routes their data
  (`RouteCallback`) but adds no transition for either.
- Telegram attachment sizes are plain integers. A missing size, which would make the `>`
  comparison raise in Python, is not modelled.
- The request fields of a task are `const`, because the code never reassigns them.
