# Sentinel edge device: a verified model of its control core

Sentinel is an unattended edge device. A presence sensor triggers a *case*. The camera takes up to
five photos and an on-device detector looks for a human in each. A confirmed case is queued for
upload to an FTP server, and its alert fans out to Pushover, e-mail and a video-management system.
A human-detection alert raised while the device is offline is buffered and replayed when the link
comes back; other alerts are sent at once or, for a camera fault, dropped. A
watchdog probes the link every interval and restarts the device after two failed probes in a row.

This project models the core of `rebootmain.py` in Dafny:

- **`UploadQueue`** — the `FTPQueueManager` class. It covers `queue_case`, `process_queue` with its
  per-entry loop, `ftp_connect_with_retry` and the persisted status map.
- **`RemoteStore`** — the FTP server as the queue sees it:
  - a set of directories, with a set of directories the server refuses to create;
  - the session's working directory;
  - the stored files.

  It includes `_ensure_ftp_path` (`FtpServer.EnsurePath`) and its specification `Walk`.
- **`LocalFs`** — POSIX `os.path.basename` / `os.path.join`, and the photo tree with
  `os.makedirs` and `shutil.rmtree`.
- **`Attempts`** — the capture attempts of one case as oracle outcomes (no photo, a photo with the
  detector's verdict, or an exception). It defines which attempts the loop makes, and which photos
  and faults result.
- **`Alerts`** — the case record, the alert messages, the pushes, and the specifications of the
  online fan-out and of the offline buffer's replay.
- **`Watchdog`** — the online flag and failure counter of `periodic_internet_check` as a state
  machine over probe outcomes.
- **`Sentinel`** — the `SentinelSystem` class:
  - one pass of the `run` loop;
  - `start_case`, `discard_case`, `process_human_detection` and `process_pending_notifications`;
  - one cycle of the watchdog.

  Every delivery to a sink is appended to a ghost log `sent`, and every restart request is counted
  in `rebootRequests`.

The sensor, camera, detector, clock, FTP login outcomes, transfer outcomes and connectivity probes
are parameters of the operations.

## Model

| member | source | states |
|---|---|---|
| Common.DecimalValue | rebootmain.py:465 | `Decimal` writes a count as `str()` does: its digits read back as that count |
| LocalFs.Basename | rebootmain.py:198 | `os.path.basename`: the characters after the last '/'; its contract is stated by BasenameSuffix and BasenameOfJoin |
| LocalFs.BasenameSuffix | rebootmain.py:198 | the basename is the suffix after the last '/', holds no '/', and is preceded by a '/' whenever it is shorter than the path |
| LocalFs.Join | rebootmain.py:198 | an absolute name replaces the directory; otherwise the path starts with the directory and ends with the name |
| LocalFs.BasenameOfJoin | rebootmain.py:198 | a case folder joined under any directory has the case id as its basename, so the queue key is the case id |
| LocalFs.Disk.MakeDirs | rebootmain.py:494 | an existing folder keeps its files; a missing one is created empty |
| LocalFs.Disk.RemoveTree | rebootmain.py:502 | the folder is gone afterwards; the result says whether it existed |
| RemoteStore.Segments | rebootmain.py:246-247 | a walked part is one of the given parts and is neither empty nor "/"; every such part is walked; order and multiplicity are fixed by SegmentsAppend and SegmentsSingle |
| RemoteStore.SegmentsAppend | rebootmain.py:246-247 | the parts are walked in order: the segments of two lists one after the other are the segments of the first followed by those of the second |
| RemoteStore.SegmentsSingle | rebootmain.py:247 | one part is walked, once, iff it is neither empty nor "/" |
| RemoteStore.Walk | rebootmain.py:246-251 | the loop of `_ensure_ftp_path` over the directory set: skip empty and "/" parts, enter an existing child, create a missing one, stop at a refused one; its contract is stated by WalkGrows, WalkSucceeds, WalkExisting and WalkIdempotent |
| RemoteStore.WalkGrows | rebootmain.py:246-251 | a walk only adds directories, only ones on its own path, and never a refused one |
| RemoteStore.WalkSucceeds | rebootmain.py:246-251 | the walk gets through exactly when no directory on the way is both missing and refused; after a successful walk every directory on the way exists |
| RemoteStore.WalkExisting | rebootmain.py:246-251 | when every directory on the way exists, nothing is created and the walk succeeds |
| RemoteStore.WalkIdempotent | rebootmain.py:242-254 | ensuring the same path twice creates nothing the second time |
| RemoteStore.WalkExact | rebootmain.py:246-251 | the directories after a walk are exactly the old ones plus every directory on the way up to the first one that is missing and refused (`Walked`) |
| RemoteStore.WalkedMeaning | rebootmain.py:246-251 | a walk leaves in place only directories on its own path, and every one of them when the path is reachable |
| RemoteStore.FtpServer.Open | rebootmain.py:182 | a new login session starts in the home directory; directories and files are unchanged |
| RemoteStore.FtpServer.Cwd | rebootmain.py:248 | CWD enters an existing child and fails on a missing one |
| RemoteStore.FtpServer.Mkd | rebootmain.py:250 | MKD creates a child that is missing and not refused, and fails otherwise |
| RemoteStore.FtpServer.EnsurePath | rebootmain.py:242-254 | the directories and the outcome are those of Walk; the working directory is restored in every case; no file changes |
| RemoteStore.FtpServer.Store | rebootmain.py:257-261 | an accepted STOR adds the file to the directory it addresses; a failed one changes nothing; the directories and the working directory are unchanged |
| UploadQueue.StoreFiles | rebootmain.py:221-226 | the loop stops at the first failed transfer: exactly the files listed before it are stored in the folder, and success means every file went through |
| UploadQueue.FtpQueueManager.constructor | rebootmain.py:172-176 | the map is reloaded from the persisted copy; a missing or unreadable copy gives an empty map; the last attempt time is 0 |
| UploadQueue.FtpQueueManager.QueueCase | rebootmain.py:195-202 | a missing folder changes nothing; otherwise the entry under its basename becomes (folder, pending) and is persisted; the staging copy is made only if none exists; requeueing an identical entry leaves the map unchanged; the status is saved once iff the folder exists |
| UploadQueue.FtpQueueManager.ConnectWithRetry | rebootmain.py:178-185 | at most 3 login attempts; the session is the first attempt that succeeds; no session means all 3 failed |
| UploadQueue.FtpQueueManager.UploadCaseAsWritten | rebootmain.py:219-227 | as written: the path is ensured, but every file before the first failed transfer is stored in the session's start directory; success iff the walk and every transfer succeed |
| UploadQueue.FtpQueueManager.StoresOutsideCaseFolder | rebootmain.py:219-226 | the case folder is never the start directory, so no file the as-written step stores lands in the case folder |
| UploadQueue.FtpQueueManager.UploadCase | rebootmain.py:219-227 | corrected: the files before the first failed transfer are stored in the case's own folder; success iff the walk and every transfer succeed; the working directory is restored |
| UploadQueue.FtpQueueManager.CaseSegments | rebootmain.py:219-220 | for a walked date and case name, the case folder is the device folder, then the date folder, then the case name |
| UploadQueue.FtpQueueManager.AllPathsMeaning | rebootmain.py:215-220 | the directories a cycle adds: every staged case whose path is reachable gets its whole path, its own folder included, and every added directory lies on the path of a staged case |
| UploadQueue.FtpQueueManager.Waits | rebootmain.py:205 | the early return of process_queue: the map is empty, no server is configured, or the retry interval has not passed since the last attempt; its effect is stated by ProcessQueue |
| UploadQueue.FtpQueueManager.ProcessEntry | rebootmain.py:213-237 | corrected placement (through UploadCase): an entry without a staging copy is dropped with no FTP traffic; otherwise the entry, its staging copy and its original folder are removed iff the whole case was delivered; the remote directories gain exactly those of the case's walk (`Paths`; none for an orphan); the remote files gain exactly `Uploads`, the case's files before its first failed transfer, in the case folder, and only when that folder is reachable; the saved map, the attempt time and the save count are unchanged |
| UploadQueue.FtpQueueManager.Step | rebootmain.py:212-237 | corrected placement: one loop iteration preserves the loop's progress invariant (removals so far, remote directories equal to the start plus `AllPaths`, and remote files equal to the start plus `AllUploads`, of the entries processed), with the processed entry added to the removed set exactly when it was dropped |
| UploadQueue.FtpQueueManager.ProcessEntries | rebootmain.py:212-238 | corrected placement: the remote directories are the old ones plus exactly `AllPaths`, and the remote files the old ones plus exactly `AllUploads`, over the entries of the map; after the loop, exactly the orphans and the fully delivered cases are removed, together with their staging copies and original folders; every removed staged case has all its files in its folder; nothing else changes; the save flag is set iff something was removed |
| UploadQueue.FtpQueueManager.ProcessQueue | rebootmain.py:204-240 | corrected placement: nothing changes when the map is empty, no server is configured or the retry interval has not passed; otherwise the attempt time is recorded; without a login nothing else changes; with one, the removals, the remote directories and the remote files are those of ProcessEntries, every delivered case's files are in its folder, the map stays persisted, and it is saved once iff something was removed |
| Alerts.FanOut | rebootmain.py:516-522 | online dispatch sends the alert text at priority 1 and the confirming photo; it sends the e-mail report iff e-mail is enabled and the video-management trigger iff that is enabled, and nothing else |
| Alerts.Replayed | rebootmain.py:467-471 | the replay loop's pushes: two per item, in buffer order (positions stated by ReplayedAt) |
| Alerts.ReplayedAt | rebootmain.py:467-470 | item k's text at priority 1 is push 2k of the replay and its photo is push 2k+1 |
| Alerts.ReplayedStep | rebootmain.py:467-470 | each replayed item extends what was sent by its text and then its photo |
| Alerts.Without | rebootmain.py:473 | the list comprehension that drops every buffered item equal to a delivered one; never longer than the buffer |
| Alerts.WithoutMembers | rebootmain.py:473 | the filter keeps exactly the items equal to none of the delivered ones |
| Alerts.WithoutConcat | rebootmain.py:473 | filtering distributes over concatenation, so the kept items stay in buffer order |
| Alerts.WithoutPrefix | rebootmain.py:467-473 | for pairwise distinct items, filtering out the first k leaves exactly items k.. in order |
| Alerts.WithoutDropsTwins | rebootmain.py:473 | equal duplicates are removed together: delivering the first of [a, b, a] also drops the third |
| Alerts.Body | rebootmain.py:439-465 | the text of each alert as the device sends it (also rebootmain.py:509 and 556); the summary's count is written by Decimal, and SummaryNamesCount shows the text determines it |
| Alerts.ReplayLeft | rebootmain.py:473 | the buffer after a replay: Without of the items that went out; its meaning is stated by ReplayDrains and ReplayKeepsTail |
| Alerts.ReplaySends | rebootmain.py:462-472 | an empty buffer sends nothing, and only it; otherwise push 0 is the summary with the buffered count at priority 0, and for each item k before the failing one, push 1+2k is its text at priority 1 and push 2+2k its photo, and nothing else |
| Alerts.SummaryNamesCount | rebootmain.py:465 | the summary's body determines the buffered count: two summaries with the same body name the same number of items |
| Alerts.ReplayDrains | rebootmain.py:467-474 | a replay with no failure empties the buffer |
| Alerts.ReplayKeepsTail | rebootmain.py:467-475 | a replay that fails at item k of distinct items keeps items k.. in order |
| Watchdog.Probe | rebootmain.py:434-449 | a success sets online and resets the counter; a failure sets offline and increments it |
| Watchdog.RequestsReboot | rebootmain.py:449-453 | a failed probe while already offline, with the counter reaching the threshold of 2, sends the restart alert and requests a restart; its meaning is stated by RebootIff and RebootRepeats |
| Watchdog.TrailingFailures | rebootmain.py:443 | the length of the final run of failed probes |
| Watchdog.RunState | rebootmain.py:434-449 | from a reset counter, the state after any run of probes is online iff the last probe succeeded, with the counter equal to the final run of failures |
| Watchdog.OnlineMeansReset | rebootmain.py:434-446 | every probe keeps "online implies counter zero" |
| Watchdog.RebootIff | rebootmain.py:445-452 | from a reset counter, probe j requests a restart iff it and the probe before it both failed |
| Watchdog.RebootRepeats | rebootmain.py:445-456 | a restart does not reset the counter, so every further failure requests another restart |
| Watchdog.BlipIsHarmless | rebootmain.py:434-449 | one failure followed by a success requests no restart and returns to online with a zero counter |
| Attempts.Stop | rebootmain.py:542-554 | the loop stops at the first attempt that raises or shows a human; no attempt before it does |
| Attempts.StopAt | rebootmain.py:542-554 | the first stopping index is unique |
| Attempts.Photos | rebootmain.py:547-548 | the photos collected for a case, in attempt order; at most one per attempt |
| Attempts.PhotosMembers | rebootmain.py:547-548 | the case's photos are exactly the paths of the attempts that produced one |
| Attempts.PhotosStep | rebootmain.py:547-548 | one more attempt adds its photo, if it produced one |
| Attempts.ConfirmsIff | rebootmain.py:550-556 | a case is confirmed iff some attempt shows a human and no attempt before it raised |
| Attempts.EvidenceEndsWithConfirmation | rebootmain.py:507-508 | for a confirmed case, the photo process_human_detection dispatches is the confirming one, after the photos of all earlier attempts |
| Attempts.FaultThenHuman | rebootmain.py:542-556 | a failed capture followed by a human photo: confirmed at the second attempt, with one fault and that photo as the only evidence |
| Sentinel.SentinelSystem.constructor | rebootmain.py:404-481 | state set in `__init__` (404-422): no case is open, the guard is clear, the counter is zero, the buffer is empty; online is the outcome of the start-up check in `initialize` (481) |
| Sentinel.SentinelSystem.StartCase | rebootmain.py:491-496 | the case folder is created (an existing one is kept) and a fresh case with no photos becomes current |
| Sentinel.SentinelSystem.DiscardCase | rebootmain.py:498-504 | with an open case, its folder is removed and the case closed; without one nothing changes; no alert is sent |
| Sentinel.SentinelSystem.ProcessHumanDetection | rebootmain.py:506-528 | the case is queued whatever the link state and cleared; with a photo, online sends FanOut of the last photo and offline buffers exactly one notification; with no photo nothing is sent or buffered |
| Sentinel.SentinelSystem.Capture | rebootmain.py:542-558 | the loop ends at Stop; each photo is added to the case; the camera-fault alert is sent at most once per case, and only when online and some attempt produced no photo |
| Sentinel.SentinelSystem.Resolve | rebootmain.py:551-561 | a confirmed case goes through ProcessHumanDetection, with the status saved once iff its folder exists; any other open case is discarded without alerts, queueing or a status save; restart requests and the upload attempt time are unchanged |
| Sentinel.SentinelSystem.RunCycle | rebootmain.py:530-572 | no presence, or a busy guard, changes nothing; otherwise a confirmed case is queued (the status saved once) and alerted, and an unconfirmed or failed one is deleted; the guard is clear and no case is open afterwards; restart requests and the upload attempt time are unchanged |
| Sentinel.SentinelSystem.ProcessPending | rebootmain.py:462-475 | offline does nothing; online sends exactly ReplaySends and leaves ReplayLeft in the buffer |
| Sentinel.SentinelSystem.WatchdogStep | rebootmain.py:434-458 | the link moves by Probe; a restart is requested iff RequestsReboot; recovery announces and replays once; going offline only announces; other cycles send nothing |

## Left out

- Asynchrony: the model runs each operation to completion. Interleavings of the run loop, the
  watchdog and the upload processor are not modelled.
- The run loop's guards against a case vanishing mid-loop (rebootmain.py:543, 549, 553) are not
  modelled: they are dead code. Only the run task itself writes the current case
  (rebootmain.py:495, 504, 515); the watchdog, the replay and the upload processor never touch it.
- Logging, the sleeps and cooldowns, and timeouts are not modelled.
- The clock, the sensor, the camera and the detector become parameters:
  - the case id and start time;
  - the presence reading;
  - each attempt's outcome (Attempts.Attempt);
  - the date folder name. The source reads the clock for it once per entry, inside the loop of
    process_queue (rebootmain.py:219); ProcessQueue takes one date for the whole wake, so a wake
    that crosses midnight is not modelled.
- The e-mail report's content and its SMTP delivery are not modelled; a report is recorded as one
  `Report` push carrying the case.
- Sink initialisation and sink-side failures are not modelled. Each client catches its own errors,
  so a failed delivery still appears in `sent`.
- Alerts.FanOut: the four deliveries run concurrently in the source; the model lists them in task
  creation order.
- Sentinel.SentinelSystem.ProcessPending: the Pushover clients catch every exception of their own
  (rebootmain.py:331-372), so the `except ... break` of the replay loop (rebootmain.py:472) cannot
  fire and every replay drains the buffer (Alerts.ReplayDrains). A `failAt` below the buffer's
  length models that designed pause, not behaviour the code as written reaches; there an item is
  modelled as failing before either of its pushes. A notification whose pushes fail inside the
  client is still logged in `sent` and dropped from the buffer: the silent loss is not modelled.
- Sentinel.SentinelSystem.WatchdogStep: the restart itself (`systemctl reboot` and the process
  ending) is not modelled. The model only counts the request and keeps looping, as the source
  does when the command returns.
- Sentinel.SentinelSystem.RunCycle: an exception is modelled only as an attempt that raises before
  it adds a photo. process_human_detection runs after the capture loop instead of inside it; the
  order of effects is the same, since the loop breaks straight after.
- The camera writes each photo into the photo directory (rebootmain.py:126, 133, 407, 414), never
  into the case folder that start_case creates (rebootmain.py:493-494). A photo is therefore only a
  path, and nothing in the model adds a file to a case folder. As a consequence the folder a
  confirmed case queues is empty: its staging copy holds no files, process_queue uploads nothing
  for it and deletes it as delivered, and discard_case removes an empty folder, never a photo.
- Python's `datetime` formatting of case ids and date folders is not modelled.
- UploadQueue.FtpQueueManager.QueueCase: failures of the copy and of the JSON save are not
  modelled; the persisted copy always equals the map.
- The staging area is its own map (case name to file names), apart from the photo tree. A corrupt
  or missing persisted map is the constructor's `None` snapshot.
- UploadQueue.FtpQueueManager.ProcessQueue: `set_pasv`, `quit` and exceptions other than a refused
  directory or a failed transfer are not modelled. The files of a staging copy are exactly its
  listed names.
- RemoteStore.FtpServer.EnsurePath: each part is one directory level, including the device folder
  "Sentinel/<id>_<ip>", which the source passes as a single part containing '/'. A server whose
  CWD and MKD do not accept such a nested name (so that the MKD fails while "Sentinel" is missing)
  is modelled only by listing that node in `refused`; the intermediate "Sentinel" directory is not
  a separate node.
- UploadQueue.FtpQueueManager.ProcessEntry: uses the corrected UploadCase, so the files land in
  the case folder; the code as written stores them in the login directory (see Findings and
  UploadCaseAsWritten). Removals, the map and the staging copies are the same either way.
- UploadQueue.FtpQueueManager.Step: through ProcessEntry, uses the corrected placement.
- UploadQueue.FtpQueueManager.ProcessEntries: through ProcessEntry, uses the corrected placement;
  the code as written leaves the case folders empty and puts the files in the login directory.
- UploadQueue.FtpQueueManager.ProcessQueue: through ProcessEntries, uses the corrected placement.
- Push titles (rebootmain.py:440, 447, 453, 465, 510, 557) are not modelled: each is fixed by the
  kind of message, which every push carries.
- LocalFs.Disk: the photo tree is a flat map from folder to file names. Nested directories are
  not modelled: MakeDirs creates no parent folders and RemoveTree removes only the folder itself.
  Case folders never hold subdirectories, since the photos go to the photo directory.
- LocalFs.Join: only the two-argument POSIX form used here is modelled.

## Findings

| source | as written | input that shows it | evidently intended | confidence | as-written member | corrected member |
|---|---|---|---|---|---|---|
| rebootmain.py:219-226, 242-254 | `_ensure_ftp_path` creates and enters the case folder, then its `finally` returns to the starting directory, and every `STOR` stores the bare file name in that directory | any staged case with at least one file, e.g. a staging copy `case_1` holding `p.jpg`: `p.jpg` is stored in the login directory, not in `Sentinel/<id>_<ip>/<date>/case_1`, and the entry is then deleted as uploaded. The run loop itself never puts a file in a case folder (its photos go to the photo directory), so such a case arises only from a folder filled by other means | store each file inside the case folder the path was ensured for | high (not executed) | UploadQueue.FtpQueueManager.UploadCaseAsWritten, UploadQueue.FtpQueueManager.StoresOutsideCaseFolder | UploadQueue.FtpQueueManager.UploadCase |
