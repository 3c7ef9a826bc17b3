# ContainerWatcher pending-file state machine

A model of `ContainerWatcher`, which sits on top of the operating system's
directory watcher and announces a newly created file only once it is
finished, that is, once it can be opened exclusively. The watcher keeps:

- a watcher object (`watcher`, null while stopped), modelled as
  `Option<Session>` where `Session(enabled)` carries the object's
  `EnableRaisingEvents` flag;
- the registry of files created but not yet announced (`creatingFileList`),
  a set of full paths;
- the notifications it raises, `NewFileCreated(path)` and
  `WatcherWillStartAgain`, kept as a log in the order they were raised.

Its inputs are the events `Created(p)`, `Changed(p)`, `Renamed(o, n)` and
`Error`. Anything the outside world decides is passed in as a sequence of
answers, one per attempt:
- `probes`: did the exclusive open of the file succeed? This stands in for `FileIsReady`.
- `disables`: was event delivery off after an attempt to switch it off?
- `enables`: did an attempt to switch event delivery on succeed?

The source retries each of these after a short sleep, with no attempt limit
(each retry is a nested call; see "## Left out"). In the
model each retry is a loop over the answers. A sequence with no `true` in it
stands for a handler that is still retrying, and the model returns the state
the handler is in while it retries.

Files:
- `creating_file_list.dfy` (module `CreatingFileList`) holds the registry
  operations. The registry class is not part of this model. Its add, contains,
  rename, remove and clear semantics are ASSUMED: one entry per path, a
  lookup is exact membership, a repeated add changes nothing, and renaming a
  path that is not pending changes nothing.
- `watcher_spec.dfy` (module `WatcherSpec`) holds the state machine as
  functions on values. `Step` handles one event and `Run` handles a sequence
  of events.
- `watcher_properties.dfy` (module `WatcherProperties`) holds the lemmas. Some
  are about one handler call. Others are about any sequence of events.
- `container_watcher.dfy` (module `DirectoryWatcher`) holds the class
  `ContainerWatcher`. Its fields are updated in place and its retries are
  loops. Every method is proved to reach the state that `WatcherSpec`
  computes from the state before the call. `WatchOneFile` is a client that
  runs one concrete scenario.

## Model

| member | source | states |
|---|---|---|
| CreatingFileList.AddFilePath | DirectoryWatcher/ContainerWatcher.cs:103-106 | the path becomes pending, no other path's status changes, and adding a pending path again changes nothing (assumed registry semantics) |
| CreatingFileList.RemoveFilePath | DirectoryWatcher/ContainerWatcher.cs:125 | the path is no longer pending and no other path's status changes (assumed) |
| CreatingFileList.ChangeFilePath | DirectoryWatcher/ContainerWatcher.cs:112 | a pending old name hands its pending status to the new name, and the old name is then not pending; renaming a path that is not pending changes nothing (assumed) |
| CreatingFileList.Clear | DirectoryWatcher/ContainerWatcher.cs:90 | nothing is pending afterwards |
| CreatingFileList.Contains | DirectoryWatcher/ContainerWatcher.cs:121 | a path is found exactly when removing it would change the registry, and adding a found path changes nothing (assumed) |
| CreatingFileList.LookupAfterUpdates | DirectoryWatcher/ContainerWatcher.cs:121 | a lookup finds an added path, does not find a removed one, finds nothing after a clear, and after a rename finds the new name exactly when the old or the new name was pending, and not the old name when the names differ |
| WatcherSpec.Start | DirectoryWatcher/ContainerWatcher.cs:31-57 | a watcher object exists after Start even while enabling is retried; it raises events exactly when some enable attempt succeeded; the registry and the log are untouched |
| WatcherSpec.Stop | DirectoryWatcher/ContainerWatcher.cs:58-85 | the field is null exactly when some attempt left delivery off, whatever disposal does; while it is still retrying nothing changes |
| WatcherSpec.StartWatching | DirectoryWatcher/ContainerWatcher.cs:23-30 | fails with "Watcher already started" exactly when a watcher object exists, and then changes nothing; otherwise a watcher object exists and the registry and log are untouched |
| WatcherSpec.Restart | DirectoryWatcher/ContainerWatcher.cs:86-93 | a watcher object exists afterwards; while stopping is still being retried nothing has changed; once stopped, nothing is pending, exactly one WatcherWillStartAgain was appended, and the new watcher raises events exactly when an enable attempt succeeded |
| WatcherSpec.Process | DirectoryWatcher/ContainerWatcher.cs:117-135 | processing never touches the watcher, never makes a path pending and only appends to the log |
| WatcherSpec.OnChanged | DirectoryWatcher/ContainerWatcher.cs:101-108 | the handler never touches the watcher and only appends to the log |
| WatcherSpec.OnRenamed | DirectoryWatcher/ContainerWatcher.cs:110-114 | the handler never touches the watcher and only appends to the log |
| WatcherSpec.Step | DirectoryWatcher/ContainerWatcher.cs:42-45 | handling one event only appends to the log |
| WatcherSpec.Run | DirectoryWatcher/ContainerWatcher.cs:42-45 | handling any sequence of events only appends to the log |
| WatcherProperties.RunKeepsWatcher | DirectoryWatcher/ContainerWatcher.cs:31-99 | once a watcher object exists, no sequence of events leaves the field null |
| WatcherProperties.SecondStartRejected | DirectoryWatcher/ContainerWatcher.cs:25-28 | after a successful StartWatching and any events since, a second one fails with "Watcher already started" and leaves the watcher, the registry and the log unchanged |
| WatcherProperties.ProcessUntrackedIsNoOp | DirectoryWatcher/ContainerWatcher.cs:119-134 | a path that is not pending is not probed or announced, and nothing changes |
| WatcherProperties.ProcessReadyAnnouncesOnce | DirectoryWatcher/ContainerWatcher.cs:123-127 | a pending path that some probe finds ready is forgotten, every other path keeps its status, and exactly one notification is appended, a NewFileCreated for that path |
| WatcherProperties.ProcessNotReadyKeepsPending | DirectoryWatcher/ContainerWatcher.cs:128-132 | while every probe fails the path stays pending, nothing is announced and the whole state is unchanged |
| WatcherProperties.CreatedRegistersBeforeProcessing | DirectoryWatcher/ContainerWatcher.cs:101-108 | after Created(p), p is either pending (the registry is the old one plus p) with nothing announced, or, when a probe succeeded, announced exactly once and no longer pending (the registry is the old one minus p) |
| WatcherProperties.ChangedNeverRegisters | DirectoryWatcher/ContainerWatcher.cs:101-108 | a Changed event for a path that is not pending changes nothing |
| WatcherProperties.RenameNeverAnnouncesOldName | DirectoryWatcher/ContainerWatcher.cs:110-114 | a rename to a different name never announces the old name, leaves it not pending and leaves every path other than the two names as it was; a pending old name is either pending under the new name or announced once under the new name |
| WatcherProperties.RenameOfUntrackedIsNoOp | DirectoryWatcher/ContainerWatcher.cs:110-114 | renaming a file that is not pending to a name that is not pending changes nothing and announces nothing |
| WatcherProperties.ErrorRestartsOnce | DirectoryWatcher/ContainerWatcher.cs:86-99 | once the old watcher has stopped, an Error leaves nothing pending, appends exactly one WatcherWillStartAgain and nothing else, and leaves a watcher object that raises events exactly when enabling succeeded; while stopping is retried nothing changes |
| WatcherProperties.StepAnnouncesOnlyPending | DirectoryWatcher/ContainerWatcher.cs:101-135 | an event that neither creates a path nor renames onto it cannot make it pending or announce it |
| WatcherProperties.StepAnnouncesAtMostOnce | DirectoryWatcher/ContainerWatcher.cs:117-135 | one event announces a path at most once, and not at all if the path is still pending afterwards |
| WatcherProperties.UntrackedNeverAnnounced | DirectoryWatcher/ContainerWatcher.cs:101-135 | over any sequence of events that neither creates a path nor renames onto it, a path that is not pending never becomes pending and is never announced |
| WatcherProperties.AtMostOneAnnouncement | DirectoryWatcher/ContainerWatcher.cs:117-135 | over any sequence of events that neither creates a path nor renames onto it, the path is announced at most once if it was pending and never if it was not |
| WatcherProperties.ErrorForgetsPending | DirectoryWatcher/ContainerWatcher.cs:86-93 | after an Error whose stop completed, a file that was pending is never announced by later events unless one creates it or renames onto it |
| WatcherProperties.CreatedThenReadyAnnouncedOnce | DirectoryWatcher/ContainerWatcher.cs:101-127 | a file created while still locked and then changed once it opens exclusively is announced exactly once and is no longer pending |
| WatcherProperties.RunAppend | DirectoryWatcher/ContainerWatcher.cs:42-45 | handling two stretches of events one after the other reaches the same state as handling them as one sequence |
| WatcherProperties.StepKeepsTracked | DirectoryWatcher/ContainerWatcher.cs:101-135 | an event that is not an Error, does not rename a path away and neither creates it nor renames onto it keeps the watcher raising events and keeps the path either pending with its count of announcements, or no longer pending with exactly one more |
| WatcherProperties.RunKeepsTracked | DirectoryWatcher/ContainerWatcher.cs:101-135 | the same holds over any sequence of such events |
| WatcherProperties.CreatedEventuallyAnnouncedOnce | DirectoryWatcher/ContainerWatcher.cs:101-132 | a file created while the watcher raises events, followed by any events that do not disturb it and then by a Changed event once it opens exclusively, is announced exactly once and is no longer pending |
| DirectoryWatcher.ContainerWatcher.constructor | DirectoryWatcher/ContainerWatcher.cs:17-22 | keeps the path and filter; no watcher object exists, nothing is pending and nothing has been raised |
| DirectoryWatcher.ContainerWatcher.StartWatching | DirectoryWatcher/ContainerWatcher.cs:23-30 | reaches the StartWatching state; when a watcher object existed it fails with "Watcher already started" and changes no field |
| DirectoryWatcher.ContainerWatcher.Start | DirectoryWatcher/ContainerWatcher.cs:31-57 | the retry loop reaches the Start state |
| DirectoryWatcher.ContainerWatcher.Stop | DirectoryWatcher/ContainerWatcher.cs:58-85 | the retry loop reaches the Stop state: the field is cleared once an attempt leaves delivery off |
| DirectoryWatcher.ContainerWatcher.Restart | DirectoryWatcher/ContainerWatcher.cs:86-93 | stop, clear, notify and start run in that order and reach the Restart state |
| DirectoryWatcher.ContainerWatcher.OnError | DirectoryWatcher/ContainerWatcher.cs:95-99 | reaches the Restart state; once stopped, nothing is pending and exactly one WatcherWillStartAgain was appended |
| DirectoryWatcher.ContainerWatcher.OnChanged | DirectoryWatcher/ContainerWatcher.cs:101-108 | reaches the OnChanged state: registration only on Created, then the readiness protocol |
| DirectoryWatcher.ContainerWatcher.OnRenamed | DirectoryWatcher/ContainerWatcher.cs:110-114 | reaches the OnRenamed state, and never announces the old name when it differs from the new one |
| DirectoryWatcher.ContainerWatcher.ProcessFileIfCreatedAndReady | DirectoryWatcher/ContainerWatcher.cs:117-135 | the polling loop reaches the Process state and announces the path at most once |
| DirectoryWatcher.ContainerWatcher.Deliver | DirectoryWatcher/ContainerWatcher.cs:42-45 | Created and Changed go to OnChanged, Renamed to OnRenamed and Error to OnError; the result is the Step state |
| DirectoryWatcher.WatchOneFile | DirectoryWatcher/ContainerWatcher.cs:23-127 | watching "D" for "*.dat": a file created while locked and then changed once readable is announced exactly once, and a second StartWatching is refused |

## Left out

- FileSystemWatcher configuration (`Path`, `Filter`, `NotifyFilter`) and the
  handler registration itself, lines 35-45. These belong to the operating
  system library. Only the dispatch from event kind to handler is modelled (`Deliver`, `Step`).
  The setters at lines 35-40 run before the `try` at line 46, so a failure
  there (by the library's documented behaviour, a `Path` naming a directory
  that no longer exists when a restart runs) is not retried. It escapes
  `StartWatching` or `OnError` with the field already set at line 34, so every
  later `StartWatching` is refused with "Watcher already started". The
  model's `Start` cannot fail this way.
- The exclusive `File.Open` probe (`FileIsReady`, lines 136-149) is real I/O.
  It is replaced by the `probes` answers.
- The `lock (lockReadyVerification)` and the delivery of events from background
  threads. Events are handled one at a time. As a result, the race between the
  unlocked `AddFilePath`/`ChangeFilePath` calls and a readiness poll or
  restart running on another thread is not modelled. When a handler's probe
  answers hold no `true` (it is still polling), `Run` handles the next event
  on the state that handler has left. So the model lets a poll for another
  path go ahead while the first one has not returned. In the source, that
  second poll waits behind the lock (line 119). In `CreatedThenReadyAnnouncedOnce`,
  for instance, the source's Created handler would itself make the
  announcement once the file opens, and the Changed handler would then find
  nothing pending. The end state is the same as in the model.
- `Thread.Sleep` and the retries in `Start`, `Stop` and the readiness poll.
  The finite answer sequences bound them. A sequence without a `true` models
  a handler that has not returned yet. In the source each retry is a call of
  the method to itself that is not in tail position: `Start` (line 55) and
  `Stop` (line 71) call themselves inside a `catch` block, and
  `ProcessFileIfCreatedAndReady` (line 131) inside a `lock`, which is a
  try/finally. Every failed attempt therefore adds a stack frame. A long
  enough run of failures (a file held open for minutes, a watcher that
  cannot be enabled) ends in a stack overflow. .NET cannot catch that, so the
  whole process ends. The model neither bounds the depth nor captures this crash. In
  the source, a file that never becomes ready also blocks all other polling
  until the stack overflows and the process ends.
- In the source, each failed enable attempt leaves an abandoned FileSystemWatcher
  object behind that is never disposed. The model keeps one session value, so
  this leak is not modelled.
- A failure to dispose the watcher is caught and ignored in the source. The
  model has no input for it, because it changes nothing.
- `Console.WriteLine` logging and the message of the exception carried by an
  error event.
- The registry class and the notification delegate types are not part of this
  model. The registry is a set with assumed semantics, and the notifications are entries in a log.
- `Step` delivers nothing while the watcher is missing or its delivery is off.
  This stands for the fact that only an enabled watcher raises events. As a
  result, `Stop`, `Restart` and `OnError` require a watcher object, as the
  source dereferences the field there without a check.
- After an Error, a new watcher object exists once line 34 runs, and it
  raises events only after enabling succeeds.
- `CreatedEventuallyAnnouncedOnce` excludes an Error between the creation and
  the Changed event. Such an Error clears the registry (line 90), so the later
  Changed event finds nothing pending and announces nothing.
