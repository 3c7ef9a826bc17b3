/** What ContainerWatcher promises about the files it announces, proved of
    the state machine in WatcherSpec: first for a single handler call, then
    for any sequence of events. */
module WatcherProperties {
  import opened CreatingFileList
  import opened WatcherSpec

  /** Once a watcher object exists, handling events never clears the field for good. */
  lemma {:induction false} RunKeepsWatcher(s: State, ds: seq<Delivery>)
    requires s.watcher.Some?
    ensures Run(s, ds).watcher.Some?
    decreases |ds|
  {
    if ds != [] {
      RunKeepsWatcher(Step(s, ds[0]), ds[1..]);
    }
  }

  /** After a successful StartWatching and any events since, a second
      StartWatching is refused and changes nothing. */
  lemma SecondStartRejected(s: State, first: seq<bool>, ds: seq<Delivery>, second: seq<bool>)
    requires s.watcher.None?
    ensures var later := Run(StartWatching(s, first).1, ds);
            StartWatching(later, second) == (Fail(AlreadyStarted), later)
  {
    RunKeepsWatcher(StartWatching(s, first).1, ds);
  }

  /** Processing a path that is not pending neither probes, nor announces, nor changes anything. */
  lemma ProcessUntrackedIsNoOp(s: State, path: string, probes: seq<bool>)
    requires path !in s.pending
    ensures Process(s, path, probes) == s
  {
  }

  /** A pending path that the probe eventually finds ready is announced exactly
      once and forgotten; no other path's status changes and nothing else is announced. */
  lemma ProcessReadyAnnouncesOnce(s: State, path: string, probes: seq<bool>)
    requires path in s.pending && true in probes
    ensures var r := Process(s, path, probes);
            && path !in r.pending
            && (forall q :: q != path ==> (q in r.pending <==> q in s.pending))
            && Announcements(r.log, path) == Announcements(s.log, path) + 1
            && |r.log| == |s.log| + 1
  {
  }

  /** While the probe keeps failing the path stays pending and nothing is announced. */
  lemma ProcessNotReadyKeepsPending(s: State, path: string, probes: seq<bool>)
    requires path in s.pending && true !in probes
    ensures var r := Process(s, path, probes);
            path in r.pending && r.log == s.log
    ensures Process(s, path, probes) == s
  {
  }

  /** A Created event registers the path before it is probed: it is either still
      pending, or was announced exactly once by this call. */
  lemma CreatedRegistersBeforeProcessing(s: State, path: string, probes: seq<bool>)
    ensures var r := OnChanged(s, Created(path), probes);
            && (true !in probes ==> path in r.pending && r.log == s.log)
            && (true in probes ==> path !in r.pending && r.log == s.log + [NewFileCreated(path)])
            && (true !in probes ==> r.pending == s.pending + {path})
            && (true in probes ==> r.pending == s.pending - {path})
  {
  }

  /** A Changed event never registers a path: for a path that is not pending it does nothing. */
  lemma ChangedNeverRegisters(s: State, path: string, probes: seq<bool>)
    requires path !in s.pending
    ensures OnChanged(s, Changed(path), probes) == s
  {
  }

  /** A rename moves the pending status to the new name and never announces the old name. */
  lemma RenameNeverAnnouncesOldName(s: State, oldPath: string, newPath: string, probes: seq<bool>)
    requires oldPath != newPath
    ensures var r := OnRenamed(s, oldPath, newPath, probes);
            && oldPath !in r.pending
            && Announcements(r.log, oldPath) == Announcements(s.log, oldPath)
            && (forall q :: q != oldPath && q != newPath ==> (q in r.pending <==> q in s.pending))
            && (oldPath in s.pending ==>
                  (true !in probes ==> newPath in r.pending && r.log == s.log) &&
                  (true in probes ==> newPath !in r.pending && r.log == s.log + [NewFileCreated(newPath)]))
  {
  }

  /** Renaming a file the registry does not know, to a name it does not know, does nothing. */
  lemma RenameOfUntrackedIsNoOp(s: State, oldPath: string, newPath: string, probes: seq<bool>)
    requires oldPath !in s.pending && newPath !in s.pending
    ensures OnRenamed(s, oldPath, newPath, probes) == s
  {
  }

  /** An Error, once the old watcher is stopped, leaves nothing pending, raises
      exactly one WatcherWillStartAgain and nothing else, and a watcher object
      exists again (raising events once an enable attempt succeeds). While
      stopping is still being retried nothing has changed. */
  lemma ErrorRestartsOnce(s: State, d: Delivery)
    requires Active(s) && d.event == Error
    ensures var r := Step(s, d);
            && (true !in d.disables ==> r == s)
            && (true in d.disables ==>
                  && r.pending == {}
                  && r.log == s.log + [WatcherWillStartAgain]
                  && Restarts(r.log) == Restarts(s.log) + 1
                  && r.watcher.Some?
                  && (Active(r) <==> true in d.enables))
  {
  }

  /** The event that may make `path` pending: its creation, or a rename onto it. */
  predicate MayRegister(e: Event, path: string)
  {
    e == Created(path) || (e.Renamed? && e.newPath == path)
  }

  predicate Untouched(ds: seq<Delivery>, path: string)
  {
    forall i :: 0 <= i < |ds| ==> !MayRegister(ds[i].event, path)
  }

  /** One event that does not register `path` cannot announce it unless it was pending. */
  lemma StepAnnouncesOnlyPending(s: State, d: Delivery, path: string)
    requires path !in s.pending && !MayRegister(d.event, path)
    ensures path !in Step(s, d).pending
    ensures Announcements(Step(s, d).log, path) == Announcements(s.log, path)
  {
  }

  /** One event announces a path at most once, and not at all if the path is still pending afterwards. */
  lemma StepAnnouncesAtMostOnce(s: State, d: Delivery, path: string)
    ensures Announcements(Step(s, d).log, path) <= Announcements(s.log, path) + 1
    ensures path in Step(s, d).pending ==> Announcements(Step(s, d).log, path) == Announcements(s.log, path)
  {
  }

  /** A path that is not pending, and is neither created nor renamed onto
      later, is never announced: in particular a file that was pending when an
      Error struck stays silent until a new Created event re-registers it. */
  lemma {:induction false} UntrackedNeverAnnounced(s: State, ds: seq<Delivery>, path: string)
    requires path !in s.pending && Untouched(ds, path)
    ensures path !in Run(s, ds).pending
    ensures Announcements(Run(s, ds).log, path) == Announcements(s.log, path)
    decreases |ds|
  {
    if ds != [] {
      StepAnnouncesOnlyPending(s, ds[0], path);
      assert Untouched(ds[1..], path) by {
        forall i | 0 <= i < |ds[1..]| ensures !MayRegister(ds[1..][i].event, path) {
          assert ds[1..][i] == ds[i + 1];
        }
      }
      UntrackedNeverAnnounced(Step(s, ds[0]), ds[1..], path);
    }
  }

  /** At most one NewFileCreated per pending path: until the path is created
      or renamed onto again, it is announced at most once, and never if it was
      not pending to begin with. */
  lemma {:induction false} AtMostOneAnnouncement(s: State, ds: seq<Delivery>, path: string)
    requires Untouched(ds, path)
    ensures Announcements(Run(s, ds).log, path) <= Announcements(s.log, path) + (if path in s.pending then 1 else 0)
    decreases |ds|
  {
    if path !in s.pending {
      UntrackedNeverAnnounced(s, ds, path);
    } else if ds != [] {
      var next := Step(s, ds[0]);
      StepAnnouncesAtMostOnce(s, ds[0], path);
      assert Untouched(ds[1..], path) by {
        forall i | 0 <= i < |ds[1..]| ensures !MayRegister(ds[1..][i].event, path) {
          assert ds[1..][i] == ds[i + 1];
        }
      }
      AtMostOneAnnouncement(next, ds[1..], path);
    }
  }

  /** After an Error that completes its stop, a file that was pending is
      never announced by later events that do not create it or rename onto it. */
  lemma ErrorForgetsPending(s: State, d: Delivery, ds: seq<Delivery>, path: string)
    requires Active(s) && d.event == Error && true in d.disables && Untouched(ds, path)
    ensures Announcements(Run(s, [d] + ds).log, path) == Announcements(s.log, path)
  {
    ErrorRestartsOnce(s, d);
    assert ([d] + ds)[0] == d && ([d] + ds)[1..] == ds;
    UntrackedNeverAnnounced(Step(s, d), ds, path);
  }

  /** A file created while still being written, then changed once it can be
      opened exclusively, is announced exactly once and is no longer pending. */
  lemma CreatedThenReadyAnnouncedOnce(s: State, path: string, notYet: seq<bool>, ready: seq<bool>)
    requires Active(s) && true !in notYet && true in ready
    ensures var r := Run(s, [Delivery(Created(path), notYet, [], []), Delivery(Changed(path), ready, [], [])]);
            && path !in r.pending
            && r.log == s.log + [NewFileCreated(path)]
  {
    var ds := [Delivery(Created(path), notYet, [], []), Delivery(Changed(path), ready, [], [])];
    var mid := Step(s, ds[0]);
    assert path in mid.pending && Active(mid);
    var last := Step(mid, ds[1]);
    assert ds[1..][0] == ds[1] && ds[1..][1..] == [];
    assert Run(s, ds) == Run(mid, ds[1..]) == Run(last, []) == last;
  }

  /** Handling two stretches of events one after the other is handling them together. */
  lemma {:induction false} RunAppend(s: State, a: seq<Delivery>, b: seq<Delivery>)
    ensures Run(s, a + b) == Run(Run(s, a), b)
    decreases |a|
  {
    if a == [] {
      assert a + b == b;
    } else {
      assert (a + b)[0] == a[0] && (a + b)[1..] == a[1..] + b;
      RunAppend(Step(s, a[0]), a[1..], b);
    }
  }

  /** An event that leaves the pending status of `path` to the readiness
      protocol: no Error, which would clear the registry, no rename away from
      `path`, and nothing that could register `path` afresh. */
  predicate Undisturbing(e: Event, path: string)
  {
    !e.Error? && !MayRegister(e, path) && !(e.Renamed? && e.oldPath == path)
  }

  predicate Undisturbed(ds: seq<Delivery>, path: string)
  {
    forall i :: 0 <= i < |ds| ==> Undisturbing(ds[i].event, path)
  }

  /** The watcher raises events, and `path` is either still pending with
      `base` announcements of it, or no longer pending with one more. */
  predicate Tracked(s: State, path: string, base: nat)
  {
    && Active(s)
    && ((path in s.pending && Announcements(s.log, path) == base) ||
        (path !in s.pending && Announcements(s.log, path) == base + 1))
  }

  lemma StepKeepsTracked(s: State, d: Delivery, path: string, base: nat)
    requires Tracked(s, path, base) && Undisturbing(d.event, path)
    ensures Tracked(Step(s, d), path, base)
  {
    if path !in s.pending {
      StepAnnouncesOnlyPending(s, d, path);
    }
  }

  lemma {:induction false} RunKeepsTracked(s: State, ds: seq<Delivery>, path: string, base: nat)
    requires Tracked(s, path, base) && Undisturbed(ds, path)
    ensures Tracked(Run(s, ds), path, base)
    decreases |ds|
  {
    if ds != [] {
      StepKeepsTracked(s, ds[0], path, base);
      assert Undisturbed(ds[1..], path) by {
        forall i | 0 <= i < |ds[1..]| ensures Undisturbing(ds[1..][i].event, path) {
          assert ds[1..][i] == ds[i + 1];
        }
      }
      RunKeepsTracked(Step(s, ds[0]), ds[1..], path, base);
    }
  }

  /** A file created while the watcher raises events, followed eventually by
      a Changed event once it opens exclusively, is announced exactly once and
      is no longer pending, whatever happened in between, provided no Error
      cleared the registry, no rename moved the file away, and nothing created
      it or renamed onto it again. */
  lemma CreatedEventuallyAnnouncedOnce(s: State, probes: seq<bool>, ds: seq<Delivery>, path: string, ready: seq<bool>)
    requires Active(s) && Undisturbed(ds, path) && true in ready
    ensures var r := Run(s, [Delivery(Created(path), probes, [], [])] + ds + [Delivery(Changed(path), ready, [], [])]);
            && path !in r.pending
            && Announcements(r.log, path) == Announcements(s.log, path) + 1
  {
    var created := [Delivery(Created(path), probes, [], [])];
    var changed := [Delivery(Changed(path), ready, [], [])];
    var base := Announcements(s.log, path);
    var s1 := Step(s, created[0]);
    assert Run(s, created) == Run(s1, []) == s1;
    CreatedRegistersBeforeProcessing(s, path, probes);
    assert Tracked(s1, path, base);
    RunKeepsTracked(s1, ds, path, base);
    var s2 := Run(s1, ds);
    RunAppend(s, created, ds);
    RunAppend(s, created + ds, changed);
    assert Run(s2, changed) == Run(Step(s2, changed[0]), []) == Step(s2, changed[0]);
  }
}
