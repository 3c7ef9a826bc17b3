/** ContainerWatcher as an object whose handlers update its fields in place.
    Each retry that the source writes as a self-call after a short sleep is a
    loop here; each method is proved to reach the state that WatcherSpec
    computes from the state before the call. */
module DirectoryWatcher {
  import opened CreatingFileList
  import opened WatcherSpec

  class ContainerWatcher {
    const path: string
    const filter: string
    /** None while the field is null. */
    var watcher: Option<Session>
    var creatingFileList: set<string>
    /** The NewFileCreated and WatcherWillStartAgain events raised, oldest first. */
    var log: seq<Notification>

    function Snapshot(): State
      reads this
    {
      State(watcher, creatingFileList, log)
    }

    constructor (path: string, filter: string)
      ensures this.path == path && this.filter == filter
      ensures Snapshot() == Initial
    {
      this.path := path;
      this.filter := filter;
      watcher := None;
      creatingFileList := {};
      log := [];
    }

    method StartWatching(enables: seq<bool>) returns (outcome: Outcome)
      modifies this
      ensures (outcome, Snapshot()) == WatcherSpec.StartWatching(old(Snapshot()), enables)
      ensures old(watcher).Some? ==> outcome == Fail(AlreadyStarted) && unchanged(this)
    {
      if watcher.Some? {
        return Fail(AlreadyStarted);
      }
      Start(enables);
      outcome := Pass;
    }

    /** Each attempt puts a new watcher object in the field and then tries to
        switch its delivery on; a failed attempt is followed by another. */
    method Start(enables: seq<bool>)
      modifies this
      ensures Snapshot() == WatcherSpec.Start(old(Snapshot()), enables)
    {
      var attempt := 0;
      watcher := Some(Session(false));
      while attempt < |enables| && !enables[attempt]
        invariant 0 <= attempt <= |enables|
        invariant forall j :: 0 <= j < attempt ==> !enables[j]
        invariant Snapshot() == old(Snapshot()).(watcher := Some(Session(false)))
      {
        attempt := attempt + 1;
        watcher := Some(Session(false));
      }
      if attempt < |enables| {
        watcher := Some(Session(true));
      }
    }

    /** Switching delivery off is retried while it fails and delivery is still
        on; disposing cannot fail from the caller's point of view, so once
        delivery is off the field is always cleared. */
    method Stop(disables: seq<bool>)
      requires watcher.Some?
      modifies this
      ensures Snapshot() == WatcherSpec.Stop(old(Snapshot()), disables)
    {
      var attempt := 0;
      while attempt < |disables| && !disables[attempt]
        invariant 0 <= attempt <= |disables|
        invariant forall j :: 0 <= j < attempt ==> !disables[j]
      {
        attempt := attempt + 1;
      }
      if attempt < |disables| {
        watcher := None;
      }
    }

    method Restart(disables: seq<bool>, enables: seq<bool>)
      requires watcher.Some?
      modifies this
      ensures Snapshot() == WatcherSpec.Restart(old(Snapshot()), disables, enables)
    {
      Stop(disables);
      if watcher.Some? {
        return;  // stopping is still being retried
      }
      creatingFileList := Clear(creatingFileList);
      log := log + [WatcherWillStartAgain];
      Start(enables);
    }

    /** Errors are raised only by the watcher object in the field. */
    method OnError(disables: seq<bool>, enables: seq<bool>)
      requires watcher.Some?
      modifies this
      ensures Snapshot() == WatcherSpec.Restart(old(Snapshot()), disables, enables)
      ensures true in disables ==> creatingFileList == {} && log == old(log) + [WatcherWillStartAgain]
    {
      Restart(disables, enables);
    }

    method OnChanged(e: Event, probes: seq<bool>)
      requires e.Created? || e.Changed?
      modifies this
      ensures Snapshot() == WatcherSpec.OnChanged(old(Snapshot()), e, probes)
    {
      if e.Created? {
        creatingFileList := AddFilePath(creatingFileList, e.path);
      }
      ProcessFileIfCreatedAndReady(e.path, probes);
    }

    method OnRenamed(oldPath: string, newPath: string, probes: seq<bool>)
      modifies this
      ensures Snapshot() == WatcherSpec.OnRenamed(old(Snapshot()), oldPath, newPath, probes)
      ensures oldPath != newPath ==> Announcements(log, oldPath) == Announcements(old(log), oldPath)
    {
      creatingFileList := ChangeFilePath(creatingFileList, oldPath, newPath);
      ProcessFileIfCreatedAndReady(newPath, probes);
    }

    /** The readiness protocol: while the path is pending, probe it; announce
        and forget it at the first successful probe, otherwise wait and retry. */
    method ProcessFileIfCreatedAndReady(filePath: string, probes: seq<bool>)
      modifies this
      ensures Snapshot() == Process(old(Snapshot()), filePath, probes)
      ensures Announcements(log, filePath) <= Announcements(old(log), filePath) + 1
    {
      var attempt := 0;
      while Contains(creatingFileList, filePath) && attempt < |probes| && !probes[attempt]
        invariant 0 <= attempt <= |probes|
        invariant forall j :: 0 <= j < attempt ==> !probes[j]
      {
        attempt := attempt + 1;
      }
      if Contains(creatingFileList, filePath) && attempt < |probes| {
        creatingFileList := RemoveFilePath(creatingFileList, filePath);
        log := log + [NewFileCreated(filePath)];
      }
    }

    /** The dispatch the watcher object performs: Created and Changed go to
        OnChanged, Renamed to OnRenamed, Error to OnError; nothing is raised
        while delivery is off. */
    method Deliver(d: Delivery)
      modifies this
      ensures Snapshot() == Step(old(Snapshot()), d)
    {
      if !Active(Snapshot()) {
        return;
      }
      match d.event {
        case Created(_) => OnChanged(d.event, d.probes);
        case Changed(_) => OnChanged(d.event, d.probes);
        case Renamed(o, n) => OnRenamed(o, n, d.probes);
        case Error => OnError(d.disables, d.enables);
      }
    }
  }

  /** A directory "D" watched for "*.dat": a file still being written is
      created, then changed once it can be opened exclusively; a second start
      is refused. */
  method WatchOneFile() returns (announced: seq<Notification>, second: Outcome)
    ensures announced == [NewFileCreated("D/a.dat")]
    ensures second == Fail(AlreadyStarted)
  {
    var w := new ContainerWatcher("D", "*.dat");
    var first := w.StartWatching([true]);
    w.Deliver(Delivery(Created("D/a.dat"), [false], [], []));
    assert "D/a.dat" in w.creatingFileList && w.log == [];
    w.Deliver(Delivery(Changed("D/a.dat"), [true], [], []));
    second := w.StartWatching([true]);
    announced := w.log;
  }
}
