/** The pending-file state machine of ContainerWatcher, written on values.

    The operating-system watcher and the File.Open probe are outside the
    model: every handler receives, as sequences, the answers the outside
    world gives it, one per attempt.
    - `probes`: whether each successive exclusive open of the file succeeded;
    - `disables`: whether event delivery was off after each attempt to switch it off;
    - `enables`: whether each attempt to switch event delivery on succeeded.
    The source retries each of these with no attempt limit; when a sequence holds no
    `true`, the handler is still retrying and the state returned is the state
    it is in while it retries. */
module WatcherSpec {
  import opened CreatingFileList

  datatype Option<T> = None | Some(value: T)

  /** One FileSystemWatcher object; `enabled` is its EnableRaisingEvents flag. */
  datatype Session = Session(enabled: bool)

  /** The two public events of ContainerWatcher. */
  datatype Notification = NewFileCreated(path: string) | WatcherWillStartAgain

  /** What the operating-system watcher reports. */
  datatype Event =
    | Created(path: string)
    | Changed(path: string)
    | Renamed(oldPath: string, newPath: string)
    | Error

  datatype Outcome = Pass | Fail(message: string)

  const AlreadyStarted: string := "Watcher already started"

  /** `watcher` is None when the field is null; `pending` is the registry;
      `log` lists every notification raised so far, oldest first. */
  datatype State = State(watcher: Option<Session>, pending: set<string>, log: seq<Notification>)

  /** One event together with the answers the outside world gives while it is handled. */
  datatype Delivery = Delivery(event: Event, probes: seq<bool>, disables: seq<bool>, enables: seq<bool>)

  /** A freshly constructed ContainerWatcher. */
  const Initial: State := State(None, {}, [])

  /** The watcher raises events only while its delivery is switched on. */
  predicate Active(s: State)
  {
    s.watcher == Some(Session(true))
  }

  function Announcements(log: seq<Notification>, path: string): nat
  {
    multiset(log)[NewFileCreated(path)]
  }

  function Restarts(log: seq<Notification>): nat
  {
    multiset(log)[WatcherWillStartAgain]
  }

  /** Start: a new watcher object replaces the field before delivery is
      switched on, and every failed attempt is followed by a new one. */
  function Start(s: State, enables: seq<bool>): (r: State)
    ensures r.watcher.Some? && r.pending == s.pending && r.log == s.log
    ensures Active(r) <==> true in enables
  {
    s.(watcher := Some(Session(true in enables)))
  }

  /** Stop: retried while switching delivery off fails and delivery stays on;
      a failure to dispose is swallowed, so once delivery is off the field is cleared. */
  function Stop(s: State, disables: seq<bool>): (r: State)
    requires s.watcher.Some?
    ensures r.pending == s.pending && r.log == s.log
    ensures r.watcher.None? <==> true in disables
    ensures r.watcher.Some? ==> r == s
  {
    if true in disables then s.(watcher := None) else s
  }

  /** StartWatching: refuses a second start while a watcher object exists. */
  function StartWatching(s: State, enables: seq<bool>): (r: (Outcome, State))
    ensures r.0 == Fail(AlreadyStarted) <==> s.watcher.Some?
    ensures r.0 != Pass ==> r.1 == s
    ensures r.0 == Pass ==> r.1.watcher.Some? && r.1.pending == s.pending && r.1.log == s.log
    ensures s.watcher.None? ==> r == (Pass, Start(s, enables))
  {
    if s.watcher.Some? then (Fail(AlreadyStarted), s) else (Pass, Start(s, enables))
  }

  /** Restart: stop, forget every pending file, announce the restart, start again. */
  function Restart(s: State, disables: seq<bool>, enables: seq<bool>): (r: State)
    requires s.watcher.Some?
    ensures r.watcher.Some? && s.log <= r.log
    ensures true !in disables ==> r == s
    ensures true in disables ==>
              && r.pending == {}
              && r.log == s.log + [WatcherWillStartAgain]
              && (Active(r) <==> true in enables)
  {
    var stopped := Stop(s, disables);
    if stopped.watcher.Some? then stopped
    else
      var cleared := stopped.(pending := Clear(stopped.pending));
      var notified := cleared.(log := cleared.log + [WatcherWillStartAgain]);
      Start(notified, enables)
  }

  /** The readiness protocol for one path: only a pending path is probed,
      and it is announced, and forgotten, at the first successful probe. */
  function Process(s: State, path: string, probes: seq<bool>): (r: State)
    ensures r.watcher == s.watcher && r.pending <= s.pending && s.log <= r.log
  {
    if !Contains(s.pending, path) then s
    else if true in probes then
      s.(pending := RemoveFilePath(s.pending, path), log := s.log + [NewFileCreated(path)])
    else s
  }

  /** The handler shared by the Created and Changed events. */
  function OnChanged(s: State, e: Event, probes: seq<bool>): (r: State)
    requires e.Created? || e.Changed?
    ensures r.watcher == s.watcher && s.log <= r.log
  {
    var registered := if e.Created? then s.(pending := AddFilePath(s.pending, e.path)) else s;
    Process(registered, e.path, probes)
  }

  function OnRenamed(s: State, oldPath: string, newPath: string, probes: seq<bool>): (r: State)
    ensures r.watcher == s.watcher && s.log <= r.log
  {
    Process(s.(pending := ChangeFilePath(s.pending, oldPath, newPath)), newPath, probes)
  }

  /** The watcher calls the handler registered for the kind of event; a
      watcher whose delivery is off raises nothing. */
  function Step(s: State, d: Delivery): (r: State)
    ensures s.log <= r.log
  {
    if !Active(s) then s
    else match d.event
      case Created(_) => OnChanged(s, d.event, d.probes)
      case Changed(_) => OnChanged(s, d.event, d.probes)
      case Renamed(o, n) => OnRenamed(s, o, n, d.probes)
      case Error => Restart(s, d.disables, d.enables)
  }

  /** Events handled one after another. */
  function Run(s: State, ds: seq<Delivery>): (r: State)
    ensures s.log <= r.log
    decreases |ds|
  {
    if ds == [] then s else Run(Step(s, ds[0]), ds[1..])
  }
}
