/**
 The application state behind the window: the server list, the scheduler
 fields, the add-server dialog and the pending deletion. Time is a natural
 number of nanoseconds read from a monotonic clock the caller supplies.
 */
module Monitor {
  import opened Options
  import opened Numbers
  import opened Servers
  import opened Registry

  /** Thirty seconds between automatic checks. */
  const DefaultCheckInterval: nat := 30 * 1_000_000_000

  datatype App = App(
    servers: seq<Server>,
    lastCheck: nat,
    autoCheckEnabled: bool,
    checkInterval: nat,
    showAddDialog: bool,
    newServerName: string,
    newServerIp: string,
    newServerPort: string,
    selectedServerIndex: Option<nat>)

  /**
   Start-up: the list read from the configuration file when that succeeded,
   the fallback list otherwise; automatic checks on, the dialog closed and
   empty, nothing selected, and the clock started at `now`.
   */
  function Initial(loaded: Option<seq<Server>>, now: nat): (r: App)
    ensures loaded.Some? ==> r.servers == loaded.value
    ensures loaded.None? ==> r.servers == DefaultServers()
    ensures r.lastCheck == now && r.autoCheckEnabled && r.checkInterval == DefaultCheckInterval
    ensures !r.showAddDialog && r.newServerName == "" && r.newServerIp == "" && r.newServerPort == ""
    ensures r.selectedServerIndex == None
  {
    var empty := App([], now, true, DefaultCheckInterval, false, "", "", "", None);
    match loaded
    case Some(servers) => LoadServers(empty, loaded)
    case None => LoadDefaultServers(empty)
  }

  /** `load_default_servers`: the list is replaced by the fallback list whatever it held. */
  function LoadDefaultServers(app: App): (r: App)
    ensures r.servers == DefaultServers()
    ensures r.(servers := app.servers) == app
  {
    app.(servers := DefaultServers())
  }

  /**
   `load_servers`: on success the list becomes the deserialized records
   verbatim (they need not satisfy the URL rule); on failure nothing changes.
   */
  function LoadServers(app: App, loaded: Option<seq<Server>>): (r: App)
    ensures loaded.None? ==> r == app
    ensures loaded.Some? ==> r.servers == loaded.value && r.(servers := app.servers) == app
  {
    match loaded
    case Some(servers) => app.(servers := servers)
    case None => app
  }

  /** The dialog's inputs are acceptable: both text fields filled in and the port text a `u16`. */
  predicate ValidInput(app: App) {
    app.newServerName != "" && app.newServerIp != "" && ParseU16(app.newServerPort).Some?
  }

  /**
   `add_server`. Invalid input changes nothing at all, so the user can
   correct it. Valid input appends one unchecked server with the typed name
   and host, the parsed port and the derived URL, then clears the three
   fields and closes the dialog.
   */
  function AddServer(app: App): (r: App)
    ensures !ValidInput(app) ==> r == app
    ensures ValidInput(app) ==>
      var port := ParseU16(app.newServerPort).value;
      && |r.servers| == |app.servers| + 1
      && r.servers[..|app.servers|] == app.servers
      && r.servers[|app.servers|] == Server(app.newServerName, app.newServerIp, port, Unchecked, Url(app.newServerIp, port))
      && r.newServerName == "" && r.newServerIp == "" && r.newServerPort == ""
      && !r.showAddDialog
      && r.lastCheck == app.lastCheck && r.autoCheckEnabled == app.autoCheckEnabled
      && r.checkInterval == app.checkInterval && r.selectedServerIndex == app.selectedServerIndex
  {
    if app.newServerName != "" && app.newServerIp != "" then
      match ParseU16(app.newServerPort)
      case Some(port) =>
        var server := Server(app.newServerName, app.newServerIp, port, Unchecked, Url(app.newServerIp, port));
        app.(servers := app.servers + [server],
             newServerName := "", newServerIp := "", newServerPort := "",
             showAddDialog := false)
      case None => app
    else app
  }

  /** The list grows exactly when the input is valid. */
  lemma AddGrowsIffValid(app: App)
    ensures |AddServer(app).servers| == |app.servers| + 1 <==> ValidInput(app)
    ensures |AddServer(app).servers| != |app.servers| + 1 ==> AddServer(app).servers == app.servers
  {
  }

  /** Removing the entry just added gives back the list as it was. */
  lemma RemoveUndoesAdd(app: App)
    requires ValidInput(app)
    ensures RemoveServer(AddServer(app).servers, |app.servers|) == app.servers
  {
  }

  /** Adding keeps every URL derived from its host and port. */
  lemma AddKeepsUrls(app: App)
    requires AllUrlsConsistent(app.servers)
    ensures AllUrlsConsistent(AddServer(app).servers)
  {
  }

  /** A valid add raises the total and the offline count by one and leaves the online count alone. */
  lemma AddStats(app: App)
    requires ValidInput(app)
    ensures var before, after := GetStats(app.servers), GetStats(AddServer(app).servers);
      after == Stats(before.total + 1, before.online, before.offline + 1)
  {
    var r := AddServer(app);
    var added := r.servers[|app.servers|];
    assert r.servers == app.servers + [added];
    CountOnlineAppend(app.servers, [added]);
    assert [added][..0] == [];
  }

  /** Port 0 and a `+`-signed port are accepted, as the `u16` parse accepts them. */
  lemma AddAcceptsZeroAndSign(app: App)
    requires app.newServerName != "" && app.newServerIp != ""
    requires app.newServerPort == "0" || app.newServerPort == "+0"
    ensures |AddServer(app).servers| == |app.servers| + 1
    ensures AddServer(app).servers[|app.servers|].port == 0
    ensures AddServer(app).servers[|app.servers|].url == Url(app.newServerIp, 0)
  {
    ParseDecimalRoundTrip(0);
    assert Decimal(0) == "0";
    assert ParseU16(app.newServerPort) == Some(0);
  }

  /** `Instant::elapsed`: time since the last check, never negative. */
  function Elapsed(since: nat, now: nat): nat {
    if now >= since then now - since else 0
  }

  /** The app after one frame, and whether a check cycle was started during it. */
  datatype Frame = Frame(app: App, checkStarted: bool)

  /**
   The automatic-check step at the top of `update`: a cycle starts exactly
   when automatic checks are on and the interval has elapsed, and then the
   clock is reset to `now`; otherwise nothing changes.
   */
  function AutoCheck(app: App, now: nat): (r: Frame)
    ensures r.checkStarted <==> app.autoCheckEnabled && Elapsed(app.lastCheck, now) >= app.checkInterval
    ensures r.checkStarted ==> r.app == app.(lastCheck := now)
    ensures !r.checkStarted ==> r.app == app
  {
    if app.autoCheckEnabled && Elapsed(app.lastCheck, now) >= app.checkInterval then
      Frame(app.(lastCheck := now), true)
    else
      Frame(app, false)
  }

  /** The "check now" button: always starts a cycle and resets the clock. */
  function CheckNow(app: App, now: nat): (r: Frame)
    ensures r.checkStarted && r.app.lastCheck == now
    ensures r.app.(lastCheck := app.lastCheck) == app
  {
    Frame(app.(lastCheck := now), true)
  }

  /** The deletion requested by a row's delete button, taken and applied at the end of the frame. */
  function TakePendingRemoval(app: App): (r: App)
    ensures r.selectedServerIndex == None
    ensures app.selectedServerIndex.None? ==> r.servers == app.servers
    ensures app.selectedServerIndex.Some? ==> r.servers == RemoveServer(app.servers, app.selectedServerIndex.value)
    ensures r.(servers := app.servers, selectedServerIndex := app.selectedServerIndex) == app
  {
    match app.selectedServerIndex
    case None => app
    case Some(index) => app.(servers := RemoveServer(app.servers, index), selectedServerIndex := None)
  }

  /**
   One `update` frame whose only user input is a delete click: the automatic
   check, then the pending deletion. The automatic check touches neither the
   list nor the selection, so the order of the two steps does not matter.
   */
  function Update(app: App, now: nat): (r: Frame)
    ensures r.checkStarted <==> app.autoCheckEnabled && Elapsed(app.lastCheck, now) >= app.checkInterval
    ensures r.app.lastCheck == (if r.checkStarted then now else app.lastCheck)
    ensures r.app.selectedServerIndex == None
    ensures app.selectedServerIndex.None? ==> r.app.servers == app.servers
    ensures app.selectedServerIndex.Some? ==> r.app.servers == RemoveServer(app.servers, app.selectedServerIndex.value)
    ensures r.app.(servers := app.servers, lastCheck := app.lastCheck, selectedServerIndex := app.selectedServerIndex) == app
  {
    var step := AutoCheck(app, now);
    Frame(TakePendingRemoval(step.app), step.checkStarted)
  }

  /** With a positive interval, a frame at the same instant as a firing frame does not fire again. */
  lemma NoDoubleFire(app: App, now: nat)
    requires app.checkInterval > 0
    requires AutoCheck(app, now).checkStarted
    ensures !AutoCheck(AutoCheck(app, now).app, now).checkStarted
  {
  }

  /** With automatic checks on, a frame one interval after the last check always fires. */
  lemma FiresAfterInterval(app: App, now: nat)
    requires app.autoCheckEnabled && now >= app.lastCheck + app.checkInterval
    ensures AutoCheck(app, now).checkStarted
  {
  }

  /** A frame never fires while automatic checks are off, however much time has passed. */
  lemma SilentWhenDisabled(app: App, now: nat)
    requires !app.autoCheckEnabled
    ensures AutoCheck(app, now) == Frame(app, false)
  {
  }

  /** Start-up without a configuration file gives nine unchecked servers that all obey the URL rule. */
  lemma InitialFallbackSound(now: nat)
    ensures AllUrlsConsistent(Initial(None, now).servers)
    ensures GetStats(Initial(None, now).servers) == Stats(9, 0, 9)
  {
    DefaultServersConsistent();
    DefaultServersStats();
  }
}
