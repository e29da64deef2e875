/**
 Application instances (server/gdial-app.c): the global list of live instances,
 newest first, their fields, and the dial-data files.  A file is looked up by the
 application's name; writes succeed, and different names have different files.
 */
module Apps {
  import opened Common
  import opened Platform
  import DialData
  import Registry

  type DataTable = map<string, string>

  datatype App = App(name: string, state: AppState, payload: Option<string>, data: DataTable)

  /** `timers` are the names for which a launch has scheduled a state request that has
      not fired yet. */
  datatype Store = Store(live: seq<App>, files: map<string, string>, plat: Plat, timers: seq<string>)

  // ---------- the operations on values ----------

  /** gdial_app_find_instance_by_name: the first instance of that name, or |live|. */
  function FindApp(live: seq<App>, name: string): (k: nat)
    ensures k <= |live| && (k < |live| ==> live[k].name == name)
    ensures forall i | 0 <= i < k :: live[i].name != name
  {
    if live == [] || live[0].name == name then 0 else 1 + FindApp(live[1..], name)
  }

  /** What a new instance reads back: nothing for the empty name or a missing file. */
  function FileTable(files: map<string, string>, name: string): DataTable {
    if name == "" || name !in files then map[] else DialData.Parse(files[name])
  }

  function NewApp(s: Store, name: string): Store {
    s.(live := [App(name, STOPPED, None, FileTable(s.files, name))] + s.live)
  }

  function DisposeApp(s: Store, k: nat): Store
    requires k < |s.live|
  {
    s.(live := Registry.RemoveAt(s.live, k))
  }

  function WithState(s: Store, k: nat, st: AppState): Store
    requires k < |s.live|
  {
    s.(live := s.live[k := s.live[k].(state := st)])
  }

  /** gdial_app_state; also the re-reading of the state after start, hide and stop. */
  function ReadState(s: Store, k: nat): Store
    requires k < |s.live|
  {
    var (p, st) := OsState(s.plat, s.live[k].name);
    WithState(s.(plat := p), k, st)
  }

  /** gdial_plat_application_state_async: nothing for the empty name. */
  function Scheduled(s: Store, name: string): Store {
    if name == "" then s else s.(timers := s.timers + [name])
  }

  /** A scheduled state request fires: it asks the observer; the state callback only
      logs. */
  function TimerFired(s: Store, k: nat): Store
    requires k < |s.timers|
  {
    s.(plat := OsState(s.plat, s.timers[k]).0, timers := Registry.RemoveAt(s.timers, k))
  }

  /** gdial_app_start.  Only "system" can fail: for every other name a later state
      request is scheduled and the state is read, and reading it succeeds, whatever
      the start reported. */
  function StartApp(s: Store, sleepKey: Option<string>, k: nat, payload: Option<Payload>,
                    query: Option<string>, dataUrl: Option<DataUrl>): (Store, AppError)
    requires k < |s.live|
  {
    var name := s.live[k].name;
    var (p, err) := OsStart(s.plat, sleepKey, name, payload, query, dataUrl);
    var s1 := s.(plat := p);
    if err == NO_ERROR || name != "system" then (ReadState(Scheduled(s1, name), k), NO_ERROR)
    else (WithState(s1, k, STOPPED), err)
  }

  function HideApp(s: Store, k: nat): (Store, AppError)
    requires k < |s.live|
  {
    var (p, err) := OsHide(s.plat, s.live[k].name);
    var s1 := s.(plat := p);
    if err == NO_ERROR then (ReadState(s1, k), NO_ERROR) else (s1, err)
  }

  function StopApp(s: Store, k: nat): (Store, AppError)
    requires k < |s.live|
  {
    var (p, err) := OsStop(s.plat, s.live[k].name);
    var s1 := s.(plat := p);
    if err == NO_ERROR then (ReadState(s1, k), NO_ERROR) else (s1, err)
  }

  function SetPayload(s: Store, k: nat, payload: Option<string>): Store
    requires k < |s.live|
  {
    s.(live := s.live[k := s.live[k].(payload := payload)])
  }

  /** gdial_app_set_additional_dial_data; `es` is the posted table in the order the
      printer walks it.  Nothing happens for the empty name. */
  function SetData(s: Store, k: nat, es: seq<Pair>): Store
    requires k < |s.live|
  {
    var name := s.live[k].name;
    if name == "" then s
    else s.(live := s.live[k := s.live[k].(data := Table(es))],
            files := s.files[name := DialData.Print(es)])
  }

  // ---------- what they keep ----------

  /** At most one live instance for each name. */
  ghost predicate UniqueNames(live: seq<App>) {
    forall i, j | 0 <= i < j < |live| :: live[i].name != live[j].name
  }

  /** Every live instance holds what its file holds. */
  ghost predicate Agreement(s: Store) {
    forall i | 0 <= i < |s.live| :: s.live[i].data == FileTable(s.files, s.live[i].name)
  }

  predicate IsLive(live: seq<App>, name: string) {
    FindApp(live, name) < |live|
  }

  lemma IsLiveIff(live: seq<App>, name: string)
    ensures IsLive(live, name) <==> exists i | 0 <= i < |live| :: live[i].name == name
  {
    if i :| 0 <= i < |live| && live[i].name == name {
      assert FindApp(live, name) <= i;
    }
  }

  /** Creating an instance keeps names unique exactly when the name is not live. */
  lemma NewKeepsUniqueIff(s: Store, name: string)
    requires UniqueNames(s.live)
    ensures UniqueNames(NewApp(s, name).live) <==> !IsLive(s.live, name)
  {
    var live := NewApp(s, name).live;
    assert live[0].name == name && forall i | 1 <= i < |live| :: live[i] == s.live[i - 1];
    assert forall i | 0 <= i < |s.live| :: s.live[i] == live[i + 1];
    IsLiveIff(s.live, name);
  }

  lemma RemovedLive(live: seq<App>, k: nat, name: string)
    requires k < |live|
    ensures name != live[k].name ==> (IsLive(Registry.RemoveAt(live, k), name) <==> IsLive(live, name))
    ensures UniqueNames(live) && name == live[k].name ==> !IsLive(Registry.RemoveAt(live, k), name)
  {
    var d := Registry.RemoveAt(live, k);
    IsLiveIff(d, name);
    IsLiveIff(live, name);
    assert forall i | 0 <= i < |d| :: d[i] == live[if i < k then i else i + 1];
    if i :| 0 <= i < |live| && i != k && live[i].name == name {
      assert d[if i < k then i else i - 1] == live[i];
    }
  }

  lemma DisposeKeeps(s: Store, k: nat)
    requires k < |s.live|
    ensures UniqueNames(s.live) ==> UniqueNames(DisposeApp(s, k).live)
    ensures Agreement(s) ==> Agreement(DisposeApp(s, k))
  {
    var d := DisposeApp(s, k);
    assert forall i | 0 <= i < |d.live| :: d.live[i] == s.live[if i < k then i else i + 1];
  }

  /** Two lists of instances with the same names in the same places. */
  ghost predicate SameNames(a: seq<App>, b: seq<App>) {
    |a| == |b| && forall i | 0 <= i < |a| :: a[i].name == b[i].name
  }

  lemma {:induction false} SameNamesLive(a: seq<App>, b: seq<App>, name: string)
    requires SameNames(a, b)
    ensures FindApp(a, name) == FindApp(b, name)
    ensures UniqueNames(a) <==> UniqueNames(b)
    decreases |a|
  {
    if a != [] {
      SameNamesLive(a[1..], b[1..], name);
    }
  }

  /** Two stores whose instances differ in state and payload only. */
  ghost predicate SameData(a: Store, b: Store) {
    a.files == b.files && SameNames(a.live, b.live)
    && forall i | 0 <= i < |a.live| :: a.live[i].data == b.live[i].data
  }

  lemma SameDataAgrees(a: Store, b: Store)
    requires SameData(a, b)
    ensures Agreement(a) <==> Agreement(b)
  {
    if Agreement(a) {
      forall i | 0 <= i < |b.live| ensures b.live[i].data == FileTable(b.files, b.live[i].name) {
        assert a.live[i].data == FileTable(a.files, a.live[i].name);
      }
    }
    if Agreement(b) {
      forall i | 0 <= i < |a.live| ensures a.live[i].data == FileTable(a.files, a.live[i].name) {
        assert b.live[i].data == FileTable(b.files, b.live[i].name);
      }
    }
  }

  /** Posting a table keeps memory and file in agreement exactly when the table can
      be stored (or nothing is stored at all). */
  lemma SetDataAgreesIff(s: Store, k: nat, es: seq<Pair>)
    requires k < |s.live| && UniqueNames(s.live) && Agreement(s) && DistinctKeys(es)
    ensures SameNames(SetData(s, k, es).live, s.live)
    ensures Agreement(SetData(s, k, es)) <==> s.live[k].name == "" || DialData.Storable(es)
  {
    if s.live[k].name != "" {
      SetDataTables(s, k, es);
      DialData.RoundTripIff(es);
    }
  }

  lemma SetDataTables(s: Store, k: nat, es: seq<Pair>)
    requires k < |s.live| && UniqueNames(s.live) && Agreement(s) && s.live[k].name != ""
    ensures Agreement(SetData(s, k, es)) <==> DialData.Parse(DialData.Print(es)) == Table(es)
  {
    var d := SetData(s, k, es);
    var name := s.live[k].name;
    assert d.live[k].name == name && d.live[k].data == Table(es);
    assert FileTable(d.files, name) == DialData.Parse(DialData.Print(es));
    forall i | 0 <= i < |s.live| && i != k ensures d.live[i].data == FileTable(d.files, d.live[i].name) {
      assert d.live[i] == s.live[i] && s.live[i].name != name;
    }
  }

  // ---------- the classes ----------

  class GDialApp {
    const name: string
    var state: AppState
    var payload: Option<string>
    var data: DataTable

    /** g_object_new with its name set; all other fields are zero. */
    constructor (name: string)
      ensures this.name == name && View() == App(name, STOPPED, None, map[])
    {
      this.name, state, payload, data := name, STOPPED, None, map[];
    }

    function View(): App
      reads this
    {
      App(name, state, payload, data)
    }
  }

  function Views(apps: seq<GDialApp>): seq<App>
    reads apps
  {
    seq(|apps|, i requires 0 <= i < |apps| reads apps => apps[i].View())
  }

  ghost predicate Distinct(apps: seq<GDialApp>) {
    forall i, j | 0 <= i < j < |apps| :: apps[i] != apps[j]
  }

  class AppStore {
    const plat: GDialPlatform
    var instances: seq<GDialApp>
    var files: map<string, string>
    var timers: seq<string>

    ghost predicate Valid()
      reads this, plat, plat.appCache, plat.appCache.store
    {
      plat.Valid() && Distinct(instances)
    }

    ghost function View(): Store
      reads this, instances, plat, plat.appCache, plat.appCache.store
    {
      Store(Views(instances), files, plat.View(), timers)
    }

    /** Everything a request may write: the list, its instances, the outbox and the
        time stamps of the cached states. */
    ghost function Footprint(): set<object>
      reads this, plat.appCache.store
    {
      {this, plat} + (set a | a in instances) + plat.appCache.store.objects.Values
    }

    constructor (plat: GDialPlatform)
      requires plat.Valid()
      ensures Valid() && this.plat == plat && View() == Store([], map[], plat.View(), []) && instances == []
    {
      this.plat := plat;
      instances, files, timers := [], map[], [];
    }

    method FindInstanceByName(name: string) returns (app: GDialApp?, ghost k: nat)
      requires Valid()
      ensures k == FindApp(View().live, name) && k <= |instances|
      ensures if k < |instances| then app == instances[k] else app == null
      ensures app == null <==> !IsLive(View().live, name)
      ensures app != null ==> app in instances && app.name == name
    {
      k := FindApp(Views(instances), name);
      var i := 0;
      while i < |instances|
        invariant i <= |instances| && i <= k
      {
        if instances[i].name == name {
          assert Views(instances)[i].name == name;
          return instances[i], k;
        }
        assert Views(instances)[i].name != name;
        i := i + 1;
      }
      app := null;
    }

    /** gdial_app_new: the instance is linked in front, then its dial data is read. */
    method New(name: string) returns (app: GDialApp)
      requires Valid()
      modifies this
      ensures Valid() && fresh(app) && instances == [app] + old(instances)
      ensures View() == NewApp(old(View()), name)
    {
      app := new GDialApp(name);
      instances := [app] + instances;
      RefreshAdditionalDialData(app);
      assert Views(instances) == [app.View()] + old(Views(instances));
    }

    method RefreshAdditionalDialData(app: GDialApp)
      modifies app
      ensures app.data == FileTable(files, app.name)
      ensures app.state == old(app.state) && app.payload == old(app.payload)
    {
      app.data := map[];
      if app.name != "" && app.name in files {
        app.data := DialData.FromString(files[app.name], app.data);
      }
    }

    /** Dropping the last reference: the instance is unlinked. */
    method Dispose(app: GDialApp, ghost k: nat)
      requires Valid() && k < |instances| && instances[k] == app
      modifies this
      ensures Valid() && instances == Registry.RemoveAt(old(instances), k)
      ensures View() == DisposeApp(old(View()), k)
    {
      var i := 0;
      while instances[i] != app
        invariant i <= k
        decreases k - i
      {
        i := i + 1;
      }
      instances := instances[..i] + instances[i + 1..];
      assert Views(instances) == Registry.RemoveAt(old(Views(instances)), k);
    }

    /** gdial_app_state. */
    method State(app: GDialApp, ghost k: nat, now: int)
      requires Valid() && k < |instances| && instances[k] == app
      modifies app, plat`outbox, plat.appCache.store.objects.Values
      ensures Valid() && View() == ReadState(old(View()), k)
    {
      var st := plat.State(app.name, now);
      app.state := st;
      assert Views(instances) == old(Views(instances))[k := app.View()];
    }

    /** gdial_plat_application_state_async, as far as the store sees it. */
    method Schedule(name: string)
      modifies this`timers
      ensures View() == Scheduled(old(View()), name)
    {
      if name != "" {
        timers := timers + [name];
      }
    }

    method Start(app: GDialApp, ghost k: nat, sleepKey: Option<string>, payload: Option<Payload>,
                 query: Option<string>, dataUrl: Option<DataUrl>, now: int) returns (r: AppError)
      requires Valid() && k < |instances| && instances[k] == app
      modifies app, this`timers, plat`outbox, plat.appCache.store.objects.Values
      ensures Valid() && (View(), r) == StartApp(old(View()), sleepKey, k, payload, query, dataUrl)
    {
      r := plat.Start(sleepKey, app.name, payload, query, dataUrl);
      assert Views(instances) == old(Views(instances));
      if r == NO_ERROR || app.name != "system" {
        Schedule(app.name);
        State(app, k, now);
        r := NO_ERROR;
      } else {
        app.state := STOPPED;
        assert Views(instances) == old(Views(instances))[k := app.View()];
      }
    }

    /** A scheduled state request fires. */
    method FireTimer(k: nat, now: int)
      requires Valid() && k < |timers|
      modifies this`timers, plat`outbox, plat.appCache.store.objects.Values
      ensures Valid() && View() == TimerFired(old(View()), k)
    {
      var st := plat.State(timers[k], now);
      timers := timers[..k] + timers[k + 1..];
      assert Views(instances) == old(Views(instances));
    }

    method Hide(app: GDialApp, ghost k: nat, now: int) returns (r: AppError)
      requires Valid() && k < |instances| && instances[k] == app
      modifies app, plat`outbox, plat.appCache.store.objects.Values
      ensures Valid() && (View(), r) == HideApp(old(View()), k)
    {
      r := plat.Hide(app.name, now);
      assert Views(instances) == old(Views(instances));
      if r == NO_ERROR {
        State(app, k, now);
      }
    }

    method Stop(app: GDialApp, ghost k: nat, now: int) returns (r: AppError)
      requires Valid() && k < |instances| && instances[k] == app
      modifies app, plat`outbox, plat.appCache.store.objects.Values
      ensures Valid() && (View(), r) == StopApp(old(View()), k)
    {
      r := plat.Stop(app.name, now);
      assert Views(instances) == old(Views(instances));
      if r == NO_ERROR {
        State(app, k, now);
      }
    }

    method SetLaunchPayload(app: GDialApp, ghost k: nat, payload: Option<string>)
      requires Valid() && k < |instances| && instances[k] == app
      modifies app
      ensures Valid() && View() == SetPayload(old(View()), k, payload)
    {
      app.payload := payload;
      assert Views(instances) == old(Views(instances))[k := app.View()];
    }

    method SetAdditionalDialData(app: GDialApp, ghost k: nat, es: seq<Pair>)
      requires Valid() && k < |instances| && instances[k] == app
      modifies app, this`files
      ensures Valid() && View() == SetData(old(View()), k, es)
    {
      if app.name == "" {
        return;
      }
      app.data := Table(es);
      var text, length := DialData.ToString(es, None, true);
      files := files[app.name := text];
      assert Views(instances) == old(Views(instances))[k := app.View()];
    }
  }
}
