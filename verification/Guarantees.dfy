/** What clients and operators can rely on, over whole runs of the server. */
module Guarantees {
  import opened Common
  import opened Platform
  import opened Registry
  import opened Apps
  import opened RestSpec
  import opened RestProofs
  import opened Runs
  import Query
  import opened StatusCache
  import Uri

  // ---------- which server URIs work ----------

  /** The URI prefix test compares as many characters as a pointer has bytes, less one;
      the first piece of a path holds no "/" and must fit a component buffer. */
  predicate GoodUri(uri: string) {
    URI_SIZEOF <= |uri| <= Uri.COMPONENT_MAX_LEN && '/' !in uri[1..]
  }

  lemma AdmittedMeansGood(d: Rest, req: Request)
    requires d.uri != "" && ReachesSplitter(d.uri, req) && Pieces(req.path, d.uri).Some?
    ensures GoodUri(d.uri)
    ensures var name := Pieces(req.path, d.uri).value[1]; Uri.Fits(name) && '/' !in name
  {
    var p := Uri.Split(req.path[1..], 4);
    Uri.EarlierPiecesHaveNoSlash(req.path[1..], 4, 0);
    Uri.EarlierPiecesHaveNoSlash(req.path[1..], 4, 1);
    assert Uri.Fits(p[0]) && Uri.Fits(p[1]);
  }

  /** The request a client makes for a name; YouTube asks for an Origin. */
  function Ask(uri: string, name: string): Request {
    var origin := if StartsWith(name, "YouTube") then Some("package:tv") else None;
    Request(GET, uri + "/" + name, true, false, Some("tv"), origin, Some("package"), None, None,
            Version(0, 0, 0), 56889, None)
  }

  lemma AskAdmitted(d: Rest, name: string)
    requires GoodUri(d.uri) && IsRegistered(d.registry, name) && Uri.Fits(name) && '/' !in name
    ensures Screened(d, Ask(d.uri, name)) == Admitted([d.uri[1..], name])
  {
    var req := Ask(d.uri, name);
    Uri.SplitTwo(d.uri[1..], name, 4);
    assert req.path[1..] == d.uri[1..] + "/" + name;
    assert req.path[..URI_SIZEOF] == d.uri[..URI_SIZEOF];
    var p := [d.uri[1..], name];
    assert forall i | 0 <= i < |p| :: Uri.Fits(p[i]);
    assert Pieces(req.path, d.uri) == Some(p);
  }

  lemma AskSplittable(d: Rest, name: string)
    requires GoodUri(d.uri) && Uri.Fits(name) && '/' !in name
    ensures Splittable(d.uri, Ask(d.uri, name))
  {
    var path := Ask(d.uri, name).path;
    assert path[|path| - 1] == name[|name| - 1];
    assert name[|name| - 1] != '/';
    Uri.NoTrailingSlashStaysInside(path);
  }

  /** Exactly which names some request can reach: with a good server URI, the
      registered ones that fit a component and hold no "/"; otherwise none. */
  lemma ReachableIff(d: Rest, name: string)
    requires d.uri != ""
    ensures (exists req :: Screened(d, req).Admitted? && Screened(d, req).pieces[1] == name)
            <==> && 7 <= |d.uri| <= 64 && '/' !in d.uri[1..]
                 && IsRegistered(d.registry, name) && 0 < |name| < 64 && '/' !in name
  {
    if req :| Screened(d, req).Admitted? && Screened(d, req).pieces[1] == name {
      AdmittedMeansGood(d, req);
    }
    if GoodUri(d.uri) && IsRegistered(d.registry, name) && Uri.Fits(name) && '/' !in name {
      AskAdmitted(d, name);
      assert Screened(d, Ask(d.uri, name)).pieces[1] == name;
    }
  }

  /** With any other URI nothing can be done: every request is refused. */
  lemma BadUriRefusesAll(d: Rest, req: Request)
    requires d.uri != "" && !GoodUri(d.uri)
    ensures AppsCallback(d, req).0 == d
    ensures AppsCallback(d, req).1.status in {403, 500, 501}
  {
    if ReachesSplitter(d.uri, req) && Pieces(req.path, d.uri).Some? {
      AdmittedMeansGood(d, req);
    }
  }

  /** XDIAL_STATIC_APPS_LOCATION can make the URI bad: too short, or with a "/" in it. */
  lemma StaticLocationRefusesAll(d: Rest, req: Request)
    requires d.uri == "/apps" || d.uri == "/apps/v1"
    ensures AppsCallback(d, req).0 == d && AppsCallback(d, req).1.status in {403, 500, 501}
  {
    assert "/apps/v1"[1..][4] == '/';
    BadUriRefusesAll(d, req);
  }

  /** The path that is the server's URI and a "/": it passes every check before the
      splitter, and makes the second loop run off the pieces, exactly when the URI has
      more than seven characters, as one made of a UUID has. */
  lemma TrailingSlashOverrunsIff(d: Rest, req: Request)
    requires GoodUri(d.uri) && req.path == d.uri + "/" && req.ipv4 && req.host.Some?
    ensures ReachesSplitter(d.uri, req) && !Splittable(d.uri, req) <==> |d.uri| > URI_SIZEOF
    ensures Uri.Decides(Uri.Split(req.path[1..], 4), d.uri, Uri.PastEnd)
  {
    var p := [d.uri[1..], ""];
    Uri.SplitTwo(d.uri[1..], "", 4);
    assert req.path[1..] == d.uri[1..] + "/" + "";
    assert Uri.Split(req.path[1..], 4) == p;
    assert Uri.Fits(p[0]) && p[1] == "";
    assert Uri.EndsInEmptyPieces(p);
    assert req.path[..URI_SIZEOF] == d.uri[..URI_SIZEOF];
  }

  // ---------- "system" is safe when no prefix covers it ----------

  /** Only an entry named "system" answers to "system". */
  predicate SafeEntry(e: Entry) {
    Matches(e, "system") ==> e.name == "system"
  }

  predicate SafeEntries(es: seq<Entry>) {
    forall i | 0 <= i < |es| :: SafeEntry(es[i])
  }

  /** The guard on configurations: no prefix of "system" for another application. */
  predicate SafeConfig(cfg: seq<ConfigEntry>) {
    forall i | 0 <= i < |cfg| :: cfg[i].prefix != "" && StartsWith("system", cfg[i].prefix) ==> cfg[i].name == "system"
  }

  predicate SafeStep(d: Rest, t: Step) {
    match t
    case Register(e) => SafeEntry(e)
    case Unregister(name) =>
      var k := FindEntry(d.registry, name);
      k < |d.registry| ==> d.registry[k].name != "system"
    case Reregister(cfg, system) => SafeConfig(cfg)
    case _ => true
  }

  ghost predicate SystemInv(d: Rest) {
    SafeEntries(d.registry) && (IsLive(d.apps.live, "system") ==> HasName(d.registry, "system"))
  }

  lemma {:induction false} ReverseMembers<T>(s: seq<T>, x: T)
    ensures x in Reverse(s) <==> x in s
    decreases |s|
  {
    if s != [] {
      ReverseMembers(s[1..], x);
      assert s == [s[0]] + s[1..];
    }
  }

  lemma SafeAppList(cfg: seq<ConfigEntry>)
    requires SafeConfig(cfg)
    ensures SafeEntries(AppListOf(cfg))
  {
    var list := AppListOf(cfg);
    forall i | 0 <= i < |list| ensures SafeEntry(list[i]) {
      ReverseMembers(EntriesOf(Head(cfg)), list[i]);
      assert list[i] in EntriesOf(Head(cfg));
      var j :| 0 <= j < |Head(cfg)| && EntryOf(cfg[j]) == list[i];
    }
  }

  lemma {:induction false} RegisterEachSafe(reg: seq<Entry>, es: seq<Entry>)
    requires SafeEntries(reg) && SafeEntries(es)
    ensures SafeEntries(RegisterEach(reg, es))
    decreases |es|
  {
    if es != [] {
      RegisterEachSafe(Registry.Register(reg, es[0]), es[1..]);
    }
  }

  lemma SystemAnswersByName(reg: seq<Entry>)
    requires SafeEntries(reg)
    ensures IsRegistered(reg, "system") <==> HasName(reg, "system")
  {
    if i :| 0 <= i < |reg| && reg[i].name == "system" {
      RegisteredUnderOwnName(reg, i);
    }
  }

  lemma RegisterSystemKeeps(d: Rest, e: Entry)
    requires SystemInv(d) && SafeEntry(e)
    ensures SystemInv(RegisterApp(d, e))
  {
    var d' := RegisterApp(d, e);
    if d' != d {
      assert d'.registry[0] == e && d'.registry[1..] == d.registry;
      if HasName(d.registry, "system") {
        var i :| 0 <= i < |d.registry| && d.registry[i].name == "system";
        assert d'.registry[i + 1].name == "system";
      }
    }
  }

  lemma UnregisterKeepsSystem(d: Rest, name: string)
    requires SystemInv(d) && SafeStep(d, Unregister(name))
    ensures SystemInv(UnregisterApp(d, name))
  {
    var k := FindEntry(d.registry, name);
    var r := UnregisterApp(d, name).registry;
    if k < |d.registry| {
      assert forall i | 0 <= i < |r| :: r[i] == d.registry[if i < k then i else i + 1];
      if i :| 0 <= i < |d.registry| && d.registry[i].name == "system" {
        assert r[if i < k then i else i - 1].name == "system";
      }
    }
  }

  lemma ReregisterKeepsSystem(d: Rest, cfg: seq<ConfigEntry>, system: Option<string>)
    requires SystemInv(d) && RestInv(d) && SafeConfig(cfg)
    ensures SystemInv(RestSpec.Reregister(d, AppListOf(cfg), system))
  {
    var es := AppListOf(cfg);
    var d1 := UnregisterAll(d);
    UnregisterAllComplete(d, "system");
    assert !IsLive(d1.apps.live, "system");
    RegisterListApps(d1, es);
    SafeAppList(cfg);
    RegisterEachSafe([], es);
    if system.Some? {
      RegisterSystemKeeps(RegisterList(d1, es), SystemEntry(system.value));
    }
  }

  lemma WorkedKeepsSystem(d: Rest, d': Rest, name: string)
    requires SystemInv(d) && Worked(d, d', name)
    ensures SystemInv(d')
  {
    SystemAnswersByName(d.registry);
    if d' != d && IsLive(d'.apps.live, "system") && name != "system" {
      assert IsLive(d.apps.live, "system");
    }
  }

  lemma SafeStepGuarded(d: Rest, t: Step)
    requires RestInv(d) && SystemInv(d) && SafeStep(d, t)
    ensures SystemGuard(d, t) && SystemInv(Next(d, t).0)
  {
    SystemAnswersByName(d.registry);
    match t
    case Http(req) =>
      var name := HttpWorks(d, req);
      WorkedKeepsSystem(d, AppsCallback(d, req).0, name);
    case Local(req, form) =>
      if AcceptedPost(d, t).Some? {
        var name := AcceptedPost(d, t).value;
        DialDataEffect(d.apps, name, req.body, form);
        RegisteredUnderOwnName(d.registry, LocalTarget(d, req.path).value);
        var d' := LocalCallback(d, req, form).0;
        assert d'.registry == d.registry;
        if IsLive(d'.apps.live, "system") && name != "system" {
          assert IsLive(d.apps.live, "system");
        }
      } else {
        var name := LocalWorks(d, req, form);
        WorkedKeepsSystem(d, LocalCallback(d, req, form).0, name);
      }
    case Notify(s) =>
    case Timer(k) =>
    case Register(e) => RegisterSystemKeeps(d, e);
    case Unregister(name) => UnregisterKeepsSystem(d, name);
    case Reregister(cfg, system) => ReregisterKeepsSystem(d, cfg, system);
  }

  /** Runs in which configurations are safe and posted data can be stored; nothing
      is asked about live instances. */
  ghost predicate SafeRun(d: Rest, steps: seq<Step>)
    decreases |steps|
  {
    d.uri != ""
    && (steps != [] ==>
          && Promised(d, steps[0]) && SafeStep(d, steps[0]) && DataGuard(d, steps[0])
          && SafeRun(Next(d, steps[0]).0, steps[1..]))
  }

  /** With no application claiming a prefix of "system", every run keeps one
      instance per name and memory equal to the files, re-registrations of "system"
      included. */
  lemma {:induction false} SafeRunsKeepInvariants(d: Rest, steps: seq<Step>)
    requires RestInv(d) && SystemInv(d) && SafeRun(d, steps)
    ensures Legal(d, steps) && RestInv(Exec(d, steps)) && SystemInv(Exec(d, steps))
    decreases |steps|
  {
    if steps != [] {
      SafeStepGuarded(d, steps[0]);
      StepInv(d, steps[0]);
      SafeRunsKeepInvariants(Next(d, steps[0]).0, steps[1..]);
    }
  }

  /** A configured application that claims every name beginning with "sys". */
  const SYS_CONFIG: ConfigEntry := ConfigEntry("Sys", "sys", "", true, "/1")

  lemma SysMatches()
    ensures Matches(EntryOf(SYS_CONFIG), "system")
  {
    assert "system"[..3] == "sys";
    assert StartsWith("system", EntryOf(SYS_CONFIG).prefixes[0]);
  }

  /** The GET creates a live "system" instance on behalf of the other application. */
  lemma GetCreatesSystem(d: Rest)
    requires GoodUri(d.uri) && d.registry == [EntryOf(SYS_CONFIG)] && d.apps.live == []
    ensures Splittable(d.uri, Ask(d.uri, "system"))
    ensures var d' := AppsCallback(d, Ask(d.uri, "system")).0;
            d'.uri == d.uri && d'.registry == d.registry && |d'.apps.live| == 1 && d'.apps.live[0].name == "system"
  {
    SysMatches();
    AskAdmitted(d, "system");
    AskSplittable(d, "system");
    var (s1, k) := FindOrNew(d.apps, "system");
    assert s1.live[k].name == "system" && |s1.live| == 1;
  }

  lemma SysList()
    ensures AppListOf([SYS_CONFIG]) == [EntryOf(SYS_CONFIG)] && AppListOf([]) == []
  {
    assert EntriesOf(Head([SYS_CONFIG])) == [EntryOf(SYS_CONFIG)];
    assert Reverse([EntryOf(SYS_CONFIG)][1..]) == [];
    assert EntriesOf(Head([])) == [];
  }

  /** Registering the configuration drops the "system" that start-up registered, and
      does not register it again: the other application answers for it. */
  lemma SysReplacesSystem(d: Rest, uri: string)
    requires d.uri != "" && d.registry == [SystemEntry(uri)] && |d.apps.live| == 1 && d.apps.live[0].name == "system"
    ensures var d' := Next(d, Runs.Reregister([SYS_CONFIG], Some(uri))).0;
            d'.uri == d.uri && d'.registry == [EntryOf(SYS_CONFIG)] && d'.apps.live == []
    ensures SystemGuard(d, Runs.Reregister([SYS_CONFIG], Some(uri)))
  {
    SysList();
    SysMatches();
    var e := EntryOf(SYS_CONFIG);
    var d1 := UnregisterAll(d);
    assert StopEach(d.apps, d.registry) == StopOne(d.apps, "system") by {
      assert d.registry[1..] == [];
    }
    assert StopOne(d.apps, "system").live == [];
    assert RegisterList(d1, [e]) == RegisterRegistry(d1, e) by {
      assert [e][1..] == [];
    }
    assert RegisterEach([], [e]) == [e] by {
      assert [e][1..] == [] && Registry.Register([], e) == [e];
    }
  }

  ghost predicate Allowed(d: Rest, t: Step) {
    d.uri != "" && Promised(d, t) && SystemGuard(d, t) && DataGuard(d, t)
  }

  lemma Cons(d: Rest, t: Step, rest: seq<Step>)
    requires Allowed(d, t) && Legal(Next(d, t).0, rest)
    ensures Legal(d, [t] + rest) && Exec(d, [t] + rest) == Exec(Next(d, t).0, rest)
  {
    assert ([t] + rest)[1..] == rest;
  }

  lemma ThreeSteps(d: Rest, a: Step, b: Step, c: Step)
    requires Allowed(d, a) && Allowed(Next(d, a).0, b) && Allowed(Next(Next(d, a).0, b).0, c)
    requires Next(Next(Next(d, a).0, b).0, c).0.uri != ""
    ensures Legal(d, [a, b, c]) && Exec(d, [a, b, c]) == Next(Next(Next(d, a).0, b).0, c).0
  {
    var d1 := Next(d, a).0;
    var d2 := Next(d1, b).0;
    Cons(d2, c, []);
    Cons(d1, b, [c] + []);
    Cons(d, a, [b] + ([c] + []));
    assert [a] + ([b] + ([c] + [])) == [a, b, c];
  }

  lemma SystemAtStart(uri: string, systemUri: string)
    requires uri != ""
    ensures Allowed(Start(uri), Register(SystemEntry(systemUri)))
    ensures var d := Next(Start(uri), Register(SystemEntry(systemUri))).0;
            d.uri == uri && d.registry == [SystemEntry(systemUri)]
            && |d.apps.live| == 1 && d.apps.live[0].name == "system"
  {
  }

  /** Without that promise the invariant really breaks, in a run the service makes when
      started with "system" enabled: "system" is registered at start-up, a configuration
      with the prefix "sys" replaces it, a client asks for "system", and the next
      configuration, an empty one, registers "system" over the instance so created. */
  lemma SecondSystemInstance(uri: string, systemUri: string) returns (steps: seq<Step>)
    requires GoodUri(uri)
    ensures steps == [Register(SystemEntry(systemUri)), Runs.Reregister([SYS_CONFIG], Some(systemUri)),
                      Http(Ask(uri, "system"))]
    ensures Legal(Start(uri), steps)
    ensures var d := Exec(Start(uri), steps);
            d.uri != "" && UniqueNames(d.apps.live)
            && !UniqueNames(Next(d, Runs.Reregister([], Some(systemUri))).0.apps.live)
  {
    steps := [Register(SystemEntry(systemUri)), Runs.Reregister([SYS_CONFIG], Some(systemUri)),
              Http(Ask(uri, "system"))];
    SystemAtStart(uri, systemUri);
    var d1 := Next(Start(uri), steps[0]).0;
    SysReplacesSystem(d1, systemUri);
    var d2 := Next(d1, steps[1]).0;
    GetCreatesSystem(d2);
    ThreeSteps(Start(uri), steps[0], steps[1], steps[2]);
    EmptyConfigKeepsSystem(Next(d2, steps[2]).0, systemUri);
  }

  lemma EmptyConfigKeepsSystem(d: Rest, uri: string)
    requires d.uri != "" && d.registry == [EntryOf(SYS_CONFIG)] && |d.apps.live| == 1 && d.apps.live[0].name == "system"
    ensures UniqueNames(d.apps.live)
    ensures !UniqueNames(Next(d, Runs.Reregister([], Some(uri))).0.apps.live)
  {
    SysList();
    assert |"Sys"| != |"system"|;
    assert !HasName(d.registry, "system");
    UniqueStepIff(d, Runs.Reregister([], Some(uri)));
  }

  // ---------- what the state texts mean ----------

  /** What the state texts mean: "running" is running, "suspended" and "hidden" are
      hidden, anything else is stopped; "system" is always hidden. */
  lemma StateTexts(c: Cache, name: string)
    ensures name == "system" ==> ReportedState(c, name) == HIDE
    ensures name != "system" ==>
              && (Search(c, name) == "running" <==> ReportedState(c, name) == RUNNING)
              && (Search(c, name) == "suspended" || Search(c, name) == "hidden" <==> ReportedState(c, name) == HIDE)
  {
    assert |"running"| != |"suspended"| && |"running"| != |"hidden"|;
  }

  /** The application is up: running or hidden. */
  predicate Up(text: string, name: string) {
    name == "system" || text == "running" || text == "suspended" || text == "hidden"
  }

  /** The state a client of this version is shown: before 2.1 there is no hidden. */
  function Shown(text: string, name: string, v: Version): AppState {
    if name != "system" && text == "running" then RUNNING
    else if (name == "system" || text == "suspended" || text == "hidden")
            && (v.major > 2 || (v.major == 2 && v.minor >= 1)) then HIDE
    else STOPPED
  }

  lemma ShownIsDisplayed(c: Cache, name: string, v: Version)
    ensures Displayed(v, ReportedState(c, name)) == Shown(Search(c, name), name, v)
    ensures ReportedState(c, name) != STOPPED <==> Up(Search(c, name), name)
  {
    StateTexts(c, name);
  }

  // ---------- what a GET shows ----------

  function Notifications(steps: seq<Step>): seq<StatusCache.Status> {
    if steps == [] then [] else (if steps[0].Notify? then [steps[0].status] else []) + Notifications(steps[1..])
  }

  lemma CacheStep(d: Rest, t: Step)
    requires d.uri != ""
    ensures var c := d.apps.plat.cache;
            Next(d, t).0.apps.plat.cache == if t.Notify? then Updated(c, t.status) else c
  {
    match t
    case Http(req) => var name := HttpWorks(d, req);
    case Local(req, form) =>
      if AcceptedPost(d, t).Some? {
        DialDataEffect(d.apps, AcceptedPost(d, t).value, req.body, form);
      } else {
        var name := LocalWorks(d, req, form);
      }
    case Reregister(cfg, system) => ReregisterParts(d, AppListOf(cfg), system);
    case _ =>
  }

  lemma {:induction false} UpdatedAllCons(c: Cache, s: StatusCache.Status, h: seq<StatusCache.Status>)
    ensures UpdatedAll(c, [s] + h) == UpdatedAll(Updated(c, s), h)
    decreases |h|
  {
    var all := [s] + h;
    if h == [] {
      assert all[..0] == [] && UpdatedAll(c, []) == c;
    } else {
      assert all[..|all| - 1] == [s] + h[..|h| - 1];
      UpdatedAllCons(c, s, h[..|h| - 1]);
    }
  }

  lemma {:induction false} CacheAfterRun(d: Rest, steps: seq<Step>)
    requires Legal(d, steps)
    ensures Exec(d, steps).apps.plat.cache == UpdatedAll(d.apps.plat.cache, Notifications(steps))
    decreases |steps|
  {
    if steps != [] {
      CacheStep(d, steps[0]);
      CacheAfterRun(Next(d, steps[0]).0, steps[1..]);
      if steps[0].Notify? {
        UpdatedAllCons(d.apps.plat.cache, steps[0].status, Notifications(steps[1..]));
      } else {
        assert [] + Notifications(steps[1..]) == Notifications(steps[1..]);
      }
    }
  }

  lemma GetReport(s: Store, name: string, v: Version)
    requires Agreement(s) && name != ""
    ensures var st := ReportedState(s.plat.cache, name);
            HandleGet(s, name, v).1.report
            == Some(Report(name, Displayed(v, st), st != STOPPED, FileTable(s.files, name)))
  {
    var (s1, k) := FindOrNew(s, name);
    KeptFindOrNew(s, name);
    assert s1.live[k].data == FileTable(s.files, name);
  }

  /** What clients see.  After any run from the start a GET reports what the text of the
      application's last APP_STATE_CHANGED notification means to a client of this version
      (stopped if there was none), and the dial data last posted for it; no matter which
      instances came and went. */
  lemma ClientsSeeLastNotification(uri: string, steps: seq<Step>, name: string, v: Version)
    requires uri != "" && name != "" && Legal(Start(uri), steps)
    requires OwnsId(Notifications(steps), name)
    ensures var t := LastState(Notifications(steps), name);
            var data := match LastPosted(Start(uri), steps, name)
                        case Some(es) => Table(es)
                        case None => map[];
            HandleGet(Exec(Start(uri), steps).apps, name, v).1
            == Reply(200, Some(Report(name, Shown(t, name, v), Up(t, name), data)))
  {
    RunInv(Start(uri), steps);
    CacheAfterRun(Start(uri), steps);
    FileAfterRun(Start(uri), steps, name);
    SearchFindsLast(Notifications(steps), name);
    GetReport(Exec(Start(uri), steps).apps, name, v);
    ShownIsDisplayed(Exec(Start(uri), steps).apps.plat.cache, name, v);
  }

  // ---------- which answers a request can get ----------

  /** State of the last notification under the cache id of `name`, if there was one. */
  function LastNoted(c: Cache, h: seq<StatusCache.Status>, name: string): Option<string> {
    if h == [] then None
    else if CacheId(c, h[|h| - 1].name) == CacheId(c, name) then Some(h[|h| - 1].state)
    else LastNoted(c, h[..|h| - 1], name)
  }

  lemma {:induction false} SearchAfterNotes(c: Cache, h: seq<StatusCache.Status>, name: string)
    ensures forall n :: CacheId(UpdatedAll(c, h), n) == CacheId(c, n)
    ensures Search(UpdatedAll(c, h), name)
            == match LastNoted(c, h, name) case Some(state) => state case None => Search(c, name)
    decreases |h|
  {
    if h != [] {
      SearchAfterNotes(c, h[..|h| - 1], name);
    }
  }

  /** handle_POST_hide when the request worker dispatches notifications between the
      state being read and the application being hidden. */
  function HideInterrupted(s: Store, k: nat, between: seq<StatusCache.Status>): (Store, Reply)
    requires k < |s.live|
  {
    var s1 := ReadState(s, k);
    HideAfterRead(s1.(plat := s1.plat.(cache := UpdatedAll(s1.plat.cache, between))), k)
  }

  /** The answer to a hide, exactly: 404 for a stopped application; 500 if and only if it
      was running when its state was read and the last notification that then came in
      under its cache id says it is not; 200 otherwise. */
  lemma HideOutcome(s: Store, k: nat, between: seq<StatusCache.Status>)
    requires k < |s.live|
    ensures var name := s.live[k].name;
            var note := LastNoted(s.plat.cache, between, name);
            HideInterrupted(s, k, between).1
            == RestSpec.Status(
                 if ReportedState(s.plat.cache, name) == STOPPED then 404
                 else if name != "system" && Search(s.plat.cache, name) == "running"
                         && note.Some? && note.value != "running" then 500
                 else 200)
  {
    SearchAfterNotes(s.plat.cache, between, s.live[k].name);
  }

  /** An undisturbed hide answers 200 or 404 only. */
  lemma UndisturbedHide(s: Store, k: nat)
    requires k < |s.live|
    ensures var st := ReportedState(s.plat.cache, s.live[k].name);
            HandleHide(s, k).1 == RestSpec.Status(if st == STOPPED then 404 else 200)
  {
    HideOutcome(s, k, []);
    assert UpdatedAll(s.plat.cache, []) == s.plat.cache;
  }

  predicate AcceptablePost(req: Request) {
    (HasBody(req.body) ==> |req.body.value| <= MAX_PAYLOAD && Printable(req.body.value)) && req.port != 0
  }

  /** A wrong key for a sleep or power-toggle request. */
  predicate WrongSleepKey(req: Request) {
    var q := Query.ParseQuery(LaunchQuery(req.query));
    (Get(q, "action") == "sleep" || Get(q, "action") == "togglepower")
    && req.sleepKey.Some? && Get(q, "key") != req.sleepKey.value
  }

  lemma StartForFailsIff(s: Store, k: nat, e: Entry, req: Request)
    requires k < |s.live| && s.live[k].name == e.name
    ensures StartFor(s, k, e, req).1 == if e.name == "system" && WrongSleepKey(req) then INTERNAL else NO_ERROR
  {
  }

  lemma StartOrDropOutcome(s: Store, k: nat, existed: bool, e: Entry, req: Request)
    requires k < |s.live| && s.live[k].name == e.name && UniqueNames(s.live)
    ensures var r := StartOrDrop(s, k, existed, e, req);
            if e.name == "system" && WrongSleepKey(req) then
              r.1.status == 503 && !IsLive(r.0.live, "system")
            else
              IsLive(r.0.live, e.name)
              && r.1.status == if e.name != "system" && (!existed || s.live[k].state == HIDE) then 201 else 200
  {
    StartForFailsIff(s, k, e, req);
    QuietStartFor(s, k, e, req);
    var (s2, err) := StartFor(s, k, e, req);
    if err == NO_ERROR {
      IsLiveIff(s.live, e.name);
      KeptSame(s, StartOrDrop(s, k, existed, e, req).0, e.name);
    } else {
      KeptQuietDispose(s, s2, k);
    }
  }

  /** A launch that gets past the checks fails in exactly one case, and then leaves
      no instance behind: "system" asked to sleep or toggle power with the wrong key.
      It answers 201 when the instance is new or was hidden, 200 otherwise. */
  lemma PostOutcome(s: Store, e: Entry, req: Request)
    requires UniqueNames(s.live) && AcceptablePost(req)
    ensures var r := HandlePost(s, e, req);
            var k := FindApp(s.live, e.name);
            if e.name == "system" && WrongSleepKey(req) then
              r.1.status == 503 && !IsLive(r.0.live, "system")
            else
              IsLive(r.0.live, e.name)
              && r.1.status == if e.name != "system" && (k == |s.live| || s.live[k].state == HIDE) then 201 else 200
  {
    var (s1, k) := FindOrNew(s, e.name);
    KeptFindOrNew(s, e.name);
    StartOrDropOutcome(s1, k, IsLive(s.live, e.name), e, req);
    assert HandlePost(s, e, req) == StartOrDrop(s1, k, IsLive(s.live, e.name), e, req);
  }

  /** Deleting an application that is not stopped answers 200, tells the observer to
      stop it, between state requests, and leaves no instance; a stopped one answers
      404 and "system" 403, and both keep their instance. */
  lemma DeleteOutcome(s: Store, k: nat)
    requires k < |s.live| && UniqueNames(s.live)
    ensures var name := s.live[k].name;
            var st := ReportedState(s.plat.cache, name);
            var (s', r) := HandleDelete(s, k);
            && r.status == (if name == "system" then 403 else if st == STOPPED then 404 else 200)
            && (IsLive(s'.live, name) <==> r.status != 200)
            && s'.plat.outbox
               == s.plat.outbox + (if name == "system" then []
                                   else if st == STOPPED then [StateRequest(name)]
                                   else [StateRequest(name), Platform.Stop(name)]
                                        + [StateRequest(name), StateRequest(name)])
  {
    KeptDelete(s, k);
    IsLiveIff(s.live, s.live[k].name);
    var s1 := ReadState(s, k);
    KeptSameAfterRead(s, k);
    if s.live[k].name != "system" && s1.live[k].state != STOPPED {
      var (s2, err) := StopApp(s1, k);
      assert s2.plat.outbox == s1.plat.outbox + [Platform.Stop(s.live[k].name)] + [StateRequest(s.live[k].name)];
    }
  }

  lemma KeptSameAfterRead(s: Store, k: nat)
    requires k < |s.live|
    ensures IsLive(ReadState(s, k).live, s.live[k].name)
  {
    IsLiveIff(ReadState(s, k).live, s.live[k].name);
    assert ReadState(s, k).live[k].name == s.live[k].name;
  }

  // ---------- who can change something ----------

  /** The entry's origins admit the request; YouTube accepts packages, and nothing that
      has no Origin, and others are only asked when the scheme is https or package. */
  predicate OriginRespected(e: Entry, req: Request, name: string) {
    && (Scheme(req) == Some("https") ==> AllowsOrigin(e, req.origin))
    && (StartsWith(name, "YouTube") ==> HasBody(req.origin) && Scheme(req) in {Some("https"), Some("package")})
    && (!StartsWith(name, "YouTube") && Scheme(req) == Some("package") ==> AllowsOrigin(e, req.origin))
  }

  lemma OriginGuardsChanges(d: Rest, req: Request)
    requires d.uri != "" && AppsCallback(d, req).0 != d
    ensures req.host.Some? && req.path != "" && Pieces(req.path, d.uri).Some?
    ensures var name := Pieces(req.path, d.uri).value[1];
            IsRegistered(d.registry, name) && OriginRespected(d.registry[FindEntry(d.registry, name)], req, name)
  {
  }

  lemma {:induction false} RegisterEachFrom(reg: seq<Entry>, es: seq<Entry>, e: Entry)
    requires e in RegisterEach(reg, es)
    ensures e in reg || e in es
    decreases |es|
  {
    if es != [] {
      RegisterEachFrom(Registry.Register(reg, es[0]), es[1..], e);
      if e in es[1..] {
        assert e in es;
      }
    }
  }

  lemma ConfiguredEntry(cfg: seq<ConfigEntry>, system: Option<string>, e: Entry) returns (i: nat)
    requires e in ConfiguredRegistry(cfg, system)
    ensures if i < |Head(cfg)| then e == EntryOf(cfg[i]) else system.Some? && e == SystemEntry(system.value)
  {
    i := |Head(cfg)|;
    if e in RegisterEach([], AppListOf(cfg)) {
      RegisterEachFrom([], AppListOf(cfg), e);
      ReverseMembers(EntriesOf(Head(cfg)), e);
      assert e in EntriesOf(Head(cfg));
      i :| 0 <= i < |Head(cfg)| && EntriesOf(Head(cfg))[i] == e;
    }
  }

  /** The origin rule, from configuration to effect.  While a configuration is
      registered a remote request can only change something for a name that one of its
      first 64 entries, or an enabled "system", answers for; an https origin must then
      end with that entry's cors, a YouTube name needs an Origin, and one that is no
      package must be https. */
  lemma OriginPolicy(d: Rest, cfg: seq<ConfigEntry>, system: Option<string>, req: Request) returns (i: nat)
    requires d.uri != "" && d.registry == ConfiguredRegistry(cfg, system) && AppsCallback(d, req).0 != d
    ensures req.host.Some? && req.path != "" && Pieces(req.path, d.uri).Some?
    ensures var name := Pieces(req.path, d.uri).value[1];
            if i < |Head(cfg)| then
              && Matches(EntryOf(cfg[i]), name)
              && (Scheme(req) == Some("https") ==> EndsWith(req.origin.value, cfg[i].cors))
              && (StartsWith(name, "YouTube") ==>
                    HasBody(req.origin) && Scheme(req) in {Some("https"), Some("package")})
            else system.Some? && name == "system"
  {
    OriginGuardsChanges(d, req);
    var name := Pieces(req.path, d.uri).value[1];
    i := ConfiguredEntry(cfg, system, d.registry[FindEntry(d.registry, name)]);
  }

  // ---------- who can launch something ----------

  function Launches(out: seq<Notice>): seq<Notice> {
    if out == [] then []
    else Launches(out[..|out| - 1]) + (if out[|out| - 1].Launch? then [out[|out| - 1]] else [])
  }

  lemma LaunchesSnoc(out: seq<Notice>, n: Notice)
    ensures Launches(out + [n]) == Launches(out) + (if n.Launch? then [n] else [])
  {
    assert (out + [n])[..|out|] == out;
  }

  /** The platform work left the launches as they were. */
  ghost predicate NoLaunch(a: Plat, b: Plat) {
    Launches(b.outbox) == Launches(a.outbox)
  }

  lemma StateLaunchesNothing(p: Plat, name: string)
    ensures NoLaunch(p, OsState(p, name).0)
  {
    LaunchesSnoc(p.outbox, StateRequest(name));
  }

  lemma ReadLaunchesNothing(s: Store, k: nat)
    requires k < |s.live|
    ensures NoLaunch(s.plat, ReadState(s, k).plat)
  {
    StateLaunchesNothing(s.plat, s.live[k].name);
  }

  lemma StopLaunchesNothing(s: Store, k: nat)
    requires k < |s.live|
    ensures NoLaunch(s.plat, StopApp(s, k).0.plat)
  {
    var (p, err) := OsStop(s.plat, s.live[k].name);
    LaunchesSnoc(s.plat.outbox, Platform.Stop(s.live[k].name));
    if err == NO_ERROR {
      ReadLaunchesNothing(s.(plat := p), k);
    }
  }

  lemma HideLaunchesNothing(s: Store, k: nat)
    requires k < |s.live|
    ensures NoLaunch(s.plat, HideApp(s, k).0.plat)
  {
    var (p, err) := OsHide(s.plat, s.live[k].name);
    LaunchesSnoc(s.plat.outbox, Platform.Hide(s.live[k].name));
    if err == NO_ERROR {
      ReadLaunchesNothing(s.(plat := p), k);
    }
  }

  lemma DeleteLaunchesNothing(s: Store, k: nat)
    requires k < |s.live|
    ensures NoLaunch(s.plat, HandleDelete(s, k).0.plat)
  {
    var s1 := ReadState(s, k);
    ReadLaunchesNothing(s, k);
    if s.live[k].name != "system" && s1.live[k].state != STOPPED {
      var (s2, err) := StopApp(s1, k);
      StopLaunchesNothing(s1, k);
      ReadLaunchesNothing(s2, k);
    }
  }

  lemma HideLaunchesNothingEver(s: Store, k: nat)
    requires k < |s.live|
    ensures NoLaunch(s.plat, HandleHide(s, k).0.plat)
  {
    var s1 := ReadState(s, k);
    var s' := HandleHide(s, k).0;
    ReadLaunchesNothing(s, k);
    if s1.live[k].state == RUNNING {
      var s2 := HideApp(s1, k).0;
      HideLaunchesNothing(s1, k);
      ReadLaunchesNothing(s2, k);
      assert s' == s2 || s' == ReadState(s2, k);
    } else {
      assert s' == s1;
    }
  }

  lemma HandlersLaunchNothing(s: Store, k: nat)
    requires k < |s.live|
    ensures NoLaunch(s.plat, HandleDelete(s, k).0.plat) && NoLaunch(s.plat, HandleHide(s, k).0.plat)
  {
    DeleteLaunchesNothing(s, k);
    HideLaunchesNothingEver(s, k);
  }

  lemma GetLaunchesNothing(s: Store, name: string, v: Version)
    ensures NoLaunch(s.plat, HandleGet(s, name, v).0.plat)
  {
    var (s1, k) := FindOrNew(s, name);
    ReadLaunchesNothing(s1, k);
  }

  lemma {:induction false} CleanUpLaunchesNothing(s: Store, reg: seq<Entry>)
    ensures NoLaunch(s.plat, StopEach(s, reg).plat)
    decreases |reg|
  {
    if reg != [] {
      var k := FindApp(s.live, reg[0].name);
      if k < |s.live| {
        StopLaunchesNothing(s, k);
        ReadLaunchesNothing(StopApp(s, k).0, k);
      }
      CleanUpLaunchesNothing(StopOne(s, reg[0].name), reg[1..]);
    }
  }

  /** A "system" request to sleep or toggle power is not passed on. */
  predicate PowerRequest(e: Entry, req: Request) {
    var q := Query.ParseQuery(LaunchQuery(req.query));
    e.name == "system" && (Get(q, "action") == "sleep" || Get(q, "action") == "togglepower")
  }

  function LaunchNotice(e: Entry, req: Request): Notice {
    Launch(e.name, LaunchPayload(e.name, req.body), LaunchQuery(req.query),
           if e.useAdditionalData then Some(DataUrl(req.port, e.uri)) else None)
  }

  lemma StartLaunches(s: Store, k: nat, e: Entry, req: Request)
    requires k < |s.live| && s.live[k].name == e.name
    ensures Launches(StartFor(s, k, e, req).0.plat.outbox)
            == Launches(s.plat.outbox) + (if PowerRequest(e, req) then [] else [LaunchNotice(e, req)])
  {
    var n := LaunchNotice(e, req);
    var (p, err) := OsStart(s.plat, req.sleepKey, e.name, n.payload, n.query, n.dataUrl);
    LaunchesSnoc(s.plat.outbox, n);
    ReadLaunchesNothing(Scheduled(s.(plat := p), e.name), k);
  }

  lemma SamePlat(s: Store, k: nat, existed: bool, e: Entry, req: Request)
    requires k < |s.live|
    ensures StartOrDrop(s, k, existed, e, req).0.plat == StartFor(s, k, e, req).0.plat
  {
  }

  lemma PostLaunches(s: Store, e: Entry, req: Request)
    ensures Launches(HandlePost(s, e, req).0.plat.outbox)
            == Launches(s.plat.outbox)
               + (if AcceptablePost(req) && !PowerRequest(e, req) then [LaunchNotice(e, req)] else [])
  {
    if AcceptablePost(req) {
      var (s1, k) := FindOrNew(s, e.name);
      StartLaunches(s1, k, e, req);
      SamePlat(s1, k, IsLive(s.live, e.name), e, req);
      assert HandlePost(s, e, req) == StartOrDrop(s1, k, IsLive(s.live, e.name), e, req);
    } else {
      assert HandlePost(s, e, req).0 == s;
    }
  }

  /** What a request for an application may launch: a POST, once. */
  function LaunchOfPost(d: Rest, req: Request, p: seq<string>): seq<Notice>
    requires |p| >= 2 && IsRegistered(d.registry, p[1])
  {
    var e := d.registry[FindEntry(d.registry, p[1])];
    if |p| == 2 && req.verb == POST && AcceptablePost(req) && !PowerRequest(e, req) then [LaunchNotice(e, req)] else []
  }

  /** What a step may launch: only a remote request that passes the screening. */
  function LaunchOf(d: Rest, t: Step): seq<Notice>
    requires d.uri != ""
  {
    if t.Http? && Screened(d, t.req).Admitted? then LaunchOfPost(d, t.req, Screened(d, t.req).pieces) else []
  }

  /** From a to b exactly these launches were added. */
  ghost predicate Adds(a: Plat, b: Plat, launches: seq<Notice>) {
    Launches(b.outbox) == Launches(a.outbox) + launches
  }

  lemma AddsNothing(a: Plat, b: Plat)
    requires NoLaunch(a, b)
    ensures Adds(a, b, [])
  {
    assert Launches(a.outbox) + [] == Launches(a.outbox);
  }

  lemma AddsTrans(a: Plat, b: Plat, c: Plat, x: seq<Notice>, y: seq<Notice>)
    requires Adds(a, b, x) && Adds(b, c, y)
    ensures Adds(a, c, x + y)
  {
    assert Launches(a.outbox) + x + y == Launches(a.outbox) + (x + y);
  }

  lemma AppRouteLaunches(d: Rest, req: Request, p: seq<string>)
    requires |p| == 2 && IsRegistered(d.registry, p[1])
    ensures Adds(d.apps.plat, Route(d, req, p).0.apps.plat, LaunchOfPost(d, req, p))
  {
    if req.verb == POST {
      PostLaunches(d.apps, d.registry[FindEntry(d.registry, p[1])], req);
    } else {
      GetLaunchesNothing(d.apps, p[1], req.version);
      AddsNothing(d.apps.plat, Route(d, req, p).0.apps.plat);
    }
  }

  lemma InstanceLaunchesNothing(d: Rest, req: Request, p: seq<string>)
    requires |p| >= 3
    ensures NoLaunch(d.apps.plat, RouteInstance(d, req, p).0.apps.plat)
  {
    var k := FindApp(d.apps.live, p[1]);
    if req.verb == DELETE && k < |d.apps.live| && NamesInstance(p[2]) {
      HandlersLaunchNothing(d.apps, k);
    } else {
      assert RouteInstance(d, req, p).0 == d;
    }
  }

  lemma HideRouteLaunchesNothing(d: Rest, req: Request, p: seq<string>)
    requires |p| >= 3
    ensures NoLaunch(d.apps.plat, RouteHide(d, req, p).0.apps.plat)
  {
    var k := FindApp(d.apps.live, p[1]);
    if req.verb == POST && k < |d.apps.live| && NamesInstance(p[2]) {
      HandlersLaunchNothing(d.apps, k);
    } else {
      assert RouteHide(d, req, p).0 == d;
    }
  }

  lemma InstanceRouteLaunches(d: Rest, req: Request, p: seq<string>)
    requires |p| > 2 && IsRegistered(d.registry, p[1])
    ensures NoLaunch(d.apps.plat, Route(d, req, p).0.apps.plat)
  {
    InstanceLaunchesNothing(d, req, p);
    HideRouteLaunchesNothing(d, req, p);
    var d' := Route(d, req, p).0;
    assert d' == d || d' == RouteInstance(d, req, p).0 || d' == RouteHide(d, req, p).0;
  }

  lemma RouteLaunches(d: Rest, req: Request, p: seq<string>)
    requires |p| >= 2 && IsRegistered(d.registry, p[1])
    ensures Adds(d.apps.plat, Route(d, req, p).0.apps.plat, LaunchOfPost(d, req, p))
  {
    if |p| == 2 {
      AppRouteLaunches(d, req, p);
    } else {
      InstanceRouteLaunches(d, req, p);
      AddsNothing(d.apps.plat, Route(d, req, p).0.apps.plat);
    }
  }

  lemma DialDataLaunchesNothing(s: Store, name: string, body: Option<string>, form: seq<Pair>)
    ensures HandleDialData(s, name, body, form).0.plat == s.plat
  {
  }

  lemma LocalLaunchesNothing(d: Rest, req: Request, form: seq<Pair>)
    ensures NoLaunch(d.apps.plat, LocalCallback(d, req, form).0.apps.plat)
  {
    var t := LocalTarget(d, req.path);
    if Served(d.handlers, req.path) && t.Some? && t.value < |d.registry| {
      var name := d.registry[t.value].name;
      assert LocalCallback(d, req, form) == LocalRoute(d, t.value, req, form);
      if req.verb == GET {
        GetLaunchesNothing(d.apps, name, req.version);
      } else {
        DialDataLaunchesNothing(d.apps, name, req.body, form);
      }
    } else {
      assert LocalCallback(d, req, form).0 == d;
    }
  }

  lemma StepLaunches(d: Rest, t: Step)
    requires d.uri != ""
    ensures Adds(d.apps.plat, Next(d, t).0.apps.plat, LaunchOf(d, t))
  {
    if t.Http? && Screened(d, t.req).Admitted? {
      RouteLaunches(d, t.req, Screened(d, t.req).pieces);
    } else {
      OthersLaunchNothing(d, t);
      AddsNothing(d.apps.plat, Next(d, t).0.apps.plat);
    }
  }

  lemma OthersLaunchNothing(d: Rest, t: Step)
    requires d.uri != "" && (t.Http? ==> Screened(d, t.req).Refused?)
    ensures NoLaunch(d.apps.plat, Next(d, t).0.apps.plat)
  {
    match t
    case Local(req, form) => LocalLaunchesNothing(d, req, form);
    case Timer(k) =>
      if k < |d.apps.timers| {
        StateLaunchesNothing(d.apps.plat, d.apps.timers[k]);
      }
    case Reregister(cfg, system) =>
      CleanUpLaunchesNothing(d.apps, d.registry);
      RegisterListApps(UnregisterAll(d), AppListOf(cfg));
    case _ =>
  }

  ghost function LaunchesOf(d: Rest, steps: seq<Step>): seq<Notice>
    requires Legal(d, steps)
    decreases |steps|
  {
    if steps == [] then [] else LaunchOf(d, steps[0]) + LaunchesOf(Next(d, steps[0]).0, steps[1..])
  }

  /** Nothing is launched but by a POST that passed the screening and the payload
      checks: over any run the launches the observer is told of are exactly theirs, one
      each, in order. */
  lemma {:induction false} OnlyPostsLaunch(d: Rest, steps: seq<Step>)
    requires Legal(d, steps)
    ensures Adds(d.apps.plat, Exec(d, steps).apps.plat, LaunchesOf(d, steps))
    decreases |steps|
  {
    if steps == [] {
      AddsNothing(d.apps.plat, d.apps.plat);
    } else {
      var d' := Next(d, steps[0]).0;
      StepLaunches(d, steps[0]);
      OnlyPostsLaunch(d', steps[1..]);
      AddsTrans(d.apps.plat, d'.apps.plat, Exec(d, steps).apps.plat, LaunchOf(d, steps[0]), LaunchesOf(d', steps[1..]));
    }
  }
}
