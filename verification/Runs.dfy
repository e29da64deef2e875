/**
 Runs of the whole server: remote and local HTTP requests, registrations,
 re-registrations, state notifications and timers, in any order and number.
 */
module Runs {
  import opened Common
  import opened Platform
  import opened Registry
  import opened Apps
  import opened RestSpec
  import opened RestProofs
  import DialData
  import opened StatusCache

  datatype Step =
    | Http(req: Request)
    | Local(req: Request, form: seq<Pair>)
    | Notify(status: StatusCache.Status)
    | Timer(k: nat)
    | Register(entry: Entry)
    | Unregister(name: string)
    | Reregister(cfg: seq<ConfigEntry>, system: Option<string>)

  function AppListOf(cfg: seq<ConfigEntry>): seq<Entry> {
    Reverse(EntriesOf(Head(cfg)))
  }

  function Next(d: Rest, t: Step): (Rest, Reply)
    requires d.uri != ""
  {
    match t
    case Http(req) => AppsCallback(d, req)
    case Local(req, form) => LocalCallback(d, req, form)
    case Notify(s) => (Notified(d, s), RestSpec.Status(0))
    case Timer(k) => (if k < |d.apps.timers| then d.(apps := TimerFired(d.apps, k)) else d, RestSpec.Status(0))
    case Register(e) => (RegisterApp(d, e), RestSpec.Status(0))
    case Unregister(name) => (UnregisterApp(d, name), RestSpec.Status(0))
    case Reregister(cfg, system) => (RestSpec.Reregister(d, AppListOf(cfg), system), RestSpec.Status(0))
  }

  // ---------- what the surroundings promise ----------

  /** Paths the splitter is defined on, decoded forms without repeated keys, and a
      URI of its own for an application that is unregistered alone. */
  ghost predicate Promised(d: Rest, t: Step) {
    match t
    case Http(req) => Splittable(d.uri, req)
    case Local(req, form) => DistinctKeys(form)
    case Unregister(name) =>
      var k := FindEntry(d.registry, name);
      k < |d.registry| ==>
        forall i | 0 <= i < |d.registry| && i != k ::
          d.registry[i].name != "system" ==> d.registry[i].uri != d.registry[k].uri
    case _ => true
  }

  /** "system" is not live when a registration of it is about to be accepted. */
  ghost predicate SystemGuard(d: Rest, t: Step) {
    match t
    case Register(e) => e.name == "system" && !IsRegistered(d.registry, "system") ==> !IsLive(d.apps.live, "system")
    case Reregister(cfg, Some(uri)) =>
      || IsRegistered(RegisterEach([], AppListOf(cfg)), "system")
      || !IsLive(d.apps.live, "system")
      || HasName(d.registry, "system")
    case _ => true
  }

  /** The application whose dial data an accepted post replaces. */
  function AcceptedPost(d: Rest, t: Step): Option<string> {
    if !t.Local? || !Served(d.handlers, t.req.path) || t.req.verb != POST then None
    else
      match LocalTarget(d, t.req.path)
      case None => None
      case Some(k) =>
        if k < |d.registry| && HandleDialData(d.apps, d.registry[k].name, t.req.body, t.form).1.status == 200
        then Some(d.registry[k].name) else None
  }

  /** What an accepted post stores can be read back. */
  predicate DataGuard(d: Rest, t: Step) {
    match AcceptedPost(d, t)
    case None => true
    case Some(name) => name == "" || DialData.Storable(PostedTable(t.req.body, t.form))
  }

  // ---------- one step ----------

  ghost predicate RestInv(d: Rest) {
    && d.uri != ""
    && OrderedRegistry(d.registry)
    && d.handlers == HandlerSet(d.registry)
    && UniqueNames(d.apps.live)
    && Agreement(d.apps)
  }

  lemma RegisteredUnderOwnName(reg: seq<Entry>, k: nat)
    requires k < |reg|
    ensures IsRegistered(reg, reg[k].name)
  {
    assert Matches(reg[k], reg[k].name);
  }

  /** The step did work on one application, which some registered entry answers for,
      or nothing at all. */
  ghost predicate Worked(d: Rest, d': Rest, name: string) {
    d' == d || (d' == d.(apps := d'.apps) && Kept(d.apps, d'.apps, name) && IsRegistered(d.registry, name))
  }

  lemma InstanceRoutesWork(d: Rest, req: Request, p: seq<string>)
    requires |p| >= 3 && IsRegistered(d.registry, p[1])
    ensures Worked(d, RouteInstance(d, req, p).0, p[1])
    ensures Worked(d, RouteHide(d, req, p).0, p[1])
  {
    var k := FindApp(d.apps.live, p[1]);
    if k < |d.apps.live| {
      KeptDelete(d.apps, k);
      KeptHide(d.apps, k);
    }
  }

  lemma PostWorks(d: Rest, req: Request, k: nat)
    requires k < |d.registry|
    ensures Worked(d, d.(apps := HandlePost(d.apps, d.registry[k], req).0), d.registry[k].name)
  {
    KeptPost(d.apps, d.registry[k], req);
    RegisteredUnderOwnName(d.registry, k);
  }

  lemma RouteWorks(d: Rest, req: Request, p: seq<string>) returns (name: string)
    requires |p| >= 2 && IsRegistered(d.registry, p[1])
    ensures Worked(d, Route(d, req, p).0, name)
  {
    name := p[1];
    if |p| > 2 {
      InstanceRoutesWork(d, req, p);
    } else if req.verb == POST {
      name := d.registry[FindEntry(d.registry, p[1])].name;
      PostWorks(d, req, FindEntry(d.registry, p[1]));
    } else if req.verb == GET {
      KeptGet(d.apps, p[1], req.version);
    }
  }

  lemma HttpWorks(d: Rest, req: Request) returns (name: string)
    requires d.uri != ""
    ensures Worked(d, AppsCallback(d, req).0, name)
  {
    match Screened(d, req)
    case Refused(_) => name := "";
    case Admitted(p) => name := RouteWorks(d, req, p);
  }

  lemma LocalRouteWorks(d: Rest, k: nat, req: Request, form: seq<Pair>)
    requires k < |d.registry|
    requires req.verb == POST ==> HandleDialData(d.apps, d.registry[k].name, req.body, form).1.status != 200
    ensures Worked(d, LocalRoute(d, k, req, form).0, d.registry[k].name)
  {
    RegisteredUnderOwnName(d.registry, k);
    if req.verb == GET {
      KeptGet(d.apps, d.registry[k].name, req.version);
    }
  }

  lemma LocalWorks(d: Rest, req: Request, form: seq<Pair>) returns (name: string)
    requires AcceptedPost(d, Local(req, form)) == None
    ensures Worked(d, LocalCallback(d, req, form).0, name)
  {
    name := "";
    if Served(d.handlers, req.path) {
      var t := LocalTarget(d, req.path);
      if t.Some? && t.value < |d.registry| {
        name := d.registry[t.value].name;
        LocalRouteWorks(d, t.value, req, form);
      }
    }
  }

  /** Steps other than an accepted dial-data post leave every file alone. */
  lemma FilesStay(d: Rest, t: Step)
    requires d.uri != "" && AcceptedPost(d, t) == None
    ensures Next(d, t).0.apps.files == d.apps.files
  {
    match t
    case Http(req) => var name := HttpWorks(d, req);
    case Local(req, form) => var name := LocalWorks(d, req, form);
    case Reregister(cfg, system) => ReregisterParts(d, AppListOf(cfg), system);
    case _ =>
  }

  lemma {:induction false} RegisterListApps(d: Rest, es: seq<Entry>)
    ensures RegisterList(d, es).apps == d.apps && RegisterList(d, es).uri == d.uri
    ensures RegisterList(d, es).registry == RegisterEach(d.registry, es)
    decreases |es|
  {
    if es != [] {
      RegisterListApps(RegisterRegistry(d, es[0]), es[1..]);
    }
  }

  lemma ReregisterParts(d: Rest, es: seq<Entry>, system: Option<string>)
    ensures var d' := RestSpec.Reregister(d, es, system);
            && d'.apps.files == d.apps.files && d'.apps.plat.cache == d.apps.plat.cache && d'.uri == d.uri
  {
    StopEachKeeps(d.apps, d.registry);
    RegisterListApps(UnregisterAll(d), es);
  }

  // ---------- names stay unique, exactly when "system" is registered with care ----------

  lemma RegisterAppUniqueIff(d: Rest, e: Entry)
    requires UniqueNames(d.apps.live)
    ensures UniqueNames(RegisterApp(d, e).apps.live)
            <==> (e.name == "system" && !IsRegistered(d.registry, e.name) ==> !IsLive(d.apps.live, "system"))
  {
    NewKeepsUniqueIff(d.apps, e.name);
  }

  lemma ReregisterUniqueIff(d: Rest, es: seq<Entry>, system: Option<string>)
    requires OrderedRegistry(d.registry) && UniqueNames(d.apps.live)
    ensures UniqueNames(RestSpec.Reregister(d, es, system).apps.live)
            <==> (system == None || IsRegistered(RegisterEach([], es), "system")
                  || !IsLive(d.apps.live, "system") || HasName(d.registry, "system"))
  {
    StopEachKeeps(d.apps, d.registry);
    StopEachCounts(d.apps, d.registry, "system");
    var d1 := UnregisterAll(d);
    CountLive(d.apps.live, "system");
    CountLive(d1.apps.live, "system");
    RegisterListApps(d1, es);
    if system.Some? {
      RegisterAppUniqueIff(RegisterList(d1, es), SystemEntry(system.value));
    }
  }

  lemma WorkedUnique(d: Rest, d': Rest, name: string)
    requires Worked(d, d', name) && UniqueNames(d.apps.live)
    ensures UniqueNames(d'.apps.live)
  {
  }

  /** At most one live instance per name: every step keeps it, if and only if the
      step does not create a second "system". */
  lemma UniqueStepIff(d: Rest, t: Step)
    requires d.uri != "" && OrderedRegistry(d.registry) && UniqueNames(d.apps.live)
    ensures UniqueNames(Next(d, t).0.apps.live) <==> SystemGuard(d, t)
  {
    match t
    case Http(req) =>
      var name := HttpWorks(d, req);
      WorkedUnique(d, AppsCallback(d, req).0, name);
    case Local(req, form) =>
      if AcceptedPost(d, t).Some? {
        var name := AcceptedPost(d, t).value;
        DialDataEffect(d.apps, name, req.body, form);
      } else {
        var name := LocalWorks(d, req, form);
        WorkedUnique(d, LocalCallback(d, req, form).0, name);
      }
    case Register(e) => RegisterAppUniqueIff(d, e);
    case Reregister(cfg, system) => ReregisterUniqueIff(d, AppListOf(cfg), system);
    case _ =>
  }

  // ---------- memory and files agree, exactly when the posted data can be read back ----------

  lemma RegisterAppAgrees(d: Rest, e: Entry)
    requires Agreement(d.apps)
    ensures Agreement(RegisterApp(d, e).apps)
  {
    NewAgreesAndAdds(d.apps, e.name);
  }

  lemma WorkedAgrees(d: Rest, d': Rest, name: string)
    requires Worked(d, d', name) && Agreement(d.apps)
    ensures Agreement(d'.apps)
  {
  }

  lemma NotifiedAgrees(d: Rest, s: StatusCache.Status)
    requires Agreement(d.apps)
    ensures Agreement(Notified(d, s).apps)
  {
    SameDataAgrees(d.apps, Notified(d, s).apps);
  }

  lemma AgreementStepIff(d: Rest, t: Step)
    requires d.uri != "" && Promised(d, t) && UniqueNames(d.apps.live) && Agreement(d.apps)
    ensures Agreement(Next(d, t).0.apps) <==> DataGuard(d, t)
  {
    match t
    case Http(req) =>
      var name := HttpWorks(d, req);
      WorkedAgrees(d, AppsCallback(d, req).0, name);
    case Local(req, form) =>
      if AcceptedPost(d, t).Some? {
        DialDataAgreesIff(d.apps, AcceptedPost(d, t).value, req.body, form);
      } else {
        var name := LocalWorks(d, req, form);
        WorkedAgrees(d, LocalCallback(d, req, form).0, name);
      }
    case Notify(s) => NotifiedAgrees(d, s);
    case Timer(k) => SameDataAgrees(d.apps, Next(d, t).0.apps);
    case Register(e) => RegisterAppAgrees(d, e);
    case Unregister(name) =>
    case Reregister(cfg, system) =>
      StopEachKeeps(d.apps, d.registry);
      RegisterListApps(UnregisterAll(d), AppListOf(cfg));
      if system.Some? {
        RegisterAppAgrees(RegisterList(UnregisterAll(d), AppListOf(cfg)), SystemEntry(system.value));
      }
  }

  // ---------- the registry and its handlers ----------

  lemma LocalKeepsRegistry(d: Rest, req: Request, form: seq<Pair>)
    ensures var d' := LocalCallback(d, req, form).0; d' == d.(apps := d'.apps)
  {
  }

  lemma RegistryStep(d: Rest, t: Step)
    requires d.uri != "" && OrderedRegistry(d.registry) && d.handlers == HandlerSet(d.registry) && Promised(d, t)
    ensures var d' := Next(d, t).0;
            d'.uri == d.uri && OrderedRegistry(d'.registry) && d'.handlers == HandlerSet(d'.registry)
  {
    match t
    case Http(req) => var name := HttpWorks(d, req);
    case Local(req, form) => LocalKeepsRegistry(d, req, form);
    case Notify(s) =>
    case Timer(k) =>
    case Register(e) =>
      RegisterKeepsOrder(d.registry, e);
      RegisterRegistryHandlers(d, e);
    case Unregister(name) =>
      var k := FindEntry(d.registry, name);
      if k < |d.registry| {
        RemoveKeepsOrder(d.registry, k);
        UnregisterHandlersIff(d.registry, k);
      }
    case Reregister(cfg, system) => ReregisterRegistry(d, AppListOf(cfg), system);
  }

  /** After re-registration the registry is what the configuration alone gives, with
      "system" in front if it was enabled and not already answered for. */
  lemma ReregisterRegistry(d: Rest, es: seq<Entry>, system: Option<string>)
    requires OrderedRegistry(d.registry) && d.handlers == HandlerSet(d.registry)
    ensures var d' := RestSpec.Reregister(d, es, system);
            && d'.uri == d.uri && OrderedRegistry(d'.registry) && d'.handlers == HandlerSet(d'.registry)
            && d'.registry == (if system == None then RegisterEach([], es)
                               else Registry.Register(RegisterEach([], es), SystemEntry(system.value)))
  {
    var d1 := UnregisterAll(d);
    assert d1.handlers == HandlerSet([]) by { UnregisterAllComplete(d, ""); }
    RegisterListKeeps(d1, es);
    if system.Some? {
      var d2 := RegisterList(d1, es);
      RegisterKeepsOrder(d2.registry, SystemEntry(system.value));
      RegisterRegistryHandlers(d2, SystemEntry(system.value));
    }
  }

  /** The registry a configuration gives, whatever was registered before. */
  function ConfiguredRegistry(cfg: seq<ConfigEntry>, system: Option<string>): seq<Entry> {
    var reg := RegisterEach([], AppListOf(cfg));
    if system == None then reg else Registry.Register(reg, SystemEntry(system.value))
  }

  lemma RegistryAfterReregister(d: Rest, cfg: seq<ConfigEntry>, system: Option<string>)
    requires d.uri != "" && OrderedRegistry(d.registry) && d.handlers == HandlerSet(d.registry)
    ensures Next(d, Reregister(cfg, system)).0.registry == ConfiguredRegistry(cfg, system)
  {
    ReregisterRegistry(d, AppListOf(cfg), system);
  }

  lemma ConfiguredSelection(cfg: seq<ConfigEntry>, system: Option<string>, keep: seq<bool>)
    requires IsSelection(EntriesOf(Head(cfg)), keep)
    ensures var kept := Select(EntriesOf(Head(cfg)), keep);
            ConfiguredRegistry(cfg, system)
            == if system == None || IsRegistered(kept, "system") then kept else [SystemEntry(system.value)] + kept
  {
    ReregistrationResult(EntriesOf(Head(cfg)), keep);
    assert RegisterEach([], AppListOf(cfg)) == Select(EntriesOf(Head(cfg)), keep);
  }

  /** REGISTER_APPLICATIONS, end to end: of the first 64 configuration entries those
      stay that no kept later entry answers for, in configuration order, behind
      "system" if that was enabled and nobody kept answers for it. */
  lemma ReregistrationFromConfig(d: Rest, cfg: seq<ConfigEntry>, system: Option<string>, keep: seq<bool>)
    requires d.uri != "" && OrderedRegistry(d.registry) && d.handlers == HandlerSet(d.registry)
    requires IsSelection(EntriesOf(Head(cfg)), keep)
    ensures var kept := Select(EntriesOf(Head(cfg)), keep);
            Next(d, Reregister(cfg, system)).0.registry
            == if system == None || IsRegistered(kept, "system") then kept else [SystemEntry(system.value)] + kept
  {
    RegistryAfterReregister(d, cfg, system);
    ConfiguredSelection(cfg, system, keep);
  }

  // ---------- runs ----------

  ghost predicate Legal(d: Rest, steps: seq<Step>)
    decreases |steps|
  {
    d.uri != ""
    && (steps != [] ==>
          && Promised(d, steps[0]) && SystemGuard(d, steps[0]) && DataGuard(d, steps[0])
          && Legal(Next(d, steps[0]).0, steps[1..]))
  }

  ghost function Exec(d: Rest, steps: seq<Step>): Rest
    requires Legal(d, steps)
    decreases |steps|
  {
    if steps == [] then d else Exec(Next(d, steps[0]).0, steps[1..])
  }

  function Start(uri: string): Rest {
    Rest(uri, [], {}, Store([], map[], Plat(INITIAL, []), []))
  }

  lemma StepInv(d: Rest, t: Step)
    requires RestInv(d) && Promised(d, t) && SystemGuard(d, t) && DataGuard(d, t)
    ensures RestInv(Next(d, t).0)
  {
    RegistryStep(d, t);
    UniqueStepIff(d, t);
    AgreementStepIff(d, t);
  }

  /** Every reachable state: one instance per name, memory equal to the files, the
      registry in order and the local handlers exactly its URIs. */
  lemma {:induction false} RunInv(d: Rest, steps: seq<Step>)
    requires RestInv(d) && Legal(d, steps)
    ensures RestInv(Exec(d, steps))
    decreases |steps|
  {
    if steps != [] {
      StepInv(d, steps[0]);
      RunInv(Next(d, steps[0]).0, steps[1..]);
    }
  }

  /** The table last posted for an application in a run, if any was accepted. */
  ghost function LastPosted(d: Rest, steps: seq<Step>, name: string): Option<seq<Pair>>
    requires Legal(d, steps)
    decreases |steps|
  {
    if steps == [] then None
    else
      var later := LastPosted(Next(d, steps[0]).0, steps[1..], name);
      if later.Some? then later
      else if AcceptedPost(d, steps[0]) == Some(name) then Some(PostedTable(steps[0].req.body, steps[0].form))
      else None
  }

  lemma FileAfterStep(d: Rest, t: Step, name: string)
    requires d.uri != "" && name != ""
    ensures var files := Next(d, t).0.apps.files;
            if AcceptedPost(d, t) == Some(name)
            then name in files && files[name] == DialData.Print(PostedTable(t.req.body, t.form))
            else FileTable(files, name) == FileTable(d.apps.files, name)
  {
    if AcceptedPost(d, t).Some? {
      DialDataEffect(d.apps, AcceptedPost(d, t).value, t.req.body, t.form);
    } else {
      FilesStay(d, t);
    }
  }

  lemma {:induction false} FileAfterRun(d: Rest, steps: seq<Step>, name: string)
    requires Legal(d, steps) && name != ""
    ensures FileTable(Exec(d, steps).apps.files, name)
            == match LastPosted(d, steps, name)
               case Some(es) => Table(es)
               case None => FileTable(d.apps.files, name)
    decreases |steps|
  {
    if steps != [] {
      var t := steps[0];
      FileAfterRun(Next(d, t).0, steps[1..], name);
      FileAfterStep(d, t, name);
      if AcceptedPost(d, t) == Some(name) {
        DialData.RoundTripIff(PostedTable(t.req.body, t.form));
      }
    }
  }

  /** Dial data survives the instance.  After any run from the start, every live
      instance holds the table last posted for its name, or the empty one, however
      often the instance was stopped, deleted, re-registered or created again. */
  lemma DialDataSurvives(uri: string, steps: seq<Step>, k: nat)
    requires uri != "" && Legal(Start(uri), steps) && k < |Exec(Start(uri), steps).apps.live|
    ensures var a := Exec(Start(uri), steps).apps.live[k];
            a.name != "" ==>
              a.data == match LastPosted(Start(uri), steps, a.name)
                        case Some(es) => Table(es)
                        case None => map[]
  {
    var d := Exec(Start(uri), steps);
    RunInv(Start(uri), steps);
    if d.apps.live[k].name != "" {
      FileAfterRun(Start(uri), steps, d.apps.live[k].name);
    }
  }
}
