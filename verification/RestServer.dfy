/**
 The REST server object of server/gdial-rest.c and the registration callback of
 server/gdialservice.cpp, updating their fields in place.  Every method is tied to
 the function of the same meaning in RestSpec; each handler runs to completion
 before the next one.
 */
module RestServer {
  import opened Common
  import opened Platform
  import opened Registry
  import opened Apps
  import opened RestSpec
  import DialData
  import Runs
  import StatusCache
  import Uri

  class GDialRestServer {
    const uri: string
    const apps: AppStore
    var registeredApps: seq<Entry>
    var handlers: set<string>

    ghost predicate Valid()
      reads this, apps, apps.plat, apps.plat.appCache, apps.plat.appCache.store
    {
      uri != "" && apps.Valid()
    }

    ghost function View(): Rest
      reads this, apps, apps.instances, apps.plat, apps.plat.appCache, apps.plat.appCache.store
    {
      Rest(uri, registeredApps, handlers, apps.View())
    }

    constructor (uri: string, apps: AppStore)
      requires uri != "" && apps.Valid()
      ensures Valid() && this.apps == apps && this.uri == uri && View() == Rest(uri, [], {}, apps.View())
    {
      this.uri, this.apps := uri, apps;
      registeredApps, handlers := [], {};
    }

    // ---------- registration ----------

    method FindRegistered(name: string) returns (k: nat)
      ensures k == FindEntry(registeredApps, name)
    {
      k := 0;
      while k < |registeredApps|
        invariant k <= |registeredApps|
        invariant forall i | 0 <= i < k :: !Matches(registeredApps[i], name)
      {
        var matched := MatchName(registeredApps[k], name);
        if matched {
          break;
        }
        k := k + 1;
      }
    }

    method RegisterAppRegistry(e: Entry) returns (ok: bool)
      requires Valid()
      modifies this
      ensures Valid() && View() == RegisterRegistry(old(View()), e)
      ensures ok <==> !IsRegistered(old(registeredApps), e.name)
    {
      var k := FindRegistered(e.name);
      if k < |registeredApps| {
        return false;
      }
      registeredApps := [e] + registeredApps;
      if e.name != "system" {
        handlers := handlers + {e.uri};
      }
      ok := true;
    }

    /** gdial_rest_server_register_app with an entry built from its arguments. */
    method RegisterApp(name: string, uri_: string, prefixes: seq<string>, properties: map<string, string>,
                       useAdditionalData: bool, origins: seq<string>)
      returns (ok: bool)
      requires Valid()
      modifies this, apps
      ensures Valid()
      ensures var e := Entry(name, uri_, Reverse(NonEmpty(prefixes)), Reverse(origins), properties, useAdditionalData);
              View() == RestSpec.RegisterApp(old(View()), e)
      ensures ok <==> !IsRegistered(old(registeredApps), name)
    {
      var k := FindRegistered(name);
      if k < |registeredApps| {
        return false;
      }
      var e := NewEntry(name, uri_, prefixes, properties, useAdditionalData, origins);
      registeredApps := [e] + registeredApps;
      if name == "system" {
        var app := apps.New(e.name);
      }
      if name != "system" {
        handlers := handlers + {e.uri};
      }
      ok := true;
    }

    /** gdial_rest_server_registered_apps_clear: unlink one entry and its handler. */
    method Clear(found: nat)
      requires Valid() && found < |registeredApps|
      modifies this
      ensures Valid()
      ensures registeredApps == RemoveAt(old(registeredApps), found)
      ensures handlers == old(handlers) - {old(registeredApps)[found].uri}
    {
      var e := registeredApps[found];
      registeredApps := registeredApps[..found] + registeredApps[found + 1..];
      handlers := handlers - {e.uri};
    }

    method UnregisterApp(name: string) returns (ok: bool)
      requires Valid()
      modifies this
      ensures Valid() && View() == RestSpec.UnregisterApp(old(View()), name)
      ensures ok <==> IsRegistered(old(registeredApps), name)
    {
      var k := FindRegistered(name);
      if k == |registeredApps| {
        return false;
      }
      Clear(k);
      ok := true;
    }

    /** Stop, if it can be stopped, and drop the instance of one registered name. */
    method StopInstance(name: string, now: int)
      requires Valid()
      modifies apps, apps.instances, apps.plat`outbox, apps.plat.appCache.store.objects.Values
      ensures Valid() && apps.View() == StopOne(old(apps.View()), name)
      ensures forall a | a in apps.instances :: a in old(apps.instances)
    {
      var app, k := apps.FindInstanceByName(name);
      if app != null {
        var err := apps.Stop(app, k, now);
        if err == NO_ERROR {
          apps.State(app, k, now);
        }
        apps.Dispose(app, k);
      }
    }

    lemma OutsideFootprint()
      ensures this !in apps.Footprint()
    {
    }

    /** One turn of the first walk of the clean-up. */
    method StopHead(now: int)
      requires Valid() && registeredApps != []
      modifies this`registeredApps, apps.Footprint()
      ensures Valid() && registeredApps == old(registeredApps)[1..]
      ensures apps.View() == StopOne(old(apps.View()), old(registeredApps)[0].name)
      ensures apps.Footprint() <= old(apps.Footprint()) && handlers == old(handlers)
    {
      OutsideFootprint();
      var name := registeredApps[0].name;
      registeredApps := registeredApps[1..];
      StopInstance(name, now);
    }

    /** The first walk of the clean-up: the list head itself moves over the entries
        and is put back afterwards. */
    method StopAll(now: int)
      requires Valid()
      modifies this`registeredApps, apps.Footprint()
      ensures Valid() && registeredApps == old(registeredApps)
      ensures apps.View() == StopEach(old(apps.View()), registeredApps) && handlers == old(handlers)
    {
      var head := registeredApps;
      OutsideFootprint();
      while registeredApps != []
        invariant Valid() && handlers == old(handlers)
        invariant apps.Footprint() <= old(apps.Footprint())
        invariant StopEach(apps.View(), registeredApps) == StopEach(old(apps.View()), head)
        decreases |registeredApps|
      {
        StopHead(now);
      }
      registeredApps := head;
    }

    /** gdial_rest_server_unregister_all_apps: stop every application, then clear the list. */
    method UnregisterAllApps(now: int)
      requires Valid()
      modifies this, apps.Footprint()
      ensures Valid() && View() == UnregisterAll(old(View()))
    {
      StopAll(now);
      ClearAll();
    }

    method ClearAll()
      requires Valid()
      modifies this
      ensures Valid() && apps.View() == old(apps.View())
      ensures registeredApps == [] && handlers == old(handlers) - Uris(old(registeredApps))
    {
      ghost var head := registeredApps;
      ghost var done := 0;
      while registeredApps != []
        invariant Valid() && done <= |head| && registeredApps == head[done..]
        invariant handlers == old(handlers) - Uris(head[..done])
        decreases |registeredApps|
      {
        assert Uris(head[..done + 1]) == Uris(head[..done]) + {registeredApps[0].uri} by {
          UrisSnoc(head, done);
        }
        Clear(0);
        done := done + 1;
      }
      assert head[..done] == head;
    }

    lemma UrisSnoc(reg: seq<Entry>, n: nat)
      requires n < |reg|
      ensures Uris(reg[..n + 1]) == Uris(reg[..n]) + {reg[n].uri}
    {
      forall u | u in Uris(reg[..n + 1]) ensures u in Uris(reg[..n]) + {reg[n].uri} {
        var i :| 0 <= i < n + 1 && reg[..n + 1][i].uri == u;
        if i < n {
          assert reg[..n][i].uri == u;
        }
      }
      forall u | u in Uris(reg[..n]) ensures u in Uris(reg[..n + 1]) {
        var i :| 0 <= i < n && reg[..n][i].uri == u;
        assert reg[..n + 1][i].uri == u;
      }
      assert reg[..n + 1][n].uri == reg[n].uri;
    }

    /** server_register_application, with the list registerApplications has built;
        `system` is given when the command line enables "system". */
    method ServerRegisterApplication(appList: seq<Entry>, system: Option<string>, now: int)
      requires Valid()
      modifies this, apps.Footprint()
      ensures Valid() && View() == Reregister(old(View()), appList, system)
    {
      UnregisterAllApps(now);
      ghost var cleared := View();
      var rest := appList;
      while rest != []
        invariant Valid() && apps.View() == cleared.apps
        invariant RegisterList(View(), rest) == RegisterList(cleared, appList)
        decreases |rest|
      {
        var ok := RegisterAppRegistry(rest[0]);
        rest := rest[1..];
      }
      if system.Some? {
        var ok := RegisterApp("system", system.value, [], map[], true, []);
        assert Reverse(NonEmpty([])) == [] && Reverse<string>([]) == [];
      }
    }

    /** A REGISTER_APPLICATIONS request, end to end. */
    method RegisterApplications(cfg: seq<ConfigEntry>, system: Option<string>, now: int)
      requires Valid()
      modifies this, apps.Footprint()
      ensures Valid() && View() == Reregister(old(View()), Runs.AppListOf(cfg), system)
    {
      var appList := BuildAppList(cfg);
      ServerRegisterApplication(appList, system, now);
    }

    // ---------- handlers ----------

    method HandlePOST(e: Entry, req: Request, now: int) returns (r: Reply)
      requires Valid()
      modifies apps, apps.instances, apps.plat`outbox, apps.plat.appCache.store.objects.Values
      ensures Valid() && (apps.View(), r) == HandlePost(old(apps.View()), e, req)
    {
      if HasBody(req.body) {
        if |req.body.value| > MAX_PAYLOAD {
          return Status(413);
        }
        var ok := DialData.IsAsciiPrintable(req.body.value);
        if !ok {
          return Status(400);
        }
      }
      if req.port == 0 {
        return Status(500);
      }
      r := Launch(e, req, now);
    }

    /** The common start of three handlers: the first live instance of a name, or a new one. */
    method FindOrCreate(name: string) returns (app: GDialApp, first: bool, ghost k: nat)
      requires Valid()
      modifies apps
      ensures Valid() && (apps.View(), k) == FindOrNew(old(apps.View()), name)
      ensures first <==> !IsLive(old(apps.View()).live, name)
      ensures k < |apps.instances| && apps.instances[k] == app && app.name == name
      ensures fresh(app) || app in old(apps.instances)
      ensures forall a | a in apps.instances :: a == app || a in old(apps.instances)
    {
      var found;
      found, k := apps.FindInstanceByName(name);
      if found != null {
        assert apps.View().live[k].name == name;
        return found, false, k;
      }
      app := apps.New(name);
      first, k := true, 0;
    }

    method Launch(e: Entry, req: Request, now: int) returns (r: Reply)
      requires Valid()
      modifies apps, apps.instances, apps.plat`outbox, apps.plat.appCache.store.objects.Values
      ensures Valid() && (apps.View(), r) == Launched(old(apps.View()), e, req)
    {
      var app, first, k := FindOrCreate(e.name);
      r := StartAndAnswer(app, k, first, e, req, now);
    }

    method StartAndAnswer(app: GDialApp, ghost k: nat, first: bool, e: Entry, req: Request, now: int) returns (r: Reply)
      requires Valid() && k < |apps.instances| && apps.instances[k] == app && app.name == e.name
      modifies apps, app, apps.plat`outbox, apps.plat.appCache.store.objects.Values
      ensures Valid() && (apps.View(), r) == StartOrDrop(old(apps.View()), k, !first, e, req)
    {
      var current := app.state;
      var err := apps.Start(app, k, req.sleepKey, LaunchPayload(app.name, req.body), LaunchQuery(req.query),
                            if e.useAdditionalData then Some(DataUrl(req.port, e.uri)) else None, now);
      if err == NO_ERROR {
        if app.name != "system" && (first || current == HIDE) {
          r := Status(201);
        } else {
          r := Status(200);
        }
        if req.body.Some? {
          apps.SetLaunchPayload(app, k, req.body);
        }
      } else {
        apps.Dispose(app, k);
        r := Status(ErrorStatus(err));
      }
    }

    method HandleGET(name: string, v: Version, now: int) returns (r: Reply)
      requires Valid()
      modifies apps, apps.instances, apps.plat`outbox, apps.plat.appCache.store.objects.Values
      ensures Valid() && (apps.View(), r) == HandleGet(old(apps.View()), name, v)
    {
      var app, first, k := FindOrCreate(name);
      apps.State(app, k, now);
      r := Reply(200, ReportOf(app.View(), v));
      if app.state == STOPPED {
        apps.Dispose(app, k);
      }
    }

    method HandleDELETE(app: GDialApp, ghost k: nat, now: int) returns (r: Reply)
      requires Valid() && k < |apps.instances| && apps.instances[k] == app
      modifies apps, apps.instances, apps.plat`outbox, apps.plat.appCache.store.objects.Values
      ensures Valid() && (apps.View(), r) == HandleDelete(old(apps.View()), k)
    {
      if app.name == "system" {
        return Status(403);
      }
      apps.State(app, k, now);
      if app.state != RUNNING && app.state != HIDE {
        return Status(404);
      }
      var err := apps.Stop(app, k, now);
      if err == NO_ERROR {
        apps.State(app, k, now);
      }
      apps.Dispose(app, k);
      r := Status(200);
    }

    method HandlePOSTHide(app: GDialApp, ghost k: nat, now: int) returns (r: Reply)
      requires Valid() && k < |apps.instances| && apps.instances[k] == app
      modifies app, apps.plat`outbox, apps.plat.appCache.store.objects.Values
      ensures Valid() && (apps.View(), r) == HandleHide(old(apps.View()), k)
    {
      apps.State(app, k, now);
      if app.state != RUNNING && app.state != HIDE {
        return Status(404);
      }
      if app.state != HIDE {
        var err := apps.Hide(app, k, now);
        if err == NO_ERROR {
          apps.State(app, k, now);
        } else if err == NOT_IMPLEMENTED {
          return Status(501);
        } else {
          return Status(500);
        }
      }
      r := Status(200);
    }

    method HandlePOSTDialData(name: string, body: Option<string>, form: seq<Pair>) returns (r: Reply)
      requires Valid()
      modifies apps, apps.instances
      ensures Valid() && (apps.View(), r) == HandleDialData(old(apps.View()), name, body, form)
    {
      if HasBody(body) {
        if |body.value| >= DIAL_DATA_MAX_LEN {
          return Status(413);
        }
        var ok := DialData.IsAsciiPrintable(body.value);
        if !ok {
          return Status(400);
        }
      }
      var app, first, k := FindOrCreate(name);
      apps.SetAdditionalDialData(app, k, if HasBody(body) then form else []);
      r := Status(200);
    }

    // ---------- the callbacks ----------

    /** gdial_rest_server_is_allowed_origin and its YouTube variant. */
    method IsAllowedOrigin(origin: Option<string>, scheme: Option<string>, name: string) returns (allowed: bool)
      ensures allowed <==> OriginAllowed(registeredApps, origin, scheme, name)
    {
      var byEntry := false;
      var k := FindRegistered(name);
      if k < |registeredApps| {
        byEntry := Registry.IsAllowedOrigin(registeredApps[k], origin);
      }
      if StartsWith(name, "YouTube") {
        if scheme == Some("https") {
          return byEntry;
        }
        return scheme == Some("package");
      }
      if origin == None || origin.value == "" {
        return true;
      }
      if scheme == Some("package") || scheme == Some("https") {
        return byEntry;
      }
      return true;
    }

    method HandleApps(req: Request, now: int) returns (r: Reply)
      requires Valid() && Splittable(uri, req)
      modifies apps, apps.instances, apps.plat`outbox, apps.plat.appCache.store.objects.Values
      ensures Valid() && (View(), r) == AppsCallback(old(View()), req)
    {
      if !req.ipv4 {
        return Status(501);
      }
      if |req.path| >= MAX_URI_LEN {
        return Status(500);
      }
      if |req.path| <= URI_SIZEOF + 1 || !SamePrefix(req.path, uri, URI_SIZEOF) {
        return Status(501);
      }
      if req.host == None {
        return Status(403);
      }
      var o := Uri.SplitUri(req.path, uri);
      if !o.Accepted? {
        return Status(501);
      }
      var k := FindRegistered(o.appName);
      if k == |registeredApps| {
        return Status(404);
      }
      var allowed := IsAllowedOrigin(req.origin, Scheme(req), o.appName);
      if !allowed {
        return Status(403);
      }
      r := HandleRoute(req, Uri.Split(req.path[1..], 4), now);
    }

    method HandleRoute(req: Request, p: seq<string>, now: int) returns (r: Reply)
      requires Valid() && |p| >= 2 && IsRegistered(registeredApps, p[1])
      modifies apps, apps.instances, apps.plat`outbox, apps.plat.appCache.store.objects.Values
      ensures Valid() && (View(), r) == Route(old(View()), req, p)
    {
      if |p| == 2 {
        if req.verb == OPTIONS {
          r := Status(204);
        } else if req.verb == POST {
          var k := FindRegistered(p[1]);
          r := HandlePOST(registeredApps[k], req, now);
        } else if req.verb == GET {
          r := HandleGET(p[1], req.version, now);
        } else {
          r := Status(501);
        }
      } else if |p| == 3 {
        if p[2] == "dial_data" {
          if !req.loopback {
            r := Status(500);
          } else if req.verb == OPTIONS {
            r := Status(204);
          } else if req.verb == POST {
            r := Status(0);
          } else {
            r := Status(501);
          }
        } else {
          r := HandleInstance(req, p, now);
        }
      } else if p[3] == "hide" {
        r := HandleHideRoute(req, p, now);
      } else {
        r := Status(501);
      }
    }

    method HandleInstance(req: Request, p: seq<string>, now: int) returns (r: Reply)
      requires Valid() && |p| >= 3
      modifies apps, apps.instances, apps.plat`outbox, apps.plat.appCache.store.objects.Values
      ensures Valid() && (View(), r) == RouteInstance(old(View()), req, p)
    {
      if req.verb == OPTIONS {
        r := Status(204);
      } else if req.verb == DELETE {
        var app, k := apps.FindInstanceByName(p[1]);
        if app != null && NamesInstance(p[2]) {
          r := HandleDELETE(app, k, now);
        } else {
          r := Status(404);
        }
      } else if req.verb == POST {
        r := Status(404);
      } else {
        r := Status(501);
      }
    }

    method HandleHideRoute(req: Request, p: seq<string>, now: int) returns (r: Reply)
      requires Valid() && |p| >= 3
      modifies apps.instances, apps.plat`outbox, apps.plat.appCache.store.objects.Values
      ensures Valid() && (View(), r) == RouteHide(old(View()), req, p)
    {
      if req.verb == OPTIONS {
        r := Status(204);
      } else if req.verb == POST {
        var app, k := apps.FindInstanceByName(p[1]);
        if app != null && NamesInstance(p[2]) {
          r := HandlePOSTHide(app, k, now);
        } else {
          r := Status(404);
        }
      } else if req.verb == DELETE {
        r := Status(404);
      } else {
        r := Status(501);
      }
    }

    method FindByUuid(uuid: string) returns (k: nat)
      ensures k == FindUuid(registeredApps, uuid)
    {
      k := 0;
      while k < |registeredApps|
        invariant k <= |registeredApps|
        invariant FindUuid(registeredApps, uuid) == k + FindUuid(registeredApps[k..], uuid)
      {
        if registeredApps[k].uri != "" && registeredApps[k].uri[1..] == uuid {
          break;
        }
        k := k + 1;
      }
    }

    /** gdial_local_rest_http_server_callback; `form` is the decoded body. */
    method HandleLocal(req: Request, form: seq<Pair>, now: int) returns (r: Reply)
      requires Valid()
      modifies apps, apps.instances, apps.plat`outbox, apps.plat.appCache.store.objects.Values
      ensures Valid() && (View(), r) == LocalCallback(old(View()), req, form)
    {
      if !Served(handlers, req.path) {
        return Status(404);
      }
      var t := ResolveLocal(req.path);
      if t == None {
        return Status(501);
      }
      if t.value == |registeredApps| {
        return Status(404);
      }
      r := HandleLocalTarget(t.value, req, form, now);
    }

    method ResolveLocal(path: string) returns (t: Option<nat>)
      requires Valid()
      ensures t == LocalTarget(View(), path)
    {
      if path == "" {
        return None;
      }
      var base, instance, n := LocalElements(Uri.Split(path[1..], 3));
      if n != 2 || instance != "dial_data" {
        return None;
      }
      var k := FindByUuid(base);
      t := Some(k);
    }

    method HandleLocalTarget(k: nat, req: Request, form: seq<Pair>, now: int) returns (r: Reply)
      requires Valid() && k < |registeredApps|
      modifies apps, apps.instances, apps.plat`outbox, apps.plat.appCache.store.objects.Values
      ensures Valid() && (View(), r) == LocalRoute(old(View()), k, req, form)
    {
      if req.verb == POST {
        r := HandlePOSTDialData(registeredApps[k].name, req.body, form);
      } else if req.verb == GET {
        var e := FindRegistered(registeredApps[k].name);
        if e < |registeredApps| {
          r := HandleGET(registeredApps[k].name, req.version, now);
        } else {
          r := Status(404);
        }
      } else {
        r := Status(501);
      }
    }

    /** Lines 704-737: empty pieces are skipped, the first two others are copied. */
    method LocalElements(elements: seq<string>) returns (base: string, instance: string, n: nat)
      ensures var p := NonEmpty(elements);
              && n == |p|
              && base == (if |p| > 0 then Uri.Copied(p[0]) else "")
              && instance == (if |p| > 1 then Uri.Copied(p[1]) else "")
    {
      base, instance, n := "", "", 0;
      var i := 0;
      while i < |elements|
        invariant i <= |elements|
        invariant var p := NonEmpty(elements[..i]);
                  && n == |p|
                  && base == (if |p| > 0 then Uri.Copied(p[0]) else "")
                  && instance == (if |p| > 1 then Uri.Copied(p[1]) else "")
      {
        NonEmptySnoc(elements[..i], elements[i]);
        assert elements[..i + 1] == elements[..i] + [elements[i]];
        if elements[i] != "" {
          if n == 0 {
            base := Uri.Copied(elements[i]);
          } else if n == 1 {
            instance := Uri.Copied(elements[i]);
          }
          n := n + 1;
        }
        i := i + 1;
      }
      assert elements[..i] == elements;
    }

    /** A state request that a launch scheduled fires. */
    method HandleTimer(k: nat, now: int)
      requires Valid() && k < |apps.timers|
      modifies apps`timers, apps.plat`outbox, apps.plat.appCache.store.objects.Values
      ensures Valid() && View() == Runs.Next(old(View()), Runs.Timer(k)).0
    {
      apps.FireTimer(k, now);
    }

    /** An APP_STATE_CHANGED request reaches the cache. */
    method ApplicationStateChanged(s: StatusCache.Status, now: int)
      requires Valid()
      modifies apps.plat.appCache.store, apps.plat.appCache.store.objects.Values
      ensures Valid() && View() == Notified(old(View()), s)
    {
      var err := apps.plat.StateChanged(s, now);
    }
  }
}
