/**
 The REST server of server/gdial-rest.c as functions on values: request handlers,
 registration and clean-up.  Sockets, headers and XML text are not modelled; a
 reply is its status and, for GET, the facts the XML reports.
 */
module RestSpec {
  import opened Common
  import opened Platform
  import opened Registry
  import opened Apps
  import DialData
  import StatusCache
  import Uri

  datatype Verb = GET | POST | DELETE | OPTIONS | OTHER

  /** What sscanf "%u.%u.%u" makes of clientDialVer; all zero when it is absent. */
  datatype Version = Version(major: nat, minor: nat, bugfix: nat)

  /** `originScheme` is the scheme libsoup would parse out of an Origin header;
      `sleepKey` is SYSTEM_SLEEP_REQUEST_KEY. */
  datatype Request = Request(
    verb: Verb,
    path: string,
    ipv4: bool,
    loopback: bool,
    host: Option<string>,
    origin: Option<string>,
    originScheme: Option<string>,
    body: Option<string>,
    query: Option<string>,
    version: Version,
    port: int,
    sleepKey: Option<string>
  )

  /** What the XML of a GET reply says. */
  datatype Report = Report(name: string, state: AppState, runLink: bool, data: DataTable)

  /** Status 0: the handler set none. */
  datatype Reply = Reply(status: int, report: Option<Report>)

  function Status(n: int): Reply {
    Reply(n, None)
  }

  /** `uri` is GDIAL_REST_HTTP_APPS_URI; `handlers` are the paths the local server serves. */
  datatype Rest = Rest(uri: string, registry: seq<Entry>, handlers: set<string>, apps: Store)

  const MAX_PAYLOAD: nat := 4096
  const DIAL_DATA_MAX_LEN: nat := 8192
  const MAX_URI_LEN: nat := 1024

  /** GDIAL_STR_SIZEOF of the URI variable, which is a pointer: its size less one. */
  const URI_SIZEOF: nat := 7

  predicate HasBody(body: Option<string>) {
    body.Some? && body.value != ""
  }

  predicate Printable(s: string) {
    forall i | 0 <= i < |s| :: DialData.Printable(s[i])
  }

  // ---------- handlers on the application store ----------

  /** The instance to work on: the first live one of that name, or a new one. */
  function FindOrNew(s: Store, name: string): (r: (Store, nat))
    ensures r.1 < |r.0.live| && r.0.live[r.1].name == name
  {
    var k := FindApp(s.live, name);
    if k < |s.live| then (s, k) else (NewApp(s, name), 0)
  }

  function LaunchPayload(name: string, body: Option<string>): Option<Payload> {
    if !HasBody(body) then None
    else if StartsWith(name, "YouTube") then Some(Raw(body.value))
    else Some(UriEncoded(body.value))
  }

  function LaunchQuery(query: Option<string>): Option<string> {
    if HasBody(query) then query else None
  }

  function ErrorStatus(e: AppError): int {
    if e == FORBIDDEN then 403 else if e == UNAUTH then 401 else 503
  }

  /** The start request handle_POST makes for an instance. */
  function StartFor(s: Store, k: nat, e: Entry, req: Request): (Store, AppError)
    requires k < |s.live|
  {
    StartApp(s, req.sleepKey, k, LaunchPayload(e.name, req.body), LaunchQuery(req.query),
             if e.useAdditionalData then Some(DataUrl(req.port, e.uri)) else None)
  }

  /** Start an instance; one whose start failed is dropped. */
  function StartOrDrop(s: Store, k: nat, existed: bool, e: Entry, req: Request): (Store, Reply)
    requires k < |s.live|
  {
    var before := s.live[k].state;
    var (s2, err) := StartFor(s, k, e, req);
    if err == NO_ERROR then
      (if req.body.Some? then SetPayload(s2, k, req.body) else s2,
       Status(if e.name != "system" && (!existed || before == HIDE) then 201 else 200))
    else (DisposeApp(s2, k), Status(ErrorStatus(err)))
  }

  /** A live instance is reused, otherwise one is created. */
  function Launched(s: Store, e: Entry, req: Request): (Store, Reply) {
    var (s1, k) := FindOrNew(s, e.name);
    StartOrDrop(s1, k, IsLive(s.live, e.name), e, req)
  }

  /** handle_POST once the registry entry is known. */
  function HandlePost(s: Store, e: Entry, req: Request): (Store, Reply) {
    if HasBody(req.body) && |req.body.value| > MAX_PAYLOAD then (s, Status(413))
    else if HasBody(req.body) && !Printable(req.body.value) then (s, Status(400))
    else if req.port == 0 then (s, Status(500))
    else Launched(s, e, req)
  }

  /** compare_versions(v, "2.1") < 0. */
  predicate Before21(v: Version) {
    v.major < 2 || (v.major == 2 && v.minor < 1)
  }

  /** Clients older than DIAL 2.1 are told that a hidden application is stopped. */
  function Displayed(v: Version, st: AppState): AppState {
    if Before21(v) && st == HIDE then STOPPED else st
  }

  function ReportOf(a: App, v: Version): Option<Report> {
    if a.name == "" then None else Some(Report(a.name, Displayed(v, a.state), a.state != STOPPED, a.data))
  }

  /** handle_GET_app once the name is known to be registered: a stopped application's
      instance does not outlive the request. */
  function HandleGet(s: Store, name: string, v: Version): (Store, Reply) {
    var (s1, k) := FindOrNew(s, name);
    var s2 := ReadState(s1, k);
    var a := s2.live[k];
    (if a.state == STOPPED then DisposeApp(s2, k) else s2, Reply(200, ReportOf(a, v)))
  }

  function HandleDelete(s: Store, k: nat): (Store, Reply)
    requires k < |s.live|
  {
    if s.live[k].name == "system" then (s, Status(403))
    else
      var s1 := ReadState(s, k);
      if s1.live[k].state == STOPPED then (s1, Status(404))
      else
        var (s2, err) := StopApp(s1, k);
        var s3 := if err == NO_ERROR then ReadState(s2, k) else s2;
        (DisposeApp(s3, k), Status(200))
  }

  function HandleHide(s: Store, k: nat): (Store, Reply)
    requires k < |s.live|
  {
    HideAfterRead(ReadState(s, k), k)
  }

  /** handle_POST_hide from the point where the instance's state has been read. */
  function HideAfterRead(s1: Store, k: nat): (Store, Reply)
    requires k < |s1.live|
  {
    var current := s1.live[k].state;
    if current == STOPPED then (s1, Status(404))
    else if current == HIDE then (s1, Status(200))
    else
      var (s2, err) := HideApp(s1, k);
      if err == NO_ERROR then (ReadState(s2, k), Status(200))
      else if err == NOT_IMPLEMENTED then (s2, Status(501))
      else (s2, Status(500))
  }

  /** handle_POST_dial_data; `form` is the decoded body in the order it is walked. */
  function HandleDialData(s: Store, name: string, body: Option<string>, form: seq<Pair>): (Store, Reply) {
    if HasBody(body) && |body.value| >= DIAL_DATA_MAX_LEN then (s, Status(413))
    else if HasBody(body) && !Printable(body.value) then (s, Status(400))
    else
      var (s1, k) := FindOrNew(s, name);
      (SetData(s1, k, if HasBody(body) then form else []), Status(200))
  }

  // ---------- who may call ----------

  /** The scheme of the Origin header: an absent or empty header has none. */
  function Scheme(req: Request): Option<string> {
    if HasBody(req.origin) then req.originScheme else None
  }

  /** gdial_rest_server_is_allowed_origin. */
  predicate OriginAllowed(reg: seq<Entry>, origin: Option<string>, scheme: Option<string>, name: string) {
    var k := FindEntry(reg, name);
    var byEntry := k < |reg| && AllowsOrigin(reg[k], origin);
    if StartsWith(name, "YouTube") then
      if scheme == Some("https") then byEntry else scheme == Some("package")
    else if origin == None || origin.value == "" then true
    else if scheme == Some("package") || scheme == Some("https") then byEntry
    else true
  }

  /** What g_ascii_strtoll reads to the end: nothing, or blanks, a sign and digits. */
  predicate Numeric(s: string) {
    s == "" || Integer(s[DialData.SpaceLen(s)..])
  }

  predicate Integer(s: string) {
    s != "" && (Digits(s) || ((s[0] == '-' || s[0] == '+') && Digits(s[1..])))
  }

  predicate Digits(s: string) {
    s != "" && forall i | 0 <= i < |s| :: '0' <= s[i] <= '9'
  }

  /** check_instance: "run" or any number names the application's one instance. */
  predicate NamesInstance(instance: string) {
    instance == "run" || Numeric(instance)
  }

  // ---------- the two server callbacks ----------

  /** strncmp of the first n characters says equal. */
  predicate SamePrefix(a: string, b: string, n: nat) {
    (if |a| < n then a else a[..n]) == (if |b| < n then b else b[..n])
  }

  /** The accepted pieces of a path, for paths on which the splitter is defined. */
  function Pieces(path: string, uri: string): Option<seq<string>>
    requires path != "" && uri != ""
    ensures Pieces(path, uri).Some? ==> |Pieces(path, uri).value| >= 2
  {
    var p := Uri.Split(path[1..], 4);
    if |p| >= 2 && p[0] == uri[1..] && forall i | 0 <= i < |p| :: Uri.Fits(p[i]) then Some(p) else None
  }

  /** The request gets past the checks that come before its path is split. */
  predicate ReachesSplitter(uri: string, req: Request) {
    req.ipv4 && URI_SIZEOF + 1 < |req.path| < MAX_URI_LEN && SamePrefix(req.path, uri, URI_SIZEOF) && req.host.Some?
  }

  /** The splitter, if it is reached, does not run off the pieces of the path. */
  ghost predicate Splittable(uri: string, req: Request) {
    ReachesSplitter(uri, req) ==> !Uri.EndsInEmptyPieces(Uri.Split(req.path[1..], 4))
  }

  /** The screening before any handler: refused with a status, or the pieces of the path. */
  datatype Screening = Refused(status: int) | Admitted(pieces: seq<string>)

  function Screened(d: Rest, req: Request): (r: Screening)
    requires d.uri != ""
    ensures r.Admitted? ==> |r.pieces| >= 2 && IsRegistered(d.registry, r.pieces[1])
  {
    if !req.ipv4 then Refused(501)
    else if |req.path| >= MAX_URI_LEN then Refused(500)
    else if |req.path| <= URI_SIZEOF + 1 then Refused(501)
    else if !SamePrefix(req.path, d.uri, URI_SIZEOF) then Refused(501)
    else if req.host == None then Refused(403)
    else
      match Pieces(req.path, d.uri)
      case None => Refused(501)
      case Some(p) =>
        if !IsRegistered(d.registry, p[1]) then Refused(404)
        else if !OriginAllowed(d.registry, req.origin, Scheme(req), p[1]) then Refused(403)
        else Admitted(p)
  }

  /** gdial_rest_http_server_apps_callback. */
  function AppsCallback(d: Rest, req: Request): (Rest, Reply)
    requires d.uri != ""
  {
    match Screened(d, req)
    case Refused(status) => (d, Status(status))
    case Admitted(p) => Route(d, req, p)
  }

  function Route(d: Rest, req: Request, p: seq<string>): (Rest, Reply)
    requires |p| >= 2 && IsRegistered(d.registry, p[1])
  {
    if |p| == 2 then
      if req.verb == OPTIONS then (d, Status(204))
      else if req.verb == POST then
        var (s, r) := HandlePost(d.apps, d.registry[FindEntry(d.registry, p[1])], req);
        (d.(apps := s), r)
      else if req.verb == GET then
        var (s, r) := HandleGet(d.apps, p[1], req.version);
        (d.(apps := s), r)
      else (d, Status(501))
    else if |p| == 3 then
      if p[2] == "dial_data" then
        if !req.loopback then (d, Status(500))
        else if req.verb == OPTIONS then (d, Status(204))
        else if req.verb == POST then (d, Status(0))
        else (d, Status(501))
      else RouteInstance(d, req, p)
    else if p[3] == "hide" then RouteHide(d, req, p)
    else (d, Status(501))
  }

  function RouteInstance(d: Rest, req: Request, p: seq<string>): (Rest, Reply)
    requires |p| >= 3
  {
    if req.verb == OPTIONS then (d, Status(204))
    else if req.verb == DELETE then
      var k := FindApp(d.apps.live, p[1]);
      if k < |d.apps.live| && NamesInstance(p[2]) then
        var (s, r) := HandleDelete(d.apps, k);
        (d.(apps := s), r)
      else (d, Status(404))
    else if req.verb == POST then (d, Status(404))
    else (d, Status(501))
  }

  function RouteHide(d: Rest, req: Request, p: seq<string>): (Rest, Reply)
    requires |p| >= 3
  {
    if req.verb == OPTIONS then (d, Status(204))
    else if req.verb == POST then
      var k := FindApp(d.apps.live, p[1]);
      if k < |d.apps.live| && NamesInstance(p[2]) then
        var (s, r) := HandleHide(d.apps, k);
        (d.(apps := s), r)
      else (d, Status(404))
    else if req.verb == DELETE then (d, Status(404))
    else (d, Status(501))
  }

  /** libsoup's choice of handler: the path itself or one above it. */
  predicate Served(handlers: set<string>, path: string) {
    exists h | h in handlers :: path == h || StartsWith(path, h + "/")
  }

  function FindUuid(reg: seq<Entry>, uuid: string): (k: nat)
    ensures k <= |reg| && (k < |reg| ==> reg[k].uri != "" && reg[k].uri[1..] == uuid)
  {
    if reg == [] || (reg[0].uri != "" && reg[0].uri[1..] == uuid) then 0 else 1 + FindUuid(reg[1..], uuid)
  }

  /** The registry entry a local path addresses: its first piece is the UUID and its
      second, and last, is "dial_data".  |registry| when there is none; None when the
      path has another shape. */
  function LocalTarget(d: Rest, path: string): (k: Option<nat>)
    ensures k.Some? ==> k.value <= |d.registry|
  {
    if path == "" then None
    else
      var p := NonEmpty(Uri.Split(path[1..], 3));
      if |p| == 2 && Uri.Copied(p[1]) == "dial_data" then Some(FindUuid(d.registry, Uri.Copied(p[0]))) else None
  }

  /** gdial_local_rest_http_server_callback, behind libsoup's handler table. */
  function LocalCallback(d: Rest, req: Request, form: seq<Pair>): (Rest, Reply) {
    if !Served(d.handlers, req.path) then (d, Status(404))
    else
      match LocalTarget(d, req.path)
      case None => (d, Status(501))
      case Some(k) =>
        if k == |d.registry| then (d, Status(404)) else LocalRoute(d, k, req, form)
  }

  function LocalRoute(d: Rest, k: nat, req: Request, form: seq<Pair>): (Rest, Reply)
    requires k < |d.registry|
  {
    if req.verb == POST then
      var (s, r) := HandleDialData(d.apps, d.registry[k].name, req.body, form);
      (d.(apps := s), r)
    else if req.verb == GET then
      if IsRegistered(d.registry, d.registry[k].name) then
        var (s, r) := HandleGet(d.apps, d.registry[k].name, req.version);
        (d.(apps := s), r)
      else (d, Status(404))
    else (d, Status(501))
  }

  // ---------- registration ----------

  function RegisterRegistry(d: Rest, e: Entry): Rest {
    if IsRegistered(d.registry, e.name) then d
    else d.(registry := [e] + d.registry,
            handlers := if e.name != "system" then d.handlers + {e.uri} else d.handlers)
  }

  /** gdial_rest_server_register_app also creates the "system" instance, unchecked. */
  function RegisterApp(d: Rest, e: Entry): Rest {
    if IsRegistered(d.registry, e.name) then d
    else if e.name == "system" then RegisterRegistry(d, e).(apps := NewApp(d.apps, e.name))
    else RegisterRegistry(d, e)
  }

  function RegisterList(d: Rest, es: seq<Entry>): Rest
    decreases |es|
  {
    if es == [] then d else RegisterList(RegisterRegistry(d, es[0]), es[1..])
  }

  /** Stop and drop the instance of one registered name, if there is one. */
  function StopOne(s: Store, name: string): Store {
    var k := FindApp(s.live, name);
    if k == |s.live| then s
    else
      var (s1, err) := StopApp(s, k);
      var s2 := if err == NO_ERROR then ReadState(s1, k) else s1;
      DisposeApp(s2, k)
  }

  function StopEach(s: Store, reg: seq<Entry>): Store
    decreases |reg|
  {
    if reg == [] then s else StopEach(StopOne(s, reg[0].name), reg[1..])
  }

  function Uris(reg: seq<Entry>): set<string> {
    set i | 0 <= i < |reg| :: reg[i].uri
  }

  function UnregisterAll(d: Rest): Rest {
    d.(registry := [], handlers := d.handlers - Uris(d.registry), apps := StopEach(d.apps, d.registry))
  }

  function UnregisterApp(d: Rest, name: string): Rest {
    var k := FindEntry(d.registry, name);
    if k == |d.registry| then d
    else d.(registry := RemoveAt(d.registry, k), handlers := d.handlers - {d.registry[k].uri})
  }

  function SystemEntry(uri: string): Entry {
    Entry("system", uri, [], [], map[], true)
  }

  /** server_register_application: `system` is the URI of the "system" entry when the
      command line enables it. */
  function Reregister(d: Rest, appList: seq<Entry>, system: Option<string>): Rest {
    var d1 := RegisterList(UnregisterAll(d), appList);
    if system == None then d1 else RegisterApp(d1, SystemEntry(system.value))
  }

  /** gdial_os_application_state_changed. */
  function Notified(d: Rest, s: StatusCache.Status): Rest {
    d.(apps := d.apps.(plat := d.apps.plat.(cache := StatusCache.Updated(d.apps.plat.cache, s))))
  }
}
