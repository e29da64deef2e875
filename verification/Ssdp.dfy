/**
 The dd.xml responder of server/gdial-ssdp.c: a response that is built when it is
 first asked for and thrown away whenever one of three names changes.  Every
 operation runs under one mutex, so they come one after another.
 */
module Ssdp {
  import opened Common

  const FRIENDLY_DEFAULT := "DialClient"
  const MANUFACTURER_DEFAULT := "OEM"
  const MODELNAME_DEFAULT := "Device"
  const UUID_DEFAULT := "12345678-abcd-abcd-1234-123456789abc"
  const REST_HTTP_PORT := "56889"

  /** Command-line options as given, and as they stand once defaults are filled in. */
  datatype Given = Given(friendlyName: Option<string>, manufacturer: Option<string>, modelName: Option<string>,
                         uuid: Option<string>, featureFriendlyName: bool)

  datatype Options = Options(friendlyName: string, manufacturer: string, modelName: string, uuid: string,
                             featureFriendlyName: bool)

  function Or(a: Option<string>, b: string): string {
    if a.Some? then a.value else b
  }

  function WithDefaults(g: Given): Options {
    Options(Or(g.friendlyName, FRIENDLY_DEFAULT), Or(g.manufacturer, MANUFACTURER_DEFAULT),
            Or(g.modelName, MODELNAME_DEFAULT), Or(g.uuid, UUID_DEFAULT), g.featureFriendlyName)
  }

  /** Everything but the cache.  `options` is None before new and after destroy; the
      three names set at run time outlive both. */
  datatype Names = Names(
    options: Option<Options>,
    appFriendlyName: Option<string>,
    appManufacturerName: Option<string>,
    appModelName: Option<string>,
    address: Option<string>,
    appUuid: Option<string>
  )

  datatype Reply = Reply(status: int, applicationUrl: string, body: string, length: nat)

  const DOC_START := "<?xml version=\"1.0\"?>"
    + "<root xmlns=\"urn:schemas-upnp-org:device-1-0\" xmlns:r=\"urn:restful-tv-org:schemas:upnp-dd\">"
    + "  <specVersion> <major>1</major> <minor>0</minor> </specVersion>"
    + "    <device>"
    + "      <deviceType>urn:schemas-upnp-org:device:tvdevice:1</deviceType>"
  const HEAD := DOC_START + "      <friendlyName>"
  const AFTER_FRIENDLY := "</friendlyName>" + "      <manufacturer>"
  const AFTER_MANUFACTURER := "</manufacturer>" + "      <modelName>"
  const AFTER_MODEL := "</modelName>" + "      <UDN>uuid:"
  const TAIL := "</UDN>" + "     </device>" + "</root>"

  /** The four names a description shows. */
  datatype Shown = Shown(friendlyName: string, manufacturer: string, modelName: string, uuid: string)

  /** The device description for the given names. */
  function Render(e: Shown): string {
    HEAD + (e.friendlyName + (AFTER_FRIENDLY + (e.manufacturer + (AFTER_MANUFACTURER
    + (e.modelName + (AFTER_MODEL + (e.uuid + TAIL)))))))
  }

  /** The names in force: the friendly name only when the feature is on and the name
      is not empty, the other two whenever they were ever set. */
  function InForce(n: Names): Shown
    requires n.options.Some?
  {
    var o := n.options.value;
    Shown(if o.featureFriendlyName && n.appFriendlyName.Some? && n.appFriendlyName.value != ""
          then n.appFriendlyName.value else o.friendlyName,
          Or(n.appManufacturerName, o.manufacturer), Or(n.appModelName, o.modelName), o.uuid)
  }

  function Description(n: Names): string
    requires n.options.Some?
  {
    Render(InForce(n))
  }

  /** A missing string is printed as the C library prints NULL. */
  const NULL_TEXT := "(null)"

  function ApplicationUrl(n: Names): string {
    "http://" + Or(n.address, NULL_TEXT) + ":" + REST_HTTP_PORT + "/" + Or(n.appUuid, NULL_TEXT) + "/"
  }

  datatype Event =
    | New(given: Given, address: Option<string>, appUuid: string)
    | Get(isGet: bool)
    | SetFriendlyName(name: Option<string>)
    | SetManufacturerName(name: Option<string>)
    | SetModelName(name: Option<string>)
    | Destroy

  // ---------- the reference: no cache ----------

  /** What each event does to the names.  `New` without an interface address fails
      after the options have been stored. */
  function NamesAfter(n: Names, e: Event): Names {
    match e
    case New(g, address, uuid) =>
      var m := n.(options := Some(WithDefaults(g)));
      if address == None then m.(address := None) else m.(address := address, appUuid := Some(uuid))
    case Get(_) => n
    case SetFriendlyName(name) =>
      if n.options.Some? && n.options.value.featureFriendlyName && name.Some? then n.(appFriendlyName := name) else n
    case SetManufacturerName(name) => if name.Some? then n.(appManufacturerName := name) else n
    case SetModelName(name) => if name.Some? then n.(appModelName := name) else n
    case Destroy => n.(options := None, appUuid := None)
  }

  /** A server that renders the description anew for every request. */
  function FreshReply(n: Names, isGet: bool): Reply
    requires isGet ==> n.options.Some?
  {
    if !isGet then Reply(400, "", "", 0)
    else Reply(200, ApplicationUrl(n), Description(n), |Description(n)|)
  }

  /** A GET comes only while there are options, which the code then uses unchecked. */
  predicate Allowed(n: Names, e: Event) {
    e == Get(true) ==> n.options.Some?
  }

  ghost predicate Legal(n: Names, es: seq<Event>)
    decreases |es|
  {
    es == [] || (Allowed(n, es[0]) && Legal(NamesAfter(n, es[0]), es[1..]))
  }

  function FreshReplies(n: Names, es: seq<Event>): seq<Reply>
    requires Legal(n, es)
    decreases |es|
  {
    if es == [] then []
    else (if es[0].Get? then [FreshReply(n, es[0].isGet)] else []) + FreshReplies(NamesAfter(n, es[0]), es[1..])
  }

  // ---------- the server with its cache ----------

  /** `length` is a static variable of the callback: it keeps its value when the
      text is dropped. */
  datatype Server = Server(names: Names, cached: Option<string>, length: nat)

  function Filled(s: Server): Server
    requires s.names.options.Some?
  {
    if s.cached.Some? then s else s.(cached := Some(Description(s.names)), length := |Description(s.names)|)
  }

  /** Does the event throw the cached text away? */
  predicate Invalidates(n: Names, e: Event) {
    match e
    case SetFriendlyName(name) => n.options.Some? && n.options.value.featureFriendlyName && name.Some?
    case SetManufacturerName(name) => name.Some?
    case SetModelName(name) => name.Some?
    case Destroy => true
    case _ => false
  }

  function After(s: Server, e: Event): Server
    requires Allowed(s.names, e)
  {
    if e == Get(true) then Filled(s)
    else s.(names := NamesAfter(s.names, e), cached := if Invalidates(s.names, e) then None else s.cached)
  }

  function CachedReply(s: Server, isGet: bool): Reply
    requires isGet ==> s.names.options.Some?
  {
    if !isGet then Reply(400, "", "", 0)
    else Reply(200, ApplicationUrl(s.names), Filled(s).cached.value, Filled(s).length)
  }

  function CachedReplies(s: Server, es: seq<Event>): seq<Reply>
    requires Legal(s.names, es)
    decreases |es|
  {
    if es == [] then []
    else (if es[0].Get? then [CachedReply(s, es[0].isGet)] else []) + CachedReplies(After(s, es[0]), es[1..])
  }

  /** What is cached is what would be rendered now, and its length. */
  ghost predicate Coherent(s: Server) {
    s.cached.Some? ==>
      s.names.options.Some? && s.cached.value == Description(s.names) && s.length == |s.cached.value|
  }

  // ---------- restarts ----------

  /** A start while options are set leaves the names in force as they are. */
  predicate RestartKeepsNames(n: Names, e: Event) {
    e.New? && n.options.Some? ==> InForce(NamesAfter(n, e)) == InForce(n)
  }

  /** A start over a cached text, with no destroy in between, that changes those names. */
  predicate Stale(s: Server, e: Event) {
    s.cached.Some? && !RestartKeepsNames(s.names, e)
  }

  /** Every event but such a restart keeps the cache coherent. */
  lemma StepCoherent(s: Server, e: Event)
    requires Coherent(s) && Allowed(s.names, e)
    ensures After(s, e).names == NamesAfter(s.names, e)
    ensures !Stale(s, e) ==> Coherent(After(s, e))
  {
  }

  /** Names that hold no markup. */
  predicate PlainNames(e: Shown) {
    '<' !in e.friendlyName && '<' !in e.manufacturer && '<' !in e.modelName && '<' !in e.uuid
  }

  predicate Plain(n: Names) {
    n.options.Some? ==> PlainNames(InForce(n))
  }

  lemma SameRest(p: string, x: string, y: string)
    requires p + x == p + y
    ensures x == y
  {
    assert x == (p + x)[|p|..] && y == (p + y)[|p|..];
  }

  /** A name without "<" ends where the tag after it begins. */
  lemma NameEnds(x: string, y: string, tag: string, r: string, q: string)
    requires '<' !in x && '<' !in y && tag != "" && tag[0] == '<'
    requires x + (tag + r) == y + (tag + q)
    ensures x == y && r == q
  {
    var a, b := x + (tag + r), y + (tag + q);
    assert a[|x|] == '<' && b[|y|] == '<';
    assert forall i | 0 <= i < |x| :: a[i] == x[i] != '<';
    assert forall i | 0 <= i < |y| :: b[i] == y[i] != '<';
    assert |x| == |y|;
    assert x == a[..|x|] && y == b[..|y|];
    SameRest(x, tag + r, tag + q);
    SameRest(tag, r, q);
  }

  /** Different names without markup give different descriptions. */
  lemma RenderInjective(a: Shown, b: Shown)
    requires PlainNames(a) && PlainNames(b) && Render(a) == Render(b)
    ensures a == b
  {
    var a4, b4 := a.uuid + TAIL, b.uuid + TAIL;
    var a3, b3 := a.modelName + (AFTER_MODEL + a4), b.modelName + (AFTER_MODEL + b4);
    var a2, b2 := a.manufacturer + (AFTER_MANUFACTURER + a3), b.manufacturer + (AFTER_MANUFACTURER + b3);
    SameRest(HEAD, a.friendlyName + (AFTER_FRIENDLY + a2), b.friendlyName + (AFTER_FRIENDLY + b2));
    NameEnds(a.friendlyName, b.friendlyName, AFTER_FRIENDLY, a2, b2);
    NameEnds(a.manufacturer, b.manufacturer, AFTER_MANUFACTURER, a3, b3);
    NameEnds(a.modelName, b.modelName, AFTER_MODEL, a4, b4);
    assert TAIL + "" == TAIL;
    NameEnds(a.uuid, b.uuid, TAIL, "", "");
  }

  lemma Regroup(b: string, m: string, c: string, d: string, r: string)
    ensures (b + m + c) + (m + (d + r)) == b + (m + ((c + m + d) + r))
  {
  }

  /** With markup they need not: text of one name can pass for the next. */
  lemma MarkupCollides(f: string, b: string, c: string, d: string, u: string)
    ensures Render(Shown(f, b + AFTER_MANUFACTURER + c, d, u)) == Render(Shown(f, b, c + AFTER_MANUFACTURER + d, u))
  {
    Regroup(b, AFTER_MANUFACTURER, c, d, AFTER_MODEL + (u + TAIL));
  }

  /** Exactly which events leave a stale text, for names without markup: a start while a
      text is cached, with options under which another name is in force. */
  lemma StepCoherentIff(s: Server, e: Event)
    requires Coherent(s) && Allowed(s.names, e) && Plain(s.names) && Plain(NamesAfter(s.names, e))
    ensures Coherent(After(s, e))
            <==> (e.New? && s.cached.Some? ==> InForce(NamesAfter(s.names, e)) == InForce(s.names))
  {
    StepCoherent(s, e);
    if Stale(s, e) && Description(NamesAfter(s.names, e)) == Description(s.names) {
      RenderInjective(InForce(NamesAfter(s.names, e)), InForce(s.names));
    }
  }

  ghost predicate NeverStale(s: Server, es: seq<Event>)
    requires Legal(s.names, es)
    decreases |es|
  {
    es != [] ==> !Stale(s, es[0]) && NeverStale(After(s, es[0]), es[1..])
  }

  /** The cache is invisible: over any sequence of events without such a restart, every
      request gets the answer of a server that renders anew each time. */
  lemma {:induction false} CacheIsTransparent(s: Server, es: seq<Event>)
    requires Coherent(s) && Legal(s.names, es) && NeverStale(s, es)
    ensures CachedReplies(s, es) == FreshReplies(s.names, es)
    decreases |es|
  {
    if es != [] {
      StepCoherent(s, es[0]);
      CacheIsTransparent(After(s, es[0]), es[1..]);
    }
  }

  /** At every moment of the run a GET would be answered rightly. */
  ghost predicate AlwaysRight(s: Server, es: seq<Event>)
    requires Legal(s.names, es)
    decreases |es|
  {
    (s.names.options.Some? ==> CachedReply(s, true) == FreshReply(s.names, true))
    && (es != [] ==> AlwaysRight(After(s, es[0]), es[1..]))
  }

  ghost predicate PlainRun(n: Names, es: seq<Event>)
    decreases |es|
  {
    Plain(n) && (es != [] ==> PlainRun(NamesAfter(n, es[0]), es[1..]))
  }

  /** For names without markup no more can be had: at every moment a GET would be
      answered rightly if and only if the run holds no such restart. */
  lemma {:induction false} AlwaysRightIff(s: Server, es: seq<Event>)
    requires Coherent(s) && Legal(s.names, es) && PlainRun(s.names, es)
    ensures AlwaysRight(s, es) <==> NeverStale(s, es)
    decreases |es|
  {
    if es != [] {
      StepCoherent(s, es[0]);
      StepCoherentIff(s, es[0]);
      if !Stale(s, es[0]) {
        AlwaysRightIff(After(s, es[0]), es[1..]);
      }
    }
  }

  /** Runs in which a server is only started when none is running. */
  ghost predicate Alternating(n: Names, es: seq<Event>)
    decreases |es|
  {
    es != [] ==> (es[0].New? ==> n.options == None) && Alternating(NamesAfter(n, es[0]), es[1..])
  }

  lemma {:induction false} AlternatingIsNeverStale(s: Server, es: seq<Event>)
    requires Coherent(s) && Legal(s.names, es) && Alternating(s.names, es)
    ensures NeverStale(s, es)
    decreases |es|
  {
    if es != [] {
      StepCoherent(s, es[0]);
      AlternatingIsNeverStale(After(s, es[0]), es[1..]);
    }
  }

  lemma FirstReply(s: Server, e: Event, rest: seq<Event>)
    requires Allowed(s.names, e) && After(s, e).names == NamesAfter(s.names, e) && Legal(NamesAfter(s.names, e), rest)
    ensures Legal(s.names, [e] + rest)
    ensures CachedReplies(s, [e] + rest)
            == (if e.Get? then [CachedReply(s, e.isGet)] else []) + CachedReplies(After(s, e), rest)
    ensures FreshReplies(s.names, [e] + rest)
            == (if e.Get? then [FreshReply(s.names, e.isGet)] else []) + FreshReplies(NamesAfter(s.names, e), rest)
  {
    assert ([e] + rest)[1..] == rest;
  }

  lemma StartAsk(s: Server, b: Event)
    requires b.New?
    ensures var es := [b] + [Get(true)];
            && Legal(s.names, es)
            && CachedReplies(s, es) == [CachedReply(After(s, b), true)]
            && FreshReplies(s.names, es) == [FreshReply(NamesAfter(s.names, b), true)]
  {
    ReplyLast(After(s, b));
    FirstReply(s, b, [Get(true)]);
  }

  lemma AskStartAsk(s: Server, b: Event)
    requires s.names.options.Some? && b.New?
    ensures var es := [Get(true)] + ([b] + [Get(true)]);
            && Legal(s.names, es)
            && CachedReplies(s, es) == [CachedReply(s, true)] + [CachedReply(After(Filled(s), b), true)]
            && FreshReplies(s.names, es) == [FreshReply(s.names, true)] + [FreshReply(NamesAfter(s.names, b), true)]
  {
    StartAsk(Filled(s), b);
    FirstReply(s, Get(true), [b] + [Get(true)]);
  }

  /** Start, request, start, request: the replies of both servers. */
  lemma TwoStarts(s: Server, a: Event, b: Event)
    requires a.New? && b.New?
    ensures var es := [a, Get(true), b, Get(true)];
            var n := NamesAfter(s.names, a);
            var s3 := After(Filled(After(s, a)), b);
            && Legal(s.names, es)
            && CachedReplies(s, es) == [CachedReply(After(s, a), true), CachedReply(s3, true)]
            && FreshReplies(s.names, es) == [FreshReply(n, true), FreshReply(NamesAfter(n, b), true)]
  {
    AskStartAsk(After(s, a), b);
    FirstReply(s, a, [Get(true)] + ([b] + [Get(true)]));
    assert [a] + ([Get(true)] + ([b] + [Get(true)])) == [a, Get(true), b, Get(true)];
  }

  lemma ReplyLast(s: Server)
    requires s.names.options.Some?
    ensures Legal(s.names, [Get(true)])
    ensures CachedReplies(s, [Get(true)]) == [CachedReply(s, true)]
    ensures FreshReplies(s.names, [Get(true)]) == [FreshReply(s.names, true)]
  {
    assert [Get(true)][1..] == [];
  }

  /** The restart is possible: asked between two starts with different options and once
      more after them, the server describes the first ones again. */
  lemma StaleRestart(s: Server, a: Event, b: Event)
    requires a.New? && b.New? && s.cached == None && s.names.options == None
    requires var n := NamesAfter(s.names, a);
             Plain(n) && Plain(NamesAfter(n, b)) && InForce(n) != InForce(NamesAfter(n, b))
    ensures var es := [a, Get(true), b, Get(true)];
            && Legal(s.names, es)
            && |CachedReplies(s, es)| == |FreshReplies(s.names, es)| == 2
            && CachedReplies(s, es)[0] == FreshReplies(s.names, es)[0]
            && CachedReplies(s, es)[1].body == CachedReplies(s, es)[0].body != FreshReplies(s.names, es)[1].body
  {
    var n := NamesAfter(s.names, a);
    if Description(n) == Description(NamesAfter(n, b)) {
      RenderInjective(InForce(n), InForce(NamesAfter(n, b)));
    }
    TwoStarts(s, a, b);
  }

  /** Two friendly names will do, from the server's first start on. */
  lemma StaleRestartRun() returns (s: Server, es: seq<Event>)
    ensures s == Server(Names(None, None, None, None, None, None), None, 0)
    ensures Legal(s.names, es) && |CachedReplies(s, es)| == |FreshReplies(s.names, es)| == 2
    ensures CachedReplies(s, es)[1] != FreshReplies(s.names, es)[1]
  {
    s := Server(Names(None, None, None, None, None, None), None, 0);
    var g := Given(Some("A"), Some("M"), Some("D"), Some("U"), false);
    var h := Given(Some("B"), Some("M"), Some("D"), Some("U"), false);
    es := [New(g, Some("tv"), "id"), Get(true), New(h, Some("tv"), "id"), Get(true)];
    StaleRestart(s, es[0], es[2]);
  }

  // ---------- what is served, from the events ----------

  /** The options of the last start, unless a destroy came after it. */
  function RunningWith(es: seq<Event>): Option<Given> {
    if es == [] then None
    else
      match es[|es| - 1]
      case New(g, _, _) => Some(g)
      case Destroy => None
      case _ => RunningWith(es[..|es| - 1])
  }

  /** The last friendly name set while a server with the feature was running. */
  function LastFriendly(es: seq<Event>): Option<string> {
    if es == [] then None
    else
      var front, e := es[..|es| - 1], es[|es| - 1];
      if e.SetFriendlyName? && e.name.Some? && RunningWith(front).Some? && RunningWith(front).value.featureFriendlyName
      then e.name else LastFriendly(front)
  }

  function LastManufacturer(es: seq<Event>): Option<string> {
    if es == [] then None
    else
      var e := es[|es| - 1];
      if e.SetManufacturerName? && e.name.Some? then e.name else LastManufacturer(es[..|es| - 1])
  }

  function LastModel(es: seq<Event>): Option<string> {
    if es == [] then None
    else
      var e := es[|es| - 1];
      if e.SetModelName? && e.name.Some? then e.name else LastModel(es[..|es| - 1])
  }

  /** The interface address the last start found. */
  function LastAddress(es: seq<Event>): Option<string> {
    if es == [] then None
    else if es[|es| - 1].New? then es[|es| - 1].address else LastAddress(es[..|es| - 1])
  }

  /** The path id of the last start that found one, unless a destroy came after it. */
  function LastId(es: seq<Event>): Option<string> {
    if es == [] then None
    else
      match es[|es| - 1]
      case New(_, Some(_), id) => Some(id)
      case Destroy => None
      case _ => LastId(es[..|es| - 1])
  }

  /** The description that must be served, for options g and after these events. */
  function Text(g: Given, es: seq<Event>): string {
    var friendly :=
      if g.featureFriendlyName && LastFriendly(es).Some? && LastFriendly(es).value != "" then LastFriendly(es).value
      else if g.friendlyName.Some? then g.friendlyName.value else "DialClient";
    var manufacturer :=
      if LastManufacturer(es).Some? then LastManufacturer(es).value
      else if g.manufacturer.Some? then g.manufacturer.value else "OEM";
    var model :=
      if LastModel(es).Some? then LastModel(es).value
      else if g.modelName.Some? then g.modelName.value else "Device";
    var uuid := if g.uuid.Some? then g.uuid.value else "12345678-abcd-abcd-1234-123456789abc";
    Page(friendly, manufacturer, model, uuid)
  }

  function Page(friendly: string, manufacturer: string, model: string, uuid: string): string {
    (DOC_START + "      <friendlyName>") + friendly
    + ("</friendlyName>" + "      <manufacturer>") + manufacturer
    + ("</manufacturer>" + "      <modelName>") + model
    + ("</modelName>" + "      <UDN>uuid:") + uuid
    + ("</UDN>" + "     </device>" + "</root>")
  }

  lemma Flat(h: string, f: string, a: string, m: string, b: string, d: string, c: string, u: string, t: string)
    ensures h + (f + (a + (m + (b + (d + (c + (u + t))))))) == h + f + a + m + b + d + c + u + t
  {
    assert h + (f + (a + (m + (b + (d + (c + (u + t))))))) == (h + f + a) + (m + (b + (d + (c + (u + t)))));
    assert (h + f + a) + (m + (b + (d + (c + (u + t))))) == (h + f + a + m + b) + (d + (c + (u + t)));
  }

  lemma PageIsRender(f: string, m: string, d: string, u: string)
    ensures Render(Shown(f, m, d, u)) == Page(f, m, d, u)
  {
    Flat(HEAD, f, AFTER_FRIENDLY, m, AFTER_MANUFACTURER, d, AFTER_MODEL, u, TAIL);
  }

  function Url(es: seq<Event>): string {
    "http://" + (if LastAddress(es).Some? then LastAddress(es).value else "(null)") + ":" + "56889" + "/"
    + (if LastId(es).Some? then LastId(es).value else "(null)") + "/"
  }

  const NO_NAMES: Names := Names(None, None, None, None, None, None)

  function NamesAll(n: Names, es: seq<Event>): Names
    decreases |es|
  {
    if es == [] then n else NamesAll(NamesAfter(n, es[0]), es[1..])
  }

  lemma {:induction false} NamesSnoc(n: Names, es: seq<Event>, e: Event)
    ensures NamesAll(n, es + [e]) == NamesAfter(NamesAll(n, es), e)
    decreases |es|
  {
    if es == [] {
      assert es + [e] == [e] && [e][1..] == [];
    } else {
      NamesSnoc(NamesAfter(n, es[0]), es[1..], e);
      assert (es + [e])[0] == es[0] && (es + [e])[1..] == es[1..] + [e];
    }
  }

  /** What the names must be, each from the events that set it. */
  function NamesOf(es: seq<Event>): Names {
    Names(match RunningWith(es) case None => None case Some(g) => Some(WithDefaults(g)),
          LastFriendly(es), LastManufacturer(es), LastModel(es), LastAddress(es), LastId(es))
  }

  lemma NamesOfSnoc(front: seq<Event>, e: Event)
    ensures NamesOf(front + [e]) == NamesAfter(NamesOf(front), e)
  {
    var es := front + [e];
    assert es[..|es| - 1] == front && es[|es| - 1] == e;
  }

  lemma {:induction false} NamesFromEvents(es: seq<Event>)
    ensures NamesAll(NO_NAMES, es) == NamesOf(es)
    decreases |es|
  {
    if es != [] {
      var front, e := es[..|es| - 1], es[|es| - 1];
      NamesFromEvents(front);
      NamesSnoc(NO_NAMES, front, e);
      NamesOfSnoc(front, e);
      assert front + [e] == es;
    }
  }

  /** A server without a cache answers with that text and URL. */
  lemma FreshIsText(es: seq<Event>)
    requires RunningWith(es).Some?
    ensures NamesAll(NO_NAMES, es).options.Some?
    ensures var text := Text(RunningWith(es).value, es);
            FreshReply(NamesAll(NO_NAMES, es), true) == Reply(200, Url(es), text, |text|)
  {
    NamesFromEvents(es);
    var e := InForce(NamesAll(NO_NAMES, es));
    PageIsRender(e.friendlyName, e.manufacturer, e.modelName, e.uuid);
    UrlFromEvents(es);
  }

  lemma UrlFromEvents(es: seq<Event>)
    ensures ApplicationUrl(NamesAll(NO_NAMES, es)) == Url(es)
  {
    NamesFromEvents(es);
  }

  ghost function ServerAfter(s: Server, es: seq<Event>): Server
    requires Legal(s.names, es)
    decreases |es|
  {
    if es == [] then s else ServerAfter(After(s, es[0]), es[1..])
  }

  lemma {:induction false} ServerStaysRight(s: Server, es: seq<Event>)
    requires Coherent(s) && Legal(s.names, es) && NeverStale(s, es)
    ensures Coherent(ServerAfter(s, es)) && ServerAfter(s, es).names == NamesAll(s.names, es)
    decreases |es|
  {
    if es != [] {
      StepCoherent(s, es[0]);
      ServerStaysRight(After(s, es[0]), es[1..]);
    }
  }

  /** What a GET is served, from the events alone.  After any run from the start without a
      restart that changes a name, while a server runs: the last friendly name accepted
      with the feature on, if it is on now and the name is not empty, otherwise the
      option or its default; the last manufacturer and model set, otherwise the option or
      its default; the option's UUID or its default; each in its own element, under the
      URL of the last start. */
  lemma ServedText(es: seq<Event>)
    requires var s := Server(NO_NAMES, None, 0); Legal(s.names, es) && NeverStale(s, es)
    requires RunningWith(es).Some?
    ensures var text := Text(RunningWith(es).value, es);
            var e := ServerAfter(Server(NO_NAMES, None, 0), es);
            e.names.options.Some? && CachedReply(e, true) == Reply(200, Url(es), text, |text|)
  {
    ServerStaysRight(Server(NO_NAMES, None, 0), es);
    FreshIsText(es);
  }

  /** Any other method is refused with 400. */
  lemma OnlyGet(s: Server)
    ensures CachedReply(s, false) == Reply(400, "", "", 0) && After(s, Get(false)) == s
  {
  }

  class SsdpServer {
    var options: Option<Options>
    var appFriendlyName: Option<string>
    var appManufacturerName: Option<string>
    var appModelName: Option<string>
    var ifaceAddress: Option<string>
    var appRandomUuid: Option<string>
    var ddXmlResponse: Option<string>
    var ddXmlResponseLen: nat

    function View(): Server
      reads this
    {
      Server(Names(options, appFriendlyName, appManufacturerName, appModelName, ifaceAddress, appRandomUuid),
             ddXmlResponse, ddXmlResponseLen)
    }

    constructor ()
      ensures Coherent(View()) && View().names.options == None
    {
      options, appFriendlyName, appManufacturerName, appModelName := None, None, None, None;
      ifaceAddress, appRandomUuid, ddXmlResponse, ddXmlResponseLen := None, None, None, 0;
    }

    /** gdial_ssdp_new; the interface address may be missing. */
    method Start(g: Given, address: Option<string>, uuid: string) returns (ok: bool)
      modifies this
      ensures View() == After(old(View()), New(g, address, uuid)) && (ok <==> address.Some?)
    {
      var o := Options("", "", "", "", g.featureFriendlyName);
      o := o.(friendlyName := if g.friendlyName == None then FRIENDLY_DEFAULT else g.friendlyName.value);
      o := o.(manufacturer := if g.manufacturer == None then MANUFACTURER_DEFAULT else g.manufacturer.value);
      o := o.(modelName := if g.modelName == None then MODELNAME_DEFAULT else g.modelName.value);
      o := o.(uuid := if g.uuid == None then UUID_DEFAULT else g.uuid.value);
      options := Some(o);
      ifaceAddress := address;
      if ifaceAddress == None {
        return false;
      }
      appRandomUuid := Some(uuid);
      ok := true;
    }

    /** Build the response if there is none. */
    method Fill()
      requires options.Some?
      modifies this`ddXmlResponse, this`ddXmlResponseLen
      ensures View() == Filled(old(View()))
    {
      if ddXmlResponse == None {
        var o := options.value;
        var manufacturer := if appManufacturerName == None then o.manufacturer else appManufacturerName.value;
        var model := if appModelName == None then o.modelName else appModelName.value;
        var text;
        if o.featureFriendlyName && appFriendlyName.Some? && appFriendlyName.value != "" {
          text := Render(Shown(appFriendlyName.value, manufacturer, model, o.uuid));
        } else {
          text := Render(Shown(o.friendlyName, manufacturer, model, o.uuid));
        }
        ddXmlResponse := Some(text);
        ddXmlResponseLen := |text|;
      }
    }

    /** ssdp_http_server_callback. */
    method Respond(isGet: bool) returns (r: Reply)
      requires isGet ==> options.Some?
      modifies this
      ensures View() == After(old(View()), Get(isGet)) && r == CachedReply(old(View()), isGet)
    {
      if !isGet {
        return Reply(400, "", "", 0);
      }
      Fill();
      var address := if ifaceAddress == None then NULL_TEXT else ifaceAddress.value;
      var id := if appRandomUuid == None then NULL_TEXT else appRandomUuid.value;
      r := Reply(200, "http://" + address + ":" + REST_HTTP_PORT + "/" + id + "/",
                 ddXmlResponse.value, ddXmlResponseLen);
    }

    method SetFriendly(name: Option<string>)
      modifies this
      ensures View() == After(old(View()), SetFriendlyName(name))
    {
      if options.Some? && options.value.featureFriendlyName && name.Some? {
        appFriendlyName := name;
        ddXmlResponse := None;
      }
    }

    method SetManufacturer(name: Option<string>)
      modifies this
      ensures View() == After(old(View()), SetManufacturerName(name))
    {
      if name.Some? {
        appManufacturerName := name;
        ddXmlResponse := None;
      }
    }

    method SetModel(name: Option<string>)
      modifies this
      ensures View() == After(old(View()), SetModelName(name))
    {
      if name.Some? {
        appModelName := name;
        ddXmlResponse := None;
      }
    }

    method Stop()
      modifies this
      ensures View() == After(old(View()), Destroy)
    {
      ddXmlResponse := None;
      options := None;
      appRandomUuid := None;
    }
  }
}
