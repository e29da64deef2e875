/**
 Dial data, by the address it is sent to: which application a local path addresses,
 what a request there does, and what clients see of it over whole runs.  An application's
 address is its own URI, "/" and a UUID; nothing here is stated through the code's way of
 resolving a path.
 */
module LocalPosts {
  import opened Common
  import opened Platform
  import opened Registry
  import opened Apps
  import opened RestSpec
  import opened RestProofs
  import opened Runs
  import opened Guarantees
  import opened Outcomes
  import opened StatusCache
  import DialData
  import Uri

  /** URIs are "/" and a UUID that fits a component, each entry's its own. */
  ghost predicate OwnUris(reg: seq<Entry>) {
    && (forall i | 0 <= i < |reg| ::
          1 < |reg[i].uri| <= 64 && reg[i].uri[0] == '/' && '/' !in reg[i].uri[1..])
    && forall i, j | 0 <= i < j < |reg| :: reg[i].uri != reg[j].uri
  }

  /** The paths of an application's dial data; a doubled or a trailing "/" is forgiven. */
  predicate Addresses(uri: string, path: string) {
    path == uri + "/dial_data" || path == uri + "//dial_data" || path == uri + "/dial_data/"
  }

  /** Entry k is served locally and the path is one of its dial data's. */
  predicate AddressedTo(reg: seq<Entry>, k: nat, path: string) {
    k < |reg| && reg[k].name != "system" && Addresses(reg[k].uri, path)
  }

  // ---------- resolving a path ----------

  lemma {:induction false} FindUuidAtMost(reg: seq<Entry>, uuid: string, k: nat)
    requires k < |reg| && reg[k].uri != "" && reg[k].uri[1..] == uuid
    ensures FindUuid(reg, uuid) <= k
    decreases k
  {
    if k > 0 && !(reg[0].uri != "" && reg[0].uri[1..] == uuid) {
      FindUuidAtMost(reg[1..], uuid, k - 1);
    }
  }

  lemma FindUuidIs(reg: seq<Entry>, k: nat)
    requires OwnUris(reg) && k < |reg|
    ensures FindUuid(reg, reg[k].uri[1..]) == k
  {
    var f := FindUuid(reg, reg[k].uri[1..]);
    FindUuidAtMost(reg, reg[k].uri[1..], k);
    assert reg[f].uri == "/" + reg[f].uri[1..] && reg[k].uri == "/" + reg[k].uri[1..];
  }

  /** A piece, if it is one. */
  function Piece(x: string): seq<string> {
    if x == "" then [] else [x]
  }

  lemma NonEmptyCons(x: string, rest: seq<string>)
    ensures NonEmpty([x] + rest) == Piece(x) + NonEmpty(rest)
  {
    assert ([x] + rest)[1..] == rest;
  }

  lemma NonEmptyTwo(a: string, b: string)
    ensures NonEmpty([a]) == Piece(a) && NonEmpty([a, b]) == Piece(a) + Piece(b)
  {
    NonEmptyCons(b, []);
    assert [b] + [] == [b] && Piece(b) + NonEmpty([]) == Piece(b);
    NonEmptyCons(a, [b]);
    assert [a] + [b] == [a, b];
    NonEmptyCons(a, []);
    assert [a] + [] == [a] && Piece(a) + NonEmpty([]) == Piece(a);
  }

  /** Below a served URI: the pieces of the rest of a path. */
  lemma BelowPieces(id: string, rest: string, path: string)
    requires id != "" && '/' !in id && path == "/" + id + "/" + rest
    ensures Uri.Split(path[1..], 3) == [id] + Uri.SplitRest(rest, 2)
    ensures NonEmpty(Uri.Split(path[1..], 3)) == [id] + NonEmpty(Uri.SplitRest(rest, 2))
  {
    assert path[1..] == id + "/" + rest;
    Uri.SplitFirst(id, rest, 3);
    NonEmptyCons(id, Uri.SplitRest(rest, 2));
  }

  lemma RestPieces(a: string, b: string)
    requires '/' !in a
    ensures NonEmpty(Uri.SplitRest(a, 2)) == Piece(a)
    ensures NonEmpty(Uri.SplitRest(a + "/" + b, 2)) == Piece(a) + Piece(b)
  {
    FindUnique(a, '/', 0, |a|);
    Uri.SplitFirst(a, b, 2);
    assert Uri.SplitRest(b, 1) == [b];
    NonEmptyTwo(a, b);
    assert [a] + [b] == [a, b];
  }

  predicate DialDataRest(rest: string) {
    rest == "dial_data" || rest == "/dial_data" || rest == "dial_data/"
  }

  lemma DialDataRests()
    ensures "" + "/" + "dial_data" == "/dial_data" && "dial_data" + "/" + "" == "dial_data/"
    ensures '/' !in "dial_data" && "dial_data" != ""
  {
  }

  lemma DialDataRestPieces(rest: string)
    requires DialDataRest(rest)
    ensures NonEmpty(Uri.SplitRest(rest, 2)) == ["dial_data"]
  {
    DialDataRests();
    RestPieces("dial_data", "");
    RestPieces("", "dial_data");
    assert Piece("dial_data") + Piece("") == ["dial_data"] && Piece("") + Piece("dial_data") == ["dial_data"];
  }

  /** Those are exactly the rests whose one non-empty piece is "dial_data". */
  lemma PiecesDialDataRest(rest: string)
    requires NonEmpty(Uri.SplitRest(rest, 2)) == ["dial_data"]
    ensures DialDataRest(rest)
  {
    DialDataRests();
    var n := Find(rest, '/', 0);
    if n == |rest| {
      RestPieces(rest, "");
      assert Piece(rest) == ["dial_data"];
    } else {
      var a, b := rest[..n], rest[n + 1..];
      assert rest == a + "/" + b;
      RestPieces(a, b);
      assert Piece(a) + Piece(b) == ["dial_data"];
      assert |Piece(a)| + |Piece(b)| == 1;
      assert (a == "" && Piece(b) == ["dial_data"]) || (b == "" && Piece(a) == ["dial_data"]);
    }
  }

  /** Nothing is cut off a piece that is copied to "dial_data". */
  lemma CopiedDialData(q: string)
    ensures Uri.Copied(q) == "dial_data" <==> q == "dial_data"
  {
    assert |"dial_data"| == 9;
  }

  /** What a path below an entry's URI addresses. */
  lemma TargetBelow(d: Rest, k: nat, rest: string)
    requires OwnUris(d.registry) && k < |d.registry|
    ensures LocalTarget(d, d.registry[k].uri + "/" + rest) == if DialDataRest(rest) then Some(k) else None
  {
    var uri := d.registry[k].uri;
    var path := uri + "/" + rest;
    assert uri == "/" + uri[1..];
    BelowPieces(uri[1..], rest, path);
    FindUuidIs(d.registry, k);
    var q := NonEmpty(Uri.SplitRest(rest, 2));
    assert NonEmpty(Uri.Split(path[1..], 3)) == [uri[1..]] + q;
    assert Uri.Copied(uri[1..]) == uri[1..];
    if |q| == 1 {
      CopiedDialData(q[0]);
      if q[0] == "dial_data" {
        assert q == ["dial_data"];
        PiecesDialDataRest(rest);
      }
    }
    if DialDataRest(rest) {
      DialDataRestPieces(rest);
    }
  }

  lemma AddressedRest(uri: string, rest: string)
    ensures Addresses(uri, uri + "/" + rest) <==> DialDataRest(rest)
  {
    var path := uri + "/" + rest;
    assert path[|uri| + 1..] == rest;
    assert (uri + "/dial_data")[|uri| + 1..] == "dial_data" && (uri + "//dial_data")[|uri| + 1..] == "/dial_data";
    assert (uri + "/dial_data/")[|uri| + 1..] == "dial_data/";
    if DialDataRest(rest) {
      assert uri + "/" + "dial_data" == uri + "/dial_data" && uri + "/" + "/dial_data" == uri + "//dial_data";
      assert uri + "/" + "dial_data/" == uri + "/dial_data/";
    }
  }

  lemma AddressBelow(uri: string, path: string) returns (rest: string)
    requires Addresses(uri, path)
    ensures path == uri + "/" + rest && DialDataRest(rest)
  {
    rest := path[|uri| + 1..];
    assert path == uri + "/" + rest;
    AddressedRest(uri, rest);
  }

  lemma Resolves(d: Rest, k: nat, path: string)
    requires OwnUris(d.registry) && d.handlers == HandlerSet(d.registry) && AddressedTo(d.registry, k, path)
    ensures Served(d.handlers, path) && LocalTarget(d, path) == Some(k)
  {
    var uri := d.registry[k].uri;
    var rest := AddressBelow(uri, path);
    TargetBelow(d, k, rest);
    assert uri in d.handlers;
    assert path[..|uri| + 1] == uri + "/";
  }

  /** A served path is a served URI or lies below one. */
  lemma ServedBelow(reg: seq<Entry>, path: string) returns (j: nat)
    requires OwnUris(reg) && Served(HandlerSet(reg), path)
    ensures j < |reg| && reg[j].name != "system"
    ensures path == reg[j].uri
            || (StartsWith(path, reg[j].uri + "/") && path == reg[j].uri + "/" + path[|reg[j].uri| + 1..])
  {
    var h :| h in HandlerSet(reg) && (path == h || StartsWith(path, h + "/"));
    j :| 0 <= j < |reg| && reg[j].name != "system" && reg[j].uri == h;
    if path != h {
      assert path[..|h| + 1] == h + "/";
    }
  }

  lemma ServedIff(reg: seq<Entry>, path: string)
    requires OwnUris(reg)
    ensures Served(HandlerSet(reg), path)
            <==> exists j | 0 <= j < |reg| :: reg[j].name != "system"
                   && (path == reg[j].uri || StartsWith(path, reg[j].uri + "/"))
  {
    if Served(HandlerSet(reg), path) {
      var j := ServedBelow(reg, path);
    }
    if j :| 0 <= j < |reg| && reg[j].name != "system" && (path == reg[j].uri || StartsWith(path, reg[j].uri + "/")) {
      assert reg[j].uri in HandlerSet(reg);
    }
  }

  lemma ResolvedIsAddressed(d: Rest, path: string) returns (j: nat)
    requires OwnUris(d.registry) && d.handlers == HandlerSet(d.registry)
    requires Served(d.handlers, path) && LocalTarget(d, path).Some?
    ensures LocalTarget(d, path) == Some(j) && AddressedTo(d.registry, j, path)
  {
    j := ServedBelow(d.registry, path);
    var uri := d.registry[j].uri;
    if path == uri {
      OnePiece(uri[1..]);
    } else {
      var rest := path[|uri| + 1..];
      TargetBelow(d, j, rest);
      AddressedRest(uri, rest);
    }
  }

  lemma OnePiece(id: string)
    requires id != "" && '/' !in id
    ensures |NonEmpty(Uri.Split(id, 3))| == 1
  {
    FindUnique(id, '/', 0, |id|);
    NonEmptyTwo(id, id);
  }

  // ---------- what a local request does ----------

  /** A body a dial-data post accepts. */
  predicate BodyOk(body: Option<string>) {
    NoText(body) || (|body.value| < 8192 && PrintableText(body.value))
  }

  /** What it posts: the decoded form, or nothing. */
  function Posted(body: Option<string>, form: seq<Pair>): seq<Pair> {
    if NoText(body) then [] else form
  }

  lemma DialDataStatus(s: Store, name: string, body: Option<string>, form: seq<Pair>)
    ensures HandleDialData(s, name, body, form).1
            == Reply(if BodyOk(body) then 200 else if |body.value| >= 8192 then 413 else 400, None)
    ensures !BodyOk(body) ==> HandleDialData(s, name, body, form).0 == s
    ensures PostedTable(body, form) == Posted(body, form)
  {
    if body.Some? {
      PrintableTextIff(body.value);
    }
  }

  /** An accepted post: the posted pairs, as text, are the file of this application and
      of no other; it is live and holds them, and nobody else came or went. */
  ghost predicate StoredFor(s: Store, s': Store, name: string, es: seq<Pair>) {
    && s'.plat == s.plat
    && s'.files == (if name == "" then s.files else s.files[name := DialData.Print(es)])
    && OthersSame(s.live, s'.live, name) && IsLive(s'.live, name)
    && (name != "" ==> forall a | a in s'.live && a.name == name :: a.data == Table(es))
    && (forall a | a in s'.live && a.name == name ::
          if IsLive(s.live, name) then a.state == s.live[FindApp(s.live, name)].state else a.state == STOPPED)
  }

  lemma StoresPosted(s: Store, name: string, body: Option<string>, form: seq<Pair>)
    requires UniqueNames(s.live) && BodyOk(body)
    ensures StoredFor(s, HandleDialData(s, name, body, form).0, name, Posted(body, form))
  {
    DialDataStatus(s, name, body, form);
    DialDataEffect(s, name, body, form);
    if name != "" {
      PostedIsHeld(s, name, body, form);
    }
    PostKeepsState(s, name, body, form);
  }

  /** A live instance keeps its state, and a new one is stopped. */
  lemma PostKeepsState(s: Store, name: string, body: Option<string>, form: seq<Pair>)
    requires UniqueNames(s.live) && BodyOk(body)
    ensures forall a | a in HandleDialData(s, name, body, form).0.live && a.name == name ::
              if IsLive(s.live, name) then a.state == s.live[FindApp(s.live, name)].state else a.state == STOPPED
  {
    DialDataStatus(s, name, body, form);
    var (s1, k) := FindOrNew(s, name);
    KeptFindOrNew(s, name);
    var s' := HandleDialData(s, name, body, form).0;
    assert s' == SetData(s1, k, Posted(body, form));
    forall a | a in s'.live && a.name == name ensures a.state == s1.live[k].state {
      var i :| 0 <= i < |s'.live| && s'.live[i] == a;
      assert s1.live[i].name == name && s1.live[k].name == name;
      assert i == k;
    }
  }

  /** POST to an application's dial-data address: 200, and what is posted is stored for
      that application; a body of 8192 bytes or more is 413, one that is not printable 400,
      and then nothing changes. */
  lemma PostToAddress(d: Rest, k: nat, req: Request, form: seq<Pair>)
    requires RestInv(d) && OwnUris(d.registry) && AddressedTo(d.registry, k, req.path) && req.verb == POST
    ensures var (d', r) := LocalCallback(d, req, form);
            if !BodyOk(req.body) then (d', r) == (d, Reply(if |req.body.value| >= 8192 then 413 else 400, None))
            else
              && r == Reply(200, None)
              && d' == d.(apps := d'.apps)
              && StoredFor(d.apps, d'.apps, d.registry[k].name, Posted(req.body, form))
  {
    Resolves(d, k, req.path);
    assert LocalCallback(d, req, form) == LocalRoute(d, k, req, form);
    DialDataStatus(d.apps, d.registry[k].name, req.body, form);
    if BodyOk(req.body) {
      StoresPosted(d.apps, d.registry[k].name, req.body, form);
    }
  }

  lemma PostedIsHeld(s: Store, name: string, body: Option<string>, form: seq<Pair>)
    requires UniqueNames(s.live) && BodyOk(body) && name != ""
    ensures forall a | a in HandleDialData(s, name, body, form).0.live && a.name == name ::
              a.data == Table(Posted(body, form))
  {
    DialDataStatus(s, name, body, form);
    var (s1, k) := FindOrNew(s, name);
    KeptFindOrNew(s, name);
    var s' := HandleDialData(s, name, body, form).0;
    assert s' == SetData(s1, k, Posted(body, form));
    forall a | a in s'.live && a.name == name ensures a.data == Table(Posted(body, form)) {
      var i :| 0 <= i < |s'.live| && s'.live[i] == a;
      assert s1.live[i].name == name && s1.live[k].name == name;
      assert i == k;
    }
  }

  /** GET of an application's dial-data address: the report of that application. */
  lemma GetFromAddress(d: Rest, k: nat, req: Request, form: seq<Pair>)
    requires RestInv(d) && OwnUris(d.registry) && AddressedTo(d.registry, k, req.path) && req.verb == GET
    requires d.registry[k].name != ""
    ensures var name := d.registry[k].name;
            var t := Search(d.apps.plat.cache, name);
            var (d', r) := LocalCallback(d, req, form);
            && r == Reply(200, Some(Report(name, Shown(t, name, req.version), Up(t, name),
                                           FileTable(d.apps.files, name))))
            && d' == d.(apps := d'.apps) && Kept(d.apps, d'.apps, name)
            && d'.apps.plat.outbox == d.apps.plat.outbox + Asked(name)
            && (IsLive(d'.apps.live, name) <==> Up(t, name))
  {
    Resolves(d, k, req.path);
    RegisteredUnderOwnName(d.registry, k);
    assert LocalCallback(d, req, form) == LocalRoute(d, k, req, form);
    GetOutcome(d.apps, d.registry[k].name, req.version);
    KeptGet(d.apps, d.registry[k].name, req.version);
  }

  lemma OtherVerbAtAddress(d: Rest, k: nat, req: Request, form: seq<Pair>)
    requires RestInv(d) && OwnUris(d.registry) && AddressedTo(d.registry, k, req.path)
    requires req.verb != POST && req.verb != GET
    ensures LocalCallback(d, req, form) == (d, Reply(501, None))
  {
    Resolves(d, k, req.path);
  }

  /** Any other path changes nothing: 501 at or below a served URI, 404 elsewhere, so
      also at a UUID no application has. */
  lemma ElsewhereNothing(d: Rest, req: Request, form: seq<Pair>)
    requires RestInv(d) && OwnUris(d.registry) && forall k: nat :: !AddressedTo(d.registry, k, req.path)
    ensures var below := exists j | 0 <= j < |d.registry| :: d.registry[j].name != "system"
                           && (req.path == d.registry[j].uri || StartsWith(req.path, d.registry[j].uri + "/"));
            LocalCallback(d, req, form) == (d, Reply(if below then 501 else 404, None))
  {
    ServedIff(d.registry, req.path);
    if Served(d.handlers, req.path) && LocalTarget(d, req.path).Some? {
      var i := ResolvedIsAddressed(d, req.path);
      assert false;
    }
  }

  lemma TargetOfUuid(d: Rest, id: string, path: string)
    requires 0 < |id| < 64 && '/' !in id && Addresses("/" + id, path)
    ensures LocalTarget(d, path) == Some(FindUuid(d.registry, id))
  {
    var rest := AddressBelow("/" + id, path);
    BelowPieces(id, rest, path);
    DialDataRestPieces(rest);
    var p := NonEmpty(Uri.Split(path[1..], 3));
    assert p[0] == id && p[1] == "dial_data" && |p| == 2;
    CopiedDialData(p[1]);
    assert Uri.Copied(p[0]) == id;
  }

  /** A UUID no application has: 404, whoever else is served. */
  lemma NoSuchUuid(d: Rest, req: Request, form: seq<Pair>, id: string)
    requires 0 < |id| < 64 && '/' !in id && Addresses("/" + id, req.path)
    requires forall i | 0 <= i < |d.registry| :: d.registry[i].uri == "" || d.registry[i].uri[1..] != id
    ensures LocalCallback(d, req, form) == (d, Reply(404, None))
  {
    TargetOfUuid(d, id, req.path);
    assert FindUuid(d.registry, id) == |d.registry|;
  }

  // ---------- over whole runs ----------

  /** The step is an accepted post to the address of an application of this name. */
  ghost predicate PostsTo(d: Rest, t: Step, name: string) {
    t.Local? && t.req.verb == POST && BodyOk(t.req.body)
    && exists k: nat :: AddressedTo(d.registry, k, t.req.path) && d.registry[k].name == name
  }

  /** Which posts are accepted, and for whom. */
  lemma AcceptedPostIff(d: Rest, t: Step, name: string)
    requires OwnUris(d.registry) && d.handlers == HandlerSet(d.registry)
    ensures AcceptedPost(d, t) == Some(name) <==> PostsTo(d, t, name)
  {
    if AcceptedPost(d, t) == Some(name) {
      var k := ResolvedIsAddressed(d, t.req.path);
      DialDataStatus(d.apps, name, t.req.body, t.form);
    }
    if PostsTo(d, t, name) {
      var k: nat :| AddressedTo(d.registry, k, t.req.path) && d.registry[k].name == name;
      Resolves(d, k, t.req.path);
      DialDataStatus(d.apps, name, t.req.body, t.form);
    }
  }

  /** Whatever is registered along the run has URIs of its own. */
  ghost predicate OwnUrisThroughout(d: Rest, steps: seq<Step>)
    requires Legal(d, steps)
    decreases |steps|
  {
    OwnUris(d.registry) && (steps != [] ==> OwnUrisThroughout(Next(d, steps[0]).0, steps[1..]))
  }

  /** The pairs last posted to the address of an application of this name. */
  ghost function LastPostedTo(d: Rest, steps: seq<Step>, name: string): Option<seq<Pair>>
    requires Legal(d, steps)
    decreases |steps|
  {
    if steps == [] then None
    else
      var later := LastPostedTo(Next(d, steps[0]).0, steps[1..], name);
      if later.Some? then later
      else if PostsTo(d, steps[0], name) then Some(Posted(steps[0].req.body, steps[0].form))
      else None
  }

  lemma {:induction false} SameLastPosted(d: Rest, steps: seq<Step>, name: string)
    requires RestInv(d) && Legal(d, steps) && OwnUrisThroughout(d, steps)
    ensures LastPosted(d, steps, name) == LastPostedTo(d, steps, name)
    decreases |steps|
  {
    if steps != [] {
      StepInv(d, steps[0]);
      SameLastPosted(Next(d, steps[0]).0, steps[1..], name);
      AcceptedPostIff(d, steps[0], name);
      if steps[0].Local? {
        DialDataStatus(d.apps, name, steps[0].req.body, steps[0].form);
      }
    }
  }

  /** The table of the pairs last posted to the application's address, or the empty one. */
  ghost function DataOf(uri: string, steps: seq<Step>, name: string): DataTable
    requires uri != "" && Legal(Start(uri), steps)
  {
    match LastPostedTo(Start(uri), steps, name)
    case Some(es) => Table(es)
    case None => map[]
  }

  /** Dial data survives, by address: after any run each live instance holds what was last
      posted to the address of its application, whatever came and went in between. */
  lemma AddressDataSurvives(uri: string, steps: seq<Step>, k: nat)
    requires uri != "" && Legal(Start(uri), steps) && OwnUrisThroughout(Start(uri), steps)
    requires k < |Exec(Start(uri), steps).apps.live|
    ensures var a := Exec(Start(uri), steps).apps.live[k]; a.name != "" ==> a.data == DataOf(uri, steps, a.name)
  {
    DialDataSurvives(uri, steps, k);
    SameLastPosted(Start(uri), steps, Exec(Start(uri), steps).apps.live[k].name);
  }

  /** What a client is answered.  After any run from the start, a GET it may make of a
      registered name says: running if the last notification for that name said
      "running", hidden if it said "suspended" or "hidden" and the client knows of hidden
      applications, stopped otherwise; a run link unless it is stopped; and the data last
      posted to the application's address. */
  lemma ClientIsAnswered(uri: string, steps: seq<Step>, req: Request, base: string, name: string)
    requires uri != "" && name != "" && Legal(Start(uri), steps) && OwnUrisThroughout(Start(uri), steps)
    requires OwnsId(Notifications(steps), name)
    requires req.verb == GET && Exec(Start(uri), steps).uri != ""
    requires Screened(Exec(Start(uri), steps), req) == Admitted([base, name])
    ensures var t := LastState(Notifications(steps), name);
            AppsCallback(Exec(Start(uri), steps), req).1
            == Reply(200, Some(Report(name, Shown(t, name, req.version), Up(t, name), DataOf(uri, steps, name))))
  {
    var d := Exec(Start(uri), steps);
    Runs.RunInv(Start(uri), steps);
    GetRequest(d, req, base, name);
    TextAfterRun(uri, steps, name);
    FileAfterRun(Start(uri), steps, name);
    SameLastPosted(Start(uri), steps, name);
  }
}
