/**
 What each request does, said outright: statuses, reports, notices and liveness as a
 function of the request, of who is live and of the state text last cached for the
 application.  Nothing here is stated through a handler or a route.
 */
module Outcomes {
  import opened Common
  import opened Platform
  import opened Registry
  import opened Apps
  import opened RestSpec
  import opened RestProofs
  import opened Runs
  import opened Guarantees
  import opened StatusCache
  import DialData
  import Query
  import Uri

  // ---------- GET ----------

  /** The state text in a cache after a run is that of the last notification. */
  lemma TextAfterRun(uri: string, steps: seq<Step>, name: string)
    requires uri != "" && Legal(Start(uri), steps) && OwnsId(Notifications(steps), name)
    ensures Search(Exec(Start(uri), steps).apps.plat.cache, name) == LastState(Notifications(steps), name)
  {
    CacheAfterRun(Start(uri), steps);
    SearchFindsLast(Notifications(steps), name);
  }

  /** The notice a state reading sends; "system" is never asked. */
  function Asked(name: string): seq<Notice> {
    if name == "system" then [] else [StateRequest(name)]
  }

  lemma ReadAsks(s: Store, k: nat)
    requires k < |s.live|
    ensures ReadState(s, k).plat.outbox == s.plat.outbox + Asked(s.live[k].name)
  {
  }

  lemma GetOutcome(s: Store, name: string, v: Version)
    requires UniqueNames(s.live) && Agreement(s) && name != ""
    ensures var t := Search(s.plat.cache, name);
            var (s', r) := HandleGet(s, name, v);
            && r == Reply(200, Some(Report(name, Shown(t, name, v), Up(t, name), FileTable(s.files, name))))
            && s'.plat.outbox == s.plat.outbox + Asked(name)
            && (IsLive(s'.live, name) <==> Up(t, name))
  {
    ShownIsDisplayed(s.plat.cache, name, v);
    GetReport(s, name, v);
    var (s1, k) := FindOrNew(s, name);
    KeptFindOrNew(s, name);
    ReadAsks(s1, k);
    QuietRead(s1, k);
    var s2 := ReadState(s1, k);
    if s2.live[k].state == STOPPED {
      KeptQuietDispose(s1, s2, k);
    } else {
      KeptSame(s1, s2, name);
    }
  }

  /** GET of an application: 200 and the report, whoever is live; the instance lives on
      exactly if the application is up. */
  lemma GetRequest(d: Rest, req: Request, base: string, name: string)
    requires RestInv(d) && Screened(d, req) == Admitted([base, name]) && req.verb == GET && name != ""
    ensures var t := Search(d.apps.plat.cache, name);
            var (d', r) := AppsCallback(d, req);
            && r == Reply(200, Some(Report(name, Shown(t, name, req.version), Up(t, name),
                                           FileTable(d.apps.files, name))))
            && d' == d.(apps := d'.apps) && Kept(d.apps, d'.apps, name)
            && d'.apps.plat.outbox == d.apps.plat.outbox + Asked(name)
            && (IsLive(d'.apps.live, name) <==> Up(t, name)) && LeftAs(d'.apps.live, name, StateOf(t, name))
  {
    GetOutcome(d.apps, name, req.version);
    KeptGet(d.apps, name, req.version);
    GetLeaves(d.apps, name, req.version);
  }

  // ---------- the state an instance is left in ----------

  /** The state a text stands for. */
  function StateOf(text: string, name: string): AppState {
    Shown(text, name, Version(2, 1, 0))
  }

  /** Every instance of this name has been read as its text says. */
  ghost predicate LeftAs(live: seq<App>, name: string, st: AppState) {
    forall a | a in live && a.name == name :: a.state == st
  }

  lemma LeftAsAt(live: seq<App>, k: nat)
    requires k < |live| && UniqueNames(live)
    ensures LeftAs(live, live[k].name, live[k].state)
  {
    forall a | a in live && a.name == live[k].name ensures a.state == live[k].state {
      var i :| 0 <= i < |live| && live[i] == a;
      assert i == k;
    }
  }

  lemma ReadLeaves(s: Store, k: nat)
    requires k < |s.live| && UniqueNames(s.live)
    ensures var s' := ReadState(s, k);
            LeftAs(s'.live, s.live[k].name, StateOf(Search(s.plat.cache, s.live[k].name), s.live[k].name))
            && UniqueNames(s'.live) && s'.live[k].name == s.live[k].name && s'.plat.cache == s.plat.cache
  {
    QuietRead(s, k);
    SameNamesLive(s.live, ReadState(s, k).live, "");
    ShownIsDisplayed(s.plat.cache, s.live[k].name, Version(2, 1, 0));
    LeftAsAt(ReadState(s, k).live, k);
  }

  /** A GET, a hide, and a POST that starts the application leave its instance in the state
      last cached; so does a DELETE that does not end it. */
  lemma HandlersLeave(s: Store, k: nat)
    requires k < |s.live| && UniqueNames(s.live) && s.live[k].name != "system"
    ensures var st := StateOf(Search(s.plat.cache, s.live[k].name), s.live[k].name);
            LeftAs(HandleHide(s, k).0.live, s.live[k].name, st)
            && LeftAs(HandleDelete(s, k).0.live, s.live[k].name, st)
  {
    ReadLeaves(s, k);
    var s1 := ReadState(s, k);
    HideLeaves(s1, k);
    KeptDelete(s, k);
    if HandleDelete(s, k).1.status == 200 {
      IsLiveIff(HandleDelete(s, k).0.live, s.live[k].name);
    }
  }

  lemma HideLeaves(s: Store, k: nat)
    requires k < |s.live| && UniqueNames(s.live)
    requires LeftAs(s.live, s.live[k].name, StateOf(Search(s.plat.cache, s.live[k].name), s.live[k].name))
    ensures LeftAs(HideAfterRead(s, k).0.live, s.live[k].name,
                   StateOf(Search(s.plat.cache, s.live[k].name), s.live[k].name))
  {
    var (p, err) := OsHide(s.plat, s.live[k].name);
    if s.live[k].state == RUNNING && err == NO_ERROR {
      ReadLeaves(s.(plat := p), k);
      ReadLeaves(ReadState(s.(plat := p), k), k);
    }
  }

  lemma GetLeaves(s: Store, name: string, v: Version)
    requires UniqueNames(s.live)
    ensures LeftAs(HandleGet(s, name, v).0.live, name, StateOf(Search(s.plat.cache, name), name))
  {
    var (s1, k) := FindOrNew(s, name);
    KeptFindOrNew(s, name);
    ReadLeaves(s1, k);
    var s2 := ReadState(s1, k);
    if s2.live[k].state == STOPPED {
      KeptDispose(s2, k);
      IsLiveIff(DisposeApp(s2, k).live, name);
    }
  }

  lemma StartLeaves(s: Store, k: nat, existed: bool, e: Entry, req: Request)
    requires k < |s.live| && s.live[k].name == e.name && StartFor(s, k, e, req).1 == NO_ERROR
    ensures var s' := StartOrDrop(s, k, existed, e, req).0;
            k < |s'.live| && s'.live[k].name == e.name
            && s'.live[k].state == StateOf(Search(s.plat.cache, e.name), e.name)
  {
    ShownIsDisplayed(s.plat.cache, e.name, Version(2, 1, 0));
  }

  lemma PostLeaves(s: Store, e: Entry, req: Request)
    requires UniqueNames(s.live) && AcceptablePost(req)
    ensures LeftAs(HandlePost(s, e, req).0.live, e.name, StateOf(Search(s.plat.cache, e.name), e.name))
  {
    var (s1, k) := FindOrNew(s, e.name);
    KeptFindOrNew(s, e.name);
    KeptPost(s, e, req);
    PostOutcome(s, e, req);
    var s' := HandlePost(s, e, req).0;
    assert HandlePost(s, e, req) == StartOrDrop(s1, k, IsLive(s.live, e.name), e, req);
    StartForFailsIff(s1, k, e, req);
    if StartFor(s1, k, e, req).1 == NO_ERROR {
      StartLeaves(s1, k, IsLive(s.live, e.name), e, req);
      LeftAsAt(s'.live, k);
    } else {
      IsLiveIff(s'.live, e.name);
    }
  }

  // ---------- DELETE ----------

  lemma DeleteInstance(s: Store, k: nat)
    requires k < |s.live| && UniqueNames(s.live)
    ensures var name := s.live[k].name;
            var t := Search(s.plat.cache, name);
            var (s', r) := HandleDelete(s, k);
            && r == Reply(if name == "system" then 403 else if Up(t, name) then 200 else 404, None)
            && (IsLive(s'.live, name) <==> r.status != 200)
            && s'.plat.outbox
               == s.plat.outbox
                  + (if name == "system" then []
                     else if Up(t, name)
                     then [StateRequest(name), Platform.Stop(name), StateRequest(name), StateRequest(name)]
                     else [StateRequest(name)])
  {
    ShownIsDisplayed(s.plat.cache, s.live[k].name, Version(0, 0, 0));
    DeleteOutcome(s, k);
  }

  /** DELETE of an application's instance: 404 if it is not live, 403 for "system";
      otherwise an application that is up is told to stop and its instance is gone, and
      one that is not is 404 and only asked. */
  lemma DeleteRequest(d: Rest, req: Request, base: string, name: string, instance: string)
    requires RestInv(d) && Screened(d, req) == Admitted([base, name, instance]) && req.verb == DELETE
    requires instance != "dial_data" && NamesInstance(instance)
    ensures var t := Search(d.apps.plat.cache, name);
            var (d', r) := AppsCallback(d, req);
            if !IsLive(d.apps.live, name) then d' == d && r == Reply(404, None)
            else
              && r == Reply(if name == "system" then 403 else if Up(t, name) then 200 else 404, None)
              && d' == d.(apps := d'.apps) && Kept(d.apps, d'.apps, name)
              && (IsLive(d'.apps.live, name) <==> r.status != 200)
              && (name != "system" ==> LeftAs(d'.apps.live, name, StateOf(t, name)))
              && d'.apps.plat.outbox
                 == d.apps.plat.outbox
                    + (if name == "system" then []
                       else if Up(t, name)
                       then [StateRequest(name), Platform.Stop(name), StateRequest(name), StateRequest(name)]
                       else [StateRequest(name)])
  {
    var k := FindApp(d.apps.live, name);
    if k < |d.apps.live| {
      DeleteInstance(d.apps, k);
      KeptDelete(d.apps, k);
      if name != "system" {
        HandlersLeave(d.apps, k);
      }
    }
  }

  // ---------- hide ----------

  lemma HideInstance(s: Store, k: nat)
    requires k < |s.live|
    ensures var name := s.live[k].name;
            var t := Search(s.plat.cache, name);
            var (s', r) := HandleHide(s, k);
            && r == Reply(if Up(t, name) then 200 else 404, None)
            && s'.plat.outbox
               == s.plat.outbox
                  + (if name == "system" then []
                     else if t == "running"
                     then [StateRequest(name), Platform.Hide(name), StateRequest(name), StateRequest(name)]
                     else [StateRequest(name)])
            && (forall n :: IsLive(s'.live, n) <==> IsLive(s.live, n))
  {
    var name := s.live[k].name;
    ShownIsDisplayed(s.plat.cache, name, Version(0, 0, 0));
    UndisturbedHide(s, k);
    StateTexts(s.plat.cache, name);
    var s1 := ReadState(s, k);
    QuietRead(s, k);
    ReadAsks(s, k);
    if s1.live[k].state == RUNNING {
      HiddenNotices(s1, k);
      QuietHide(s1, k);
      QuietRead(HideApp(s1, k).0, k);
    }
    assert Quiet(s, HandleHide(s, k).0);
    KeptSame(s, HandleHide(s, k).0, name);
  }

  lemma HiddenNotices(s: Store, k: nat)
    requires k < |s.live| && s.live[k].name != "system" && Search(s.plat.cache, s.live[k].name) == "running"
    ensures var name := s.live[k].name;
            HideApp(s, k).1 == NO_ERROR
            && ReadState(HideApp(s, k).0, k).plat.outbox
               == s.plat.outbox + [Platform.Hide(name), StateRequest(name), StateRequest(name)]
  {
    var name := s.live[k].name;
    assert HideApp(s, k).0.plat.outbox == s.plat.outbox + [Platform.Hide(name)] + [StateRequest(name)];
    ReadAsks(HideApp(s, k).0, k);
  }

  /** POST to an instance's hide: 404 if it is not live or not up, otherwise 200; the
      application is told to hide exactly if it is running, and everyone stays live. */
  lemma HideRequest(d: Rest, req: Request, base: string, name: string, instance: string)
    requires RestInv(d) && Screened(d, req) == Admitted([base, name, instance, "hide"]) && req.verb == POST
    requires NamesInstance(instance)
    ensures var t := Search(d.apps.plat.cache, name);
            var (d', r) := AppsCallback(d, req);
            if !IsLive(d.apps.live, name) then d' == d && r == Reply(404, None)
            else
              && r == Reply(if Up(t, name) then 200 else 404, None)
              && d' == d.(apps := d'.apps) && Kept(d.apps, d'.apps, name)
              && (forall n :: IsLive(d'.apps.live, n) <==> IsLive(d.apps.live, n))
              && (name != "system" ==> LeftAs(d'.apps.live, name, StateOf(t, name)))
              && d'.apps.plat.outbox
                 == d.apps.plat.outbox
                    + (if name == "system" then []
                       else if t == "running"
                       then [StateRequest(name), Platform.Hide(name), StateRequest(name), StateRequest(name)]
                       else [StateRequest(name)])
  {
    var k := FindApp(d.apps.live, name);
    if k < |d.apps.live| {
      HideInstance(d.apps, k);
      KeptHide(d.apps, k);
      if name != "system" {
        HandlersLeave(d.apps, k);
      }
    }
  }

  // ---------- the other requests ----------

  /** What names an application's instance: "run", nothing, or blanks, a sign and a
      decimal number. */
  lemma NamesInstanceIff(s: string)
    ensures NamesInstance(s)
            <==> || s == "run" || s == ""
                 || exists blanks: string, sign: string, digits: string ::
                      && s == blanks + sign + digits
                      && (forall i | 0 <= i < |blanks| :: blanks[i] in " \t\n\U{0B}\U{0C}\r")
                      && sign in ["", "+", "-"]
                      && digits != "" && forall i | 0 <= i < |digits| :: '0' <= digits[i] <= '9'
  {
    if NamesInstance(s) && s != "run" && s != "" {
      NumericParts(s);
    }
    if blanks: string, sign: string, digits: string :|
      && s == blanks + sign + digits
      && (forall i | 0 <= i < |blanks| :: blanks[i] in " \t\n\U{0B}\U{0C}\r")
      && sign in ["", "+", "-"]
      && digits != "" && forall i | 0 <= i < |digits| :: '0' <= digits[i] <= '9' {
      PartsNumeric(blanks, sign, digits);
    }
  }

  lemma {:induction false} SpacesAreSpaces(s: string)
    ensures forall i | 0 <= i < DialData.SpaceLen(s) :: s[i] in " \t\n\U{0B}\U{0C}\r"
    decreases |s|
  {
    if s != "" && DialData.IsSpace(s[0]) {
      SpacesAreSpaces(s[1..]);
      forall i | 0 <= i < DialData.SpaceLen(s) ensures s[i] in " \t\n\U{0B}\U{0C}\r" {
        assert i > 0 ==> s[i] == s[1..][i - 1];
      }
    }
  }

  lemma NumericParts(s: string)
    requires Numeric(s) && s != ""
    ensures exists blanks: string, sign: string, digits: string ::
              && s == blanks + sign + digits
              && (forall i | 0 <= i < |blanks| :: blanks[i] in " \t\n\U{0B}\U{0C}\r")
              && sign in ["", "+", "-"]
              && digits != "" && forall i | 0 <= i < |digits| :: '0' <= digits[i] <= '9'
  {
    SpacesAreSpaces(s);
    var n := DialData.SpaceLen(s);
    var rest := s[n..];
    if Digits(rest) {
      assert s == s[..n] + "" + rest;
    } else {
      var sign := [rest[0]];
      assert sign == "+" || sign == "-";
      assert s == s[..n] + sign + rest[1..];
    }
  }

  lemma PartsNumeric(blanks: string, sign: string, digits: string)
    requires forall i | 0 <= i < |blanks| :: blanks[i] in " \t\n\U{0B}\U{0C}\r"
    requires sign in ["", "+", "-"] && Digits(digits)
    ensures Numeric(blanks + sign + digits)
  {
    var rest := sign + digits;
    assert !DialData.IsSpace(rest[0]);
    assert forall i | 0 <= i < |blanks| :: DialData.IsSpace(blanks[i]);
    DialData.SpaceLenBlank(blanks, rest);
    assert blanks + sign + digits == blanks + rest;
    if sign == "" {
      assert rest == digits;
    } else {
      assert rest[1..] == digits;
    }
  }

  /** Which admitted requests can do work. */
  predicate Works(verb: Verb, p: seq<string>) {
    || (|p| == 2 && verb in {GET, POST})
    || (|p| == 3 && p[2] != "dial_data" && verb == DELETE)
    || (|p| == 4 && p[3] == "hide" && verb == POST)
  }

  /** The rest changes nothing and gets its status: 204 for OPTIONS wherever it is known,
      404 where another verb is served, 501 elsewhere; dial data is refused to strangers
      and ignored when it comes from the device itself. */
  lemma OtherRequests(d: Rest, req: Request)
    requires d.uri != "" && Screened(d, req).Admitted? && !Works(req.verb, Screened(d, req).pieces)
    ensures var p := Screened(d, req).pieces;
            var (d', r) := AppsCallback(d, req);
            && d' == d && r.report == None
            && (|p| == 2 ==> r.status == if req.verb == OPTIONS then 204 else 501)
            && (|p| == 3 && p[2] == "dial_data" ==>
                  r.status == if !req.loopback then 500 else if req.verb == OPTIONS then 204
                              else if req.verb == POST then 0 else 501)
            && (|p| == 3 && p[2] != "dial_data" ==>
                  r.status == if req.verb == OPTIONS then 204 else if req.verb == POST then 404 else 501)
            && (|p| > 3 && p[3] == "hide" ==>
                  r.status == if req.verb == OPTIONS then 204 else if req.verb == DELETE then 404 else 501)
            && (|p| > 3 && p[3] != "hide" ==> r.status == 501)
  {
  }

  /** So does a DELETE or a hide whose instance is no instance. */
  lemma NoSuchInstance(d: Rest, req: Request)
    requires d.uri != "" && Screened(d, req).Admitted?
    requires var p := Screened(d, req).pieces;
             |p| > 2 && Works(req.verb, p) && (!NamesInstance(p[2]) || !IsLive(d.apps.live, p[1]))
    ensures AppsCallback(d, req) == (d, Reply(404, None))
  {
    assert |Screened(d, req).pieces| <= 4 by {
      ScreenedPieces(d, req);
    }
  }

  lemma ScreenedPieces(d: Rest, req: Request)
    requires d.uri != "" && Screened(d, req).Admitted?
    ensures req.path != "" && Screened(d, req).pieces == Uri.Split(req.path[1..], 4)
    ensures 2 <= |Screened(d, req).pieces| <= 4
  {
  }

  // ---------- the screening ----------

  /** The entry that answers for a name. */
  ghost predicate Answers(reg: seq<Entry>, k: nat, name: string) {
    k < |reg| && Matches(reg[k], name) && forall i | 0 <= i < k :: !Matches(reg[i], name)
  }

  /** One of the entry's origins ends the header, or it has none. */
  ghost predicate AdmitsOrigin(e: Entry, origin: Option<string>) {
    e.origins == [] || (origin.Some? && exists i, x | 0 <= i < |e.origins| :: origin.value == x + e.origins[i])
  }

  lemma AdmitsOriginIff(e: Entry, origin: Option<string>)
    ensures AllowsOrigin(e, origin) <==> AdmitsOrigin(e, origin)
  {
    if origin.Some? {
      var h := origin.value;
      forall i | 0 <= i < |e.origins| ensures EndsWith(h, e.origins[i]) <==> exists x :: h == x + e.origins[i] {
        if EndsWith(h, e.origins[i]) {
          assert h == h[..|h| - |e.origins[i]|] + e.origins[i];
        }
      }
      if i :| 0 <= i < |e.origins| && EndsWith(h, e.origins[i]) {
        assert h == h[..|h| - |e.origins[i]|] + e.origins[i];
      }
    }
  }

  /** When the origin lets a request through, exactly: a YouTube application wants a
      package, or an https origin its entry admits; any other application is content
      without an Origin or with any scheme but those two, which its entry must admit. */
  lemma OriginRule(reg: seq<Entry>, k: nat, req: Request, name: string)
    requires Answers(reg, k, name)
    ensures var none := req.origin == None || req.origin == Some("");
            var scheme := if none then None else req.originScheme;
            OriginAllowed(reg, req.origin, Scheme(req), name)
            <==> if |name| >= 7 && name[..7] == "YouTube"
                 then scheme == Some("package") || (scheme == Some("https") && AdmitsOrigin(reg[k], req.origin))
                 else (scheme == Some("package") || scheme == Some("https")) ==> AdmitsOrigin(reg[k], req.origin)
  {
    assert FindEntry(reg, name) == k;
    AdmitsOriginIff(reg[k], req.origin);
    assert |"https"| != |"package"|;
    assert StartsWith(name, "YouTube") <==> |name| >= 7 && name[..7] == "YouTube";
  }

  /** A refused request changes nothing and gets just the status. */
  lemma RefusedChangesNothing(d: Rest, req: Request)
    requires d.uri != "" && Screened(d, req).Refused?
    ensures AppsCallback(d, req) == (d, Reply(Screened(d, req).status, None))
  {
  }

  /** What is checked before a path is split, in order, with the status of each refusal. */
  lemma EarlyRefusals(d: Rest, req: Request)
    requires d.uri != ""
    ensures !req.ipv4 ==> Screened(d, req) == Refused(501)
    ensures req.ipv4 && |req.path| >= 1024 ==> Screened(d, req) == Refused(500)
    ensures req.ipv4 && |req.path| <= 8 ==> Screened(d, req) == Refused(501)
    ensures req.ipv4 && 8 < |req.path| < 1024 && (|d.uri| < 7 || req.path[..7] != d.uri[..7])
            ==> Screened(d, req) == Refused(501)
    ensures req.ipv4 && 8 < |req.path| < 1024 && |d.uri| >= 7 && req.path[..7] == d.uri[..7] && req.host == None
            ==> Screened(d, req) == Refused(403)
  {
  }

  /** A path whose pieces cannot be served. */
  predicate BadPieces(p: seq<string>, uri: string)
    requires uri != ""
  {
    |p| < 2 || p[0] != uri[1..] || exists i | 0 <= i < |p| :: p[i] == "" || |p[i]| > 63
  }

  lemma BadPiecesIff(path: string, uri: string)
    requires path != "" && uri != ""
    ensures var p := Uri.Split(path[1..], 4);
            Pieces(path, uri) == if BadPieces(p, uri) then None else Some(p)
  {
    var p := Uri.Split(path[1..], 4);
    if i :| 0 <= i < |p| && !Uri.Fits(p[i]) {
      assert p[i] == "" || |p[i]| > 63;
    }
    if i :| 0 <= i < |p| && (p[i] == "" || |p[i]| > 63) {
      assert !Uri.Fits(p[i]);
    }
  }

  /** What is checked after that: the pieces, the name, the origin. */
  lemma LateRefusals(d: Rest, req: Request)
    requires d.uri != "" && req.ipv4 && 8 < |req.path| < 1024 && req.host.Some?
    requires |d.uri| >= 7 && req.path[..7] == d.uri[..7]
    ensures var p := Uri.Split(req.path[1..], 4);
            Screened(d, req)
            == if BadPieces(p, d.uri) then Refused(501)
               else if forall k: nat :: !Answers(d.registry, k, p[1]) then Refused(404)
               else if !OriginAllowed(d.registry, req.origin, Scheme(req), p[1]) then Refused(403)
               else Admitted(p)
  {
    var p := Uri.Split(req.path[1..], 4);
    BadPiecesIff(req.path, d.uri);
    if |p| > 1 {
      IsRegisteredIff(d.registry, p[1]);
    }
  }

  lemma IsRegisteredIff(reg: seq<Entry>, name: string)
    ensures IsRegistered(reg, name) <==> exists k: nat :: Answers(reg, k, name)
  {
    if IsRegistered(reg, name) {
      assert Answers(reg, FindEntry(reg, name), name);
    }
  }

  // ---------- POST ----------

  /** g_ascii_isgraph or g_ascii_isspace of every character. */
  predicate PrintableText(s: string) {
    forall i | 0 <= i < |s| :: '!' <= s[i] <= '~' || s[i] in " \t\n\U{0C}\r"
  }

  lemma PrintableTextIff(s: string)
    ensures Printable(s) <==> PrintableText(s)
  {
    forall i | 0 <= i < |s| ensures DialData.Printable(s[i]) <==> '!' <= s[i] <= '~' || s[i] in " \t\n\U{0C}\r" {
    }
  }

  predicate NoText(s: Option<string>) {
    s == None || s == Some("")
  }

  /** What the observer is told to launch: the body as it is for YouTube and encoded for
      the others, nothing for an empty body or query, and the application's own data URL
      if it uses one. */
  function LaunchedAs(e: Entry, req: Request): Notice {
    Launch(e.name,
           if NoText(req.body) then None
           else if |e.name| >= 7 && e.name[..7] == "YouTube" then Some(Raw(req.body.value))
           else Some(UriEncoded(req.body.value)),
           if NoText(req.query) then None else req.query,
           if e.useAdditionalData then Some(DataUrl(req.port, e.uri)) else None)
  }

  lemma LaunchedAsNotice(e: Entry, req: Request)
    ensures LaunchNotice(e, req) == LaunchedAs(e, req)
  {
    assert StartsWith(e.name, "YouTube") <==> |e.name| >= 7 && e.name[..7] == "YouTube";
  }

  /** "system" asked to sleep or toggle power; `key` is what the query gives as its key. */
  ghost predicate Power(e: Entry, req: Request) {
    e.name == "system" && !NoText(req.query)
    && var q := Query.ParseQuery(req.query);
       "action" in q && (q["action"] == "sleep" || q["action"] == "togglepower")
  }

  ghost predicate WrongKey(req: Request) {
    req.sleepKey.Some?
    && var q := Query.ParseQuery(req.query);
       req.sleepKey.value != if "key" in q then q["key"] else ""
  }

  lemma PowerIff(e: Entry, req: Request)
    ensures PowerRequest(e, req) <==> Power(e, req)
    ensures Power(e, req) ==> (WrongSleepKey(req) <==> WrongKey(req))
    ensures e.name == "system" && WrongSleepKey(req) ==> Power(e, req)
  {
    assert |"sleep"| > 0 && |"togglepower"| > 0;
  }

  /** The outbox a start leaves. */
  lemma StartNotices(s: Store, k: nat, e: Entry, req: Request)
    requires k < |s.live| && s.live[k].name == e.name
    ensures var (s', err) := StartFor(s, k, e, req);
            && err == (if Power(e, req) && WrongKey(req) then INTERNAL else NO_ERROR)
            && (err != NO_ERROR ==> s'.live[k].state == STOPPED)
            && s'.plat.outbox == s.plat.outbox + (if Power(e, req) then [] else [LaunchedAs(e, req)] + Asked(e.name))
            && s'.timers == s.timers + (if err != NO_ERROR || e.name == "" then [] else [e.name])
  {
    StartForFailsIff(s, k, e, req);
    PowerIff(e, req);
    LaunchedAsNotice(e, req);
    var n := LaunchNotice(e, req);
    var (p, err) := OsStart(s.plat, req.sleepKey, e.name, n.payload, n.query, n.dataUrl);
    var s1 := Scheduled(s.(plat := p), e.name);
    ReadAsks(s1, k);
    assert s.plat.outbox + [n] + Asked(e.name) == s.plat.outbox + ([n] + Asked(e.name));
    assert s.plat.outbox + [] == s.plat.outbox;
  }

  /** The instance that was started keeps the body as its payload. */
  lemma PostPayload(s: Store, e: Entry, req: Request)
    requires UniqueNames(s.live) && AcceptablePost(req) && req.body.Some?
    ensures forall a | a in HandlePost(s, e, req).0.live && a.name == e.name :: a.payload == req.body
  {
    var (s1, k) := FindOrNew(s, e.name);
    var s' := HandlePost(s, e, req).0;
    KeptPost(s, e, req);
    assert HandlePost(s, e, req) == StartOrDrop(s1, k, IsLive(s.live, e.name), e, req);
    if StartFor(s1, k, e, req).1 == NO_ERROR {
      assert s'.live[k].name == e.name && s'.live[k].payload == req.body;
    } else {
      PostOutcome(s, e, req);
      StartForFailsIff(s1, k, e, req);
      IsLiveIff(s'.live, e.name);
    }
  }

  lemma StartOrDropNotices(s: Store, k: nat, existed: bool, e: Entry, req: Request)
    requires k < |s.live|
    ensures StartOrDrop(s, k, existed, e, req).0.plat == StartFor(s, k, e, req).0.plat
    ensures StartOrDrop(s, k, existed, e, req).0.timers == StartFor(s, k, e, req).0.timers
    ensures StartOrDrop(s, k, existed, e, req).1.report == None
  {
  }

  lemma PostNoticed(s: Store, e: Entry, req: Request)
    requires AcceptablePost(req)
    ensures var (s', r) := HandlePost(s, e, req);
            && r.report == None
            && s'.plat.outbox == s.plat.outbox + (if Power(e, req) then [] else [LaunchedAs(e, req)] + Asked(e.name))
            && s'.timers == s.timers + (if (Power(e, req) && WrongKey(req)) || e.name == "" then [] else [e.name])
  {
    var (s1, k) := FindOrNew(s, e.name);
    StartNotices(s1, k, e, req);
    StartOrDropNotices(s1, k, IsLive(s.live, e.name), e, req);
    assert HandlePost(s, e, req) == StartOrDrop(s1, k, IsLive(s.live, e.name), e, req);
  }

  lemma PostRefusals(s: Store, e: Entry, req: Request)
    ensures AcceptablePost(req)
            <==> (NoText(req.body) || (|req.body.value| <= 4096 && PrintableText(req.body.value))) && req.port != 0
    ensures !AcceptablePost(req) ==>
              HandlePost(s, e, req) == (s, Reply(if !NoText(req.body) && |req.body.value| > 4096 then 413
                                                 else if !NoText(req.body) && !PrintableText(req.body.value) then 400
                                                 else 500, None))
  {
    if req.body.Some? {
      PrintableTextIff(req.body.value);
    }
  }

  /** POST of an application, for the entry that answers for its name: 413 for a body
      over 4096 bytes, 400 for one that is not printable, 500 without a port, and then
      nothing changes.  Otherwise the launch is queued, unless it is a power request,
      the application is live and its state is asked for now and once more later; 201 for
      a new or hidden one, 200 for another.  Only a power request with a wrong key fails,
      with 503, and leaves no instance. */
  lemma PostRequest(d: Rest, k: nat, req: Request, base: string, name: string)
    requires RestInv(d) && Screened(d, req) == Admitted([base, name]) && req.verb == POST
    requires Answers(d.registry, k, name)
    ensures var e := d.registry[k];
            var (d', r) := AppsCallback(d, req);
            var at := FindApp(d.apps.live, e.name);
            if !NoText(req.body) && |req.body.value| > 4096 then (d', r) == (d, Reply(413, None))
            else if !NoText(req.body) && !PrintableText(req.body.value) then (d', r) == (d, Reply(400, None))
            else if req.port == 0 then (d', r) == (d, Reply(500, None))
            else
              && d' == d.(apps := d'.apps) && Kept(d.apps, d'.apps, e.name) && r.report == None
              && d'.apps.plat.outbox
                 == d.apps.plat.outbox + (if Power(e, req) then [] else [LaunchedAs(e, req)] + Asked(e.name))
              && (if Power(e, req) && WrongKey(req) then
                    r.status == 503 && !IsLive(d'.apps.live, e.name) && d'.apps.timers == d.apps.timers
                  else
                    && IsLive(d'.apps.live, e.name)
                    && d'.apps.timers == d.apps.timers + (if e.name == "" then [] else [e.name])
                    && r.status == if e.name != "system" && (at == |d.apps.live| || d.apps.live[at].state == HIDE)
                                   then 201 else 200)
              && (req.body.Some? ==> forall a | a in d'.apps.live && a.name == e.name :: a.payload == req.body)
              && LeftAs(d'.apps.live, e.name, StateOf(Search(d.apps.plat.cache, e.name), e.name))
  {
    var e := d.registry[k];
    assert FindEntry(d.registry, name) == k;
    PostRefusals(d.apps, e, req);
    if AcceptablePost(req) {
      PostNoticed(d.apps, e, req);
      PostOutcome(d.apps, e, req);
      PowerIff(e, req);
      KeptPost(d.apps, e, req);
      PostLeaves(d.apps, e, req);
      if req.body.Some? {
        PostPayload(d.apps, e, req);
      }
    }
  }

  // ---------- timers and clean-up ----------

  /** A scheduled state request asks the observer once. */
  lemma TimerOutcome(s: Store, k: nat)
    requires k < |s.timers|
    ensures var s' := TimerFired(s, k);
            && s'.plat.outbox == s.plat.outbox + Asked(s.timers[k])
            && s'.timers == s.timers[..k] + s.timers[k + 1..]
            && s'.live == s.live && s'.files == s.files && s'.plat.cache == s.plat.cache
  {
  }

  lemma TimerStep(d: Rest, k: nat)
    requires d.uri != ""
    ensures var d' := Next(d, Timer(k)).0;
            if k < |d.apps.timers| then
              d' == d.(apps := d'.apps) && d'.apps.live == d.apps.live && d'.apps.files == d.apps.files
              && d'.apps.plat.cache == d.apps.plat.cache
              && d'.apps.plat.outbox == d.apps.plat.outbox + Asked(d.apps.timers[k])
              && d'.apps.timers == d.apps.timers[..k] + d.apps.timers[k + 1..]
            else d' == d
  {
    if k < |d.apps.timers| {
      TimerOutcome(d.apps, k);
    }
  }

  /** Unregistering a name takes out the entry that answers for it, with its handler, and
      nothing else; its instance, if any, lives on. */
  lemma UnregisterStep(d: Rest, name: string)
    requires d.uri != ""
    ensures var d' := Next(d, Unregister(name)).0;
            && d'.uri == d.uri && d'.apps == d.apps
            && (forall k: nat | Answers(d.registry, k, name) ::
                  && d'.registry == d.registry[..k] + d.registry[k + 1..]
                  && d'.handlers == d.handlers - {d.registry[k].uri})
            && ((forall i | 0 <= i < |d.registry| :: !Matches(d.registry[i], name)) ==> d' == d)
  {
    forall k: nat | Answers(d.registry, k, name) ensures FindEntry(d.registry, name) == k {
    }
  }

  /** What the clean-up tells the observer for the registered names, of which `live` are live. */
  function Farewell(live: set<string>, reg: seq<Entry>): seq<Notice> {
    if reg == [] then []
    else
      var n := reg[0].name;
      (if n in live && n != "system" then [Platform.Stop(n), StateRequest(n), StateRequest(n)] else [])
      + Farewell(live, reg[1..])
  }

  lemma StopOneNotices(s: Store, name: string)
    ensures StopOne(s, name).plat.outbox
            == s.plat.outbox
               + (if IsLive(s.live, name) && name != "system"
                  then [Platform.Stop(name), StateRequest(name), StateRequest(name)] else [])
  {
    var k := FindApp(s.live, name);
    if k < |s.live| {
      var (s1, err) := StopApp(s, k);
      if name != "system" {
        assert s1.plat.outbox == s.plat.outbox + [Platform.Stop(name)] + [StateRequest(name)];
        ReadAsks(s1, k);
      }
    }
  }

  lemma StillLive(s: Store, reg: seq<Entry>, live: set<string>)
    requires OrderedRegistry(reg) && reg != []
    requires forall i | 0 <= i < |reg| :: reg[i].name in live <==> IsLive(s.live, reg[i].name)
    ensures var s1, rest := StopOne(s, reg[0].name), reg[1..];
            OrderedRegistry(rest)
            && forall i | 0 <= i < |rest| :: rest[i].name in live <==> IsLive(s1.live, rest[i].name)
  {
    KeptStopOne(s, reg[0].name);
    forall i | 0 <= i < |reg[1..]|
      ensures reg[1..][i].name in live <==> IsLive(StopOne(s, reg[0].name).live, reg[1..][i].name)
    {
      assert reg[1..][i] == reg[i + 1] && !Matches(reg[i + 1], reg[0].name);
    }
  }

  /** Cleaning up tells every live registered application but "system" to stop, in
      registry order, and asks for its state twice. */
  lemma {:induction false} CleanUpNotices(s: Store, reg: seq<Entry>, live: set<string>)
    requires OrderedRegistry(reg)
    requires forall i | 0 <= i < |reg| :: reg[i].name in live <==> IsLive(s.live, reg[i].name)
    ensures StopEach(s, reg).plat.outbox == s.plat.outbox + Farewell(live, reg)
    decreases |reg|
  {
    if reg == [] {
      assert s.plat.outbox + [] == s.plat.outbox;
    } else {
      var n := reg[0].name;
      StopOneNotices(s, n);
      StillLive(s, reg, live);
      CleanUpNotices(StopOne(s, n), reg[1..], live);
      Regroup(s.plat.outbox,
              if n in live && n != "system" then [Platform.Stop(n), StateRequest(n), StateRequest(n)] else [],
              Farewell(live, reg[1..]));
    }
  }

  lemma Regroup(a: seq<Notice>, b: seq<Notice>, c: seq<Notice>)
    ensures a + b + c == a + (b + c)
  {
  }

  /** Registering a configuration sends exactly the notices of the clean-up before it. */
  lemma ReregisterNotices(d: Rest, cfg: seq<ConfigEntry>, system: Option<string>, live: set<string>)
    requires RestInv(d)
    requires forall i | 0 <= i < |d.registry| :: d.registry[i].name in live <==> IsLive(d.apps.live, d.registry[i].name)
    ensures Next(d, Runs.Reregister(cfg, system)).0.apps.plat.outbox
            == d.apps.plat.outbox + Farewell(live, d.registry)
  {
    CleanUpNotices(d.apps, d.registry, live);
    RegisterListApps(UnregisterAll(d), AppListOf(cfg));
  }

  // ---------- configurations ----------

  /** What a configuration entry is registered as. */
  predicate RegisteredAs(e: Entry, c: ConfigEntry) {
    && e.name == c.name && e.uri == c.uri && e.useAdditionalData
    && e.prefixes == (if c.prefix == "" then [] else [c.prefix]) && e.origins == [c.cors]
    && e.properties == map["allowStop" := if c.allowStop then "true" else "false"]
  }

  /** The entries that are looked at: all, or the first 64. */
  function First64(cfg: seq<ConfigEntry>): seq<ConfigEntry> {
    if |cfg| <= 64 then cfg else cfg[..64]
  }

  /** Entry c answers for a name: it is its own or begins with its prefix. */
  predicate AnswersFor(c: ConfigEntry, name: string) {
    c.name == name || (c.prefix != "" && |c.prefix| <= |name| && name[..|c.prefix|] == c.prefix)
  }

  /** Entry i is kept exactly when no kept later entry answers for its name. */
  ghost predicate KeptEntries(cfg: seq<ConfigEntry>, keep: seq<bool>) {
    |keep| == |cfg|
    && forall i | 0 <= i < |cfg| ::
         keep[i] <==> forall j | i < j < |cfg| :: keep[j] ==> !AnswersFor(cfg[j], cfg[i].name)
  }

  /** The places of the kept entries, from place n on. */
  function Places(keep: seq<bool>, n: nat): seq<nat>
    requires n <= |keep|
    decreases |keep| - n
  {
    if n == |keep| then [] else (if keep[n] then [n] else []) + Places(keep, n + 1)
  }

  /** They come in order, and they are all of them. */
  lemma {:induction false} PlacesExact(keep: seq<bool>, n: nat)
    requires n <= |keep|
    ensures forall p | p in Places(keep, n) :: n <= p < |keep| && keep[p]
    ensures forall p | n <= p < |keep| && keep[p] :: p in Places(keep, n)
    ensures forall a, b | 0 <= a < b < |Places(keep, n)| :: Places(keep, n)[a] < Places(keep, n)[b]
    decreases |keep| - n
  {
    if n < |keep| {
      PlacesExact(keep, n + 1);
      var rest := Places(keep, n + 1);
      if keep[n] {
        forall a, b | 0 <= a < b < |[n] + rest| ensures ([n] + rest)[a] < ([n] + rest)[b] {
          assert ([n] + rest)[b] == rest[b - 1];
          assert rest[b - 1] in rest;
        }
      } else {
        assert [] + rest == rest;
      }
    }
  }

  lemma {:induction false} SelectPlaces(es: seq<Entry>, keep: seq<bool>, n: nat)
    requires |keep| == |es| && n <= |es|
    ensures |Select(es[n..], keep[n..])| == |Places(keep, n)|
    ensures forall k | 0 <= k < |Places(keep, n)| ::
              Places(keep, n)[k] < |es| && Select(es[n..], keep[n..])[k] == es[Places(keep, n)[k]]
    decreases |es| - n
  {
    if n < |es| {
      SelectPlaces(es, keep, n + 1);
      assert es[n..][1..] == es[n + 1..] && keep[n..][1..] == keep[n + 1..];
      assert es[n..][0] == es[n] && keep[n..][0] == keep[n];
    }
  }

  lemma AnswersForIff(c: ConfigEntry, name: string)
    ensures Matches(EntryOf(c), name) <==> AnswersFor(c, name)
  {
    if c.prefix != "" {
      assert EntryOf(c).prefixes[0] == c.prefix;
      assert StartsWith(name, c.prefix) <==> |c.prefix| <= |name| && name[..|c.prefix|] == c.prefix;
    }
  }

  lemma KeptIsSelection(cfg: seq<ConfigEntry>, keep: seq<bool>)
    ensures KeptEntries(First64(cfg), keep) <==> IsSelection(EntriesOf(Head(cfg)), keep)
  {
    var es := EntriesOf(Head(cfg));
    assert Head(cfg) == First64(cfg);
    forall i, j | 0 <= i < |es| && 0 <= j < |es|
      ensures Matches(es[j], es[i].name) <==> AnswersFor(First64(cfg)[j], First64(cfg)[i].name)
    {
      AnswersForIff(First64(cfg)[j], First64(cfg)[i].name);
    }
    if |keep| == |es| {
      forall i | 0 <= i < |es|
        ensures Unblocked(es, keep, i)
                <==> forall j | i < j < |es| :: keep[j] ==> !AnswersFor(First64(cfg)[j], First64(cfg)[i].name)
      {
      }
    }
  }

  lemma KeptFields(cfg: seq<ConfigEntry>, keep: seq<bool>)
    requires |keep| == |First64(cfg)|
    ensures var kept := Select(EntriesOf(Head(cfg)), keep);
            |kept| == |Places(keep, 0)|
            && forall k | 0 <= k < |kept| ::
                 Places(keep, 0)[k] < |First64(cfg)| && RegisteredAs(kept[k], First64(cfg)[Places(keep, 0)[k]])
  {
    var es := EntriesOf(Head(cfg));
    assert es[0..] == es && keep[0..] == keep;
    SelectPlaces(es, keep, 0);
  }

  /** The kept entries of a configuration, each with its own name, URI, prefix, cors and
      allowStop, in order. */
  predicate HoldsKept(reg: seq<Entry>, cfg: seq<ConfigEntry>, keep: seq<bool>) {
    && |reg| == |Places(keep, 0)|
    && forall k | 0 <= k < |reg| :: Places(keep, 0)[k] < |cfg| && RegisteredAs(reg[k], cfg[Places(keep, 0)[k]])
  }

  /** The registry a configuration leaves, field by field: the kept ones of its first 64
      entries, behind an enabled "system" for which no kept entry answers. */
  lemma RegistryOfConfig(d: Rest, cfg: seq<ConfigEntry>, system: Option<string>, keep: seq<bool>)
    requires RestInv(d) && KeptEntries(First64(cfg), keep)
    ensures var reg := Next(d, Runs.Reregister(cfg, system)).0.registry;
            var claimed := exists i | 0 <= i < |keep| :: keep[i] && AnswersFor(First64(cfg)[i], "system");
            if system.Some? && !claimed then
              reg != [] && reg[0] == Entry("system", system.value, [], [], map[], true)
              && HoldsKept(reg[1..], First64(cfg), keep)
            else HoldsKept(reg, First64(cfg), keep)
  {
    KeptIsSelection(cfg, keep);
    ReregistrationFromConfig(d, cfg, system, keep);
    KeptFields(cfg, keep);
    ClaimedIff(cfg, keep);
    var kept := Select(EntriesOf(Head(cfg)), keep);
    assert HoldsKept(kept, First64(cfg), keep);
    if system.Some? {
      assert ([SystemEntry(system.value)] + kept)[1..] == kept;
    }
  }

  lemma ClaimedIff(cfg: seq<ConfigEntry>, keep: seq<bool>)
    requires |keep| == |First64(cfg)|
    ensures IsRegistered(Select(EntriesOf(Head(cfg)), keep), "system")
            <==> exists i | 0 <= i < |keep| :: keep[i] && AnswersFor(First64(cfg)[i], "system")
  {
    var es := EntriesOf(Head(cfg));
    SelectMember(es, keep, "system");
    forall i | 0 <= i < |es| ensures Matches(es[i], "system") <==> AnswersFor(First64(cfg)[i], "system") {
      AnswersForIff(First64(cfg)[i], "system");
    }
  }
}
