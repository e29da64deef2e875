/** What every run of the REST server keeps. */
module RestProofs {
  import opened Common
  import opened Platform
  import opened Registry
  import opened Apps
  import opened RestSpec
  import DialData
  import opened StatusCache

  // ---------- what one handler changes ----------

  /** b is a after work on the application `name` that is no dial-data post: files
      and cache are untouched, names stay unique if they were, memory and file agree
      if they did, and no other name gained or lost an instance. */
  ghost predicate Kept(a: Store, b: Store, name: string) {
    && b.files == a.files
    && b.plat.cache == a.plat.cache
    && (UniqueNames(a.live) ==> UniqueNames(b.live))
    && (Agreement(a) ==> Agreement(b))
    && OthersSame(a.live, b.live, name)
  }

  ghost predicate OthersSame(a: seq<App>, b: seq<App>, name: string) {
    forall n | n != name :: IsLive(b, n) <==> IsLive(a, n)
  }

  lemma KeptTrans(a: Store, b: Store, c: Store, name: string)
    requires Kept(a, b, name) && Kept(b, c, name)
    ensures Kept(a, c, name)
  {
  }

  lemma KeptNew(s: Store, name: string)
    requires !IsLive(s.live, name)
    ensures Kept(s, NewApp(s, name), name)
  {
    if UniqueNames(s.live) {
      NewKeepsUniqueIff(s, name);
    }
    NewAgreesAndAdds(s, name);
  }

  lemma NewAgreesAndAdds(s: Store, name: string)
    ensures Agreement(s) ==> Agreement(NewApp(s, name))
    ensures OthersSame(s.live, NewApp(s, name).live, name)
    ensures IsLive(NewApp(s, name).live, name)
  {
    var b := NewApp(s, name);
    assert b.live[1..] == s.live;
    assert forall i | 1 <= i < |b.live| :: b.live[i] == s.live[i - 1];
  }

  lemma KeptSame(a: Store, b: Store, name: string)
    requires SameData(a, b) && a.plat.cache == b.plat.cache
    ensures Kept(a, b, name)
    ensures forall n :: IsLive(b.live, n) <==> IsLive(a.live, n)
  {
    SameDataAgrees(a, b);
    SameNamesLive(a.live, b.live, name);
    forall n ensures IsLive(b.live, n) <==> IsLive(a.live, n) {
      SameNamesLive(a.live, b.live, n);
    }
  }

  lemma KeptDispose(s: Store, k: nat)
    requires k < |s.live|
    ensures Kept(s, DisposeApp(s, k), s.live[k].name)
    ensures UniqueNames(s.live) ==> !IsLive(DisposeApp(s, k).live, s.live[k].name)
  {
    DisposeKeeps(s, k);
    forall n ensures n != s.live[k].name ==> (IsLive(DisposeApp(s, k).live, n) <==> IsLive(s.live, n)) {
      RemovedLive(s.live, k, n);
    }
    RemovedLive(s.live, k, s.live[k].name);
  }

  lemma KeptFindOrNew(s: Store, name: string)
    ensures Kept(s, FindOrNew(s, name).0, name)
    ensures IsLive(FindOrNew(s, name).0.live, name)
    ensures FindOrNew(s, name).0.plat == s.plat
  {
    if !IsLive(s.live, name) {
      KeptNew(s, name);
      NewAgreesAndAdds(s, name);
    }
  }

  /** Only states, payloads and notices changed: what reading, starting, hiding and
      stopping an application do. */
  ghost predicate Quiet(a: Store, b: Store) {
    SameData(a, b) && b.plat.cache == a.plat.cache
  }

  lemma QuietRead(s: Store, k: nat)
    requires k < |s.live|
    ensures Quiet(s, ReadState(s, k))
  {
  }

  lemma QuietStop(s: Store, k: nat)
    requires k < |s.live|
    ensures Quiet(s, StopApp(s, k).0)
  {
  }

  lemma QuietHide(s: Store, k: nat)
    requires k < |s.live|
    ensures Quiet(s, HideApp(s, k).0)
  {
  }

  lemma QuietStart(s: Store, sleepKey: Option<string>, k: nat, payload: Option<Payload>,
                   query: Option<string>, dataUrl: Option<DataUrl>)
    requires k < |s.live|
    ensures Quiet(s, StartApp(s, sleepKey, k, payload, query, dataUrl).0)
  {
  }

  /** Quiet work, then possibly dropping the instance. */
  lemma KeptQuietDispose(a: Store, b: Store, k: nat)
    requires Quiet(a, b) && k < |a.live|
    ensures Kept(a, DisposeApp(b, k), a.live[k].name)
    ensures UniqueNames(a.live) ==> !IsLive(DisposeApp(b, k).live, a.live[k].name)
  {
    KeptSame(a, b, a.live[k].name);
    KeptDispose(b, k);
    KeptTrans(a, b, DisposeApp(b, k), a.live[k].name);
  }

  // ---------- the handlers ----------

  lemma QuietStartFor(s: Store, k: nat, e: Entry, req: Request)
    requires k < |s.live|
    ensures Quiet(s, StartFor(s, k, e, req).0)
  {
    QuietStart(s, req.sleepKey, k, LaunchPayload(e.name, req.body), LaunchQuery(req.query),
               if e.useAdditionalData then Some(DataUrl(req.port, e.uri)) else None);
  }

  lemma KeptStartOrDrop(s: Store, k: nat, existed: bool, e: Entry, req: Request)
    requires k < |s.live|
    ensures Kept(s, StartOrDrop(s, k, existed, e, req).0, s.live[k].name)
  {
    QuietStartFor(s, k, e, req);
    var (s2, err) := StartFor(s, k, e, req);
    if err == NO_ERROR {
      var s' := StartOrDrop(s, k, existed, e, req).0;
      assert Quiet(s, s');
      KeptSame(s, s', s.live[k].name);
    } else {
      KeptQuietDispose(s, s2, k);
    }
  }

  lemma KeptLaunched(s: Store, e: Entry, req: Request)
    ensures Kept(s, Launched(s, e, req).0, e.name)
  {
    var (s1, k) := FindOrNew(s, e.name);
    KeptFindOrNew(s, e.name);
    KeptStartOrDrop(s1, k, IsLive(s.live, e.name), e, req);
    KeptTrans(s, s1, Launched(s, e, req).0, e.name);
  }

  lemma KeptPost(s: Store, e: Entry, req: Request)
    ensures Kept(s, HandlePost(s, e, req).0, e.name)
  {
    KeptLaunched(s, e, req);
  }

  lemma KeptGet(s: Store, name: string, v: Version)
    ensures Kept(s, HandleGet(s, name, v).0, name)
  {
    var (s1, k) := FindOrNew(s, name);
    KeptFindOrNew(s, name);
    QuietRead(s1, k);
    var s2 := ReadState(s1, k);
    var s' := HandleGet(s, name, v).0;
    if s2.live[k].state == STOPPED {
      KeptQuietDispose(s1, s2, k);
    } else {
      KeptSame(s1, s2, name);
    }
    KeptTrans(s, s1, s', name);
  }

  lemma KeptDelete(s: Store, k: nat)
    requires k < |s.live|
    ensures Kept(s, HandleDelete(s, k).0, s.live[k].name)
    ensures UniqueNames(s.live) && HandleDelete(s, k).1.status == 200
            ==> !IsLive(HandleDelete(s, k).0.live, s.live[k].name)
  {
    if s.live[k].name != "system" {
      var s1 := ReadState(s, k);
      QuietRead(s, k);
      if s1.live[k].state == STOPPED {
        KeptSame(s, s1, s.live[k].name);
      } else {
        var (s2, err) := StopApp(s1, k);
        QuietStop(s1, k);
        QuietRead(s2, k);
        assert Quiet(s, if err == NO_ERROR then ReadState(s2, k) else s2);
        KeptQuietDispose(s, if err == NO_ERROR then ReadState(s2, k) else s2, k);
      }
    }
  }

  lemma KeptHide(s: Store, k: nat)
    requires k < |s.live|
    ensures Kept(s, HandleHide(s, k).0, s.live[k].name)
  {
    var s1 := ReadState(s, k);
    QuietRead(s, k);
    var s' := HandleHide(s, k).0;
    if s1.live[k].state == RUNNING {
      QuietHide(s1, k);
      QuietRead(HideApp(s1, k).0, k);
    }
    assert Quiet(s, s');
    KeptSame(s, s', s.live[k].name);
  }

  // ---------- dial data ----------

  /** The table an accepted post stores. */
  function PostedTable(body: Option<string>, form: seq<Pair>): seq<Pair> {
    if HasBody(body) then form else []
  }

  lemma SetDataEffect(s: Store, k: nat, es: seq<Pair>)
    requires k < |s.live|
    ensures SetData(s, k, es).plat == s.plat
    ensures var name := s.live[k].name;
            SetData(s, k, es).files == if name == "" then s.files else s.files[name := DialData.Print(es)]
    ensures UniqueNames(s.live) ==> UniqueNames(SetData(s, k, es).live)
    ensures forall n :: IsLive(SetData(s, k, es).live, n) <==> IsLive(s.live, n)
  {
    var s' := SetData(s, k, es);
    assert SameNames(s.live, s'.live);
    forall n ensures IsLive(s'.live, n) <==> IsLive(s.live, n) {
      SameNamesLive(s.live, s'.live, n);
    }
    SameNamesLive(s.live, s'.live, "");
  }

  /** An accepted post: what is stored, and who is live afterwards. */
  ghost predicate Stored(s: Store, s': Store, name: string, es: seq<Pair>) {
    && s'.plat == s.plat
    && s'.files == (if name == "" then s.files else s.files[name := DialData.Print(es)])
    && (UniqueNames(s.live) ==> UniqueNames(s'.live))
    && OthersSame(s.live, s'.live, name) && IsLive(s'.live, name)
  }

  lemma DialDataEffect(s: Store, name: string, body: Option<string>, form: seq<Pair>)
    requires HandleDialData(s, name, body, form).1.status == 200
    ensures Stored(s, HandleDialData(s, name, body, form).0, name, PostedTable(body, form))
  {
    StoredByFindOrNew(s, name, PostedTable(body, form));
  }

  lemma StoredByFindOrNew(s: Store, name: string, es: seq<Pair>)
    ensures var (s1, k) := FindOrNew(s, name); Stored(s, SetData(s1, k, es), name, es)
  {
    var (s1, k) := FindOrNew(s, name);
    KeptFindOrNew(s, name);
    SetDataEffect(s1, k, es);
  }

  /** A dial-data post keeps memory and files in agreement exactly when what it
      stores can be read back. */
  lemma DialDataAgreesIff(s: Store, name: string, body: Option<string>, form: seq<Pair>)
    requires UniqueNames(s.live) && Agreement(s) && DistinctKeys(form)
    requires HandleDialData(s, name, body, form).1.status == 200
    ensures Agreement(HandleDialData(s, name, body, form).0)
            <==> name == "" || DialData.Storable(PostedTable(body, form))
  {
    KeptFindOrNew(s, name);
    var (s1, k) := FindOrNew(s, name);
    SetDataAgreesIff(s1, k, PostedTable(body, form));
  }

  // ---------- registration and clean-up ----------

  /** The URIs the local server must be serving. */
  function HandlerSet(reg: seq<Entry>): set<string> {
    set i | 0 <= i < |reg| && reg[i].name != "system" :: reg[i].uri
  }

  lemma RegisterRegistryHandlers(d: Rest, e: Entry)
    requires d.handlers == HandlerSet(d.registry)
    ensures RegisterRegistry(d, e).handlers == HandlerSet(RegisterRegistry(d, e).registry)
  {
    var d' := RegisterRegistry(d, e);
    if d' != d {
      forall u ensures u in HandlerSet(d'.registry) <==> u in d'.handlers {
        if u in HandlerSet(d'.registry) {
          var i :| 0 <= i < |d'.registry| && d'.registry[i].name != "system" && d'.registry[i].uri == u;
          assert i > 0 ==> d'.registry[i] == d.registry[i - 1];
        }
        if u in HandlerSet(d.registry) {
          var i :| 0 <= i < |d.registry| && d.registry[i].name != "system" && d.registry[i].uri == u;
          assert d'.registry[i + 1] == d.registry[i];
        }
        if e.name != "system" && u == e.uri {
          assert d'.registry[0].uri == u;
        }
      }
    }
  }

  lemma HandlerRemoved(reg: seq<Entry>, k: nat, u: string)
    requires k < |reg|
    ensures u in HandlerSet(RemoveAt(reg, k))
            <==> exists i | 0 <= i < |reg| && i != k :: reg[i].name != "system" && reg[i].uri == u
  {
    var r := RemoveAt(reg, k);
    if i :| 0 <= i < |r| && r[i].name != "system" && r[i].uri == u {
      assert r[i] == reg[if i < k then i else i + 1];
    }
    if i :| 0 <= i < |reg| && i != k && reg[i].name != "system" && reg[i].uri == u {
      assert r[if i < k then i else i - 1] == reg[i];
    }
  }

  /** Unregistering one application removes exactly its own handler if and only if
      no other registered application is served at the same URI. */
  lemma UnregisterHandlersIff(reg: seq<Entry>, k: nat)
    requires k < |reg|
    ensures HandlerSet(reg) - {reg[k].uri} == HandlerSet(RemoveAt(reg, k))
            <==> forall i | 0 <= i < |reg| && i != k :: reg[i].name != "system" ==> reg[i].uri != reg[k].uri
  {
    HandlerRemoved(reg, k, reg[k].uri);
    forall u | u != reg[k].uri ensures u in HandlerSet(reg) <==> u in HandlerSet(RemoveAt(reg, k)) {
      HandlerRemoved(reg, k, u);
    }
  }

  lemma {:induction false} RegisterListKeeps(d: Rest, es: seq<Entry>)
    requires OrderedRegistry(d.registry) && d.handlers == HandlerSet(d.registry)
    ensures var d' := RegisterList(d, es);
            && OrderedRegistry(d'.registry) && d'.handlers == HandlerSet(d'.registry)
            && d'.registry == RegisterEach(d.registry, es) && d'.apps == d.apps && d'.uri == d.uri
    decreases |es|
  {
    if es != [] {
      RegisterKeepsOrder(d.registry, es[0]);
      RegisterRegistryHandlers(d, es[0]);
      RegisterListKeeps(RegisterRegistry(d, es[0]), es[1..]);
    }
  }

  function Count(live: seq<App>, name: string): nat {
    if live == [] then 0 else (if live[0].name == name then 1 else 0) + Count(live[1..], name)
  }

  lemma {:induction false} CountRemoved(live: seq<App>, k: nat, name: string)
    requires k < |live|
    ensures Count(live, name) == Count(RemoveAt(live, k), name) + (if live[k].name == name then 1 else 0)
    decreases k
  {
    var d := RemoveAt(live, k);
    if k == 0 {
      assert d == live[1..];
    } else {
      CountRemoved(live[1..], k - 1, name);
      assert d[0] == live[0] && d[1..] == RemoveAt(live[1..], k - 1);
    }
  }

  lemma {:induction false} CountSame(a: seq<App>, b: seq<App>, name: string)
    requires SameNames(a, b)
    ensures Count(a, name) == Count(b, name)
    decreases |a|
  {
    if a != [] {
      CountSame(a[1..], b[1..], name);
    }
  }

  lemma {:induction false} CountLive(live: seq<App>, name: string)
    ensures IsLive(live, name) <==> Count(live, name) > 0
    ensures UniqueNames(live) ==> Count(live, name) <= 1
    decreases |live|
  {
    if live != [] {
      CountLive(live[1..], name);
      if IsLive(live[1..], name) {
        assert live[1 + FindApp(live[1..], name)].name == name;
      }
    }
  }

  lemma KeptStopOne(s: Store, name: string)
    ensures Kept(s, StopOne(s, name), name)
    ensures forall n :: Count(StopOne(s, name).live, n)
                        == if n == name && Count(s.live, n) > 0 then Count(s.live, n) - 1 else Count(s.live, n)
  {
    CountLive(s.live, name);
    var k := FindApp(s.live, name);
    if k < |s.live| {
      var (s1, err) := StopApp(s, k);
      QuietStop(s, k);
      QuietRead(s1, k);
      var s2 := if err == NO_ERROR then ReadState(s1, k) else s1;
      assert Quiet(s, s2);
      KeptQuietDispose(s, s2, k);
      forall n ensures Count(StopOne(s, name).live, n)
                       == if n == name && Count(s.live, n) > 0 then Count(s.live, n) - 1 else Count(s.live, n) {
        CountRemoved(s2.live, k, n);
        CountSame(s.live, s2.live, n);
      }
    }
  }

  ghost predicate HasName(reg: seq<Entry>, name: string) {
    exists i | 0 <= i < |reg| :: reg[i].name == name
  }

  /** The first pass of the clean-up stops one instance of each registered name. */
  lemma {:induction false} StopEachCounts(s: Store, reg: seq<Entry>, name: string)
    requires OrderedRegistry(reg)
    ensures Count(StopEach(s, reg).live, name)
            == if HasName(reg, name) && Count(s.live, name) > 0 then Count(s.live, name) - 1 else Count(s.live, name)
    decreases |reg|
  {
    if reg != [] {
      KeptStopOne(s, reg[0].name);
      var rest := reg[1..];
      StopEachCounts(StopOne(s, reg[0].name), rest, name);
      if i :| 0 <= i < |rest| && rest[i].name == name {
        assert reg[i + 1].name == name && !Matches(reg[i + 1], reg[0].name);
      }
      if i :| 0 <= i < |reg| && reg[i].name == name {
        assert i > 0 ==> rest[i - 1].name == name;
      }
    }
  }

  lemma {:induction false} StopEachKeeps(s: Store, reg: seq<Entry>)
    ensures var s' := StopEach(s, reg);
            && s'.files == s.files && s'.plat.cache == s.plat.cache
            && (UniqueNames(s.live) ==> UniqueNames(s'.live)) && (Agreement(s) ==> Agreement(s'))
    decreases |reg|
  {
    if reg != [] {
      KeptStopOne(s, reg[0].name);
      StopEachKeeps(StopOne(s, reg[0].name), reg[1..]);
    }
  }

  /** Unregistering everything: the registry is empty, no handler of a registered
      application is left, and a registered name still has a live instance exactly
      when it had two; names that were not registered keep theirs. */
  lemma UnregisterAllComplete(d: Rest, name: string)
    requires OrderedRegistry(d.registry) && d.handlers == HandlerSet(d.registry)
    ensures var d' := UnregisterAll(d);
            && d'.registry == [] && d'.handlers == {}
            && (IsLive(d'.apps.live, name) <==>
                  if HasName(d.registry, name) then Count(d.apps.live, name) >= 2 else IsLive(d.apps.live, name))
            && (UniqueNames(d.apps.live) && HasName(d.registry, name) ==> !IsLive(d'.apps.live, name))
  {
    StopEachCounts(d.apps, d.registry, name);
    CountLive(d.apps.live, name);
    CountLive(UnregisterAll(d).apps.live, name);
    assert HandlerSet(d.registry) <= Uris(d.registry);
  }
}
