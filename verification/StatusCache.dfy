/**
 The application status cache: the pointer-owning map of
 server/plat/gdialobjCacheHelper.hpp and the cache on top of it in
 server/plat/gdialappcache.cpp.
 */
module StatusCache {
  import opened Common

  /** One APP_STATE_CHANGED notification. */
  datatype Status = Status(name: string, id: string, state: string, error: string)

  datatype CacheError = OK | NOT_FOUND | DUPLICATE_ENTRY | NULL_ENTRY

  // ---------- the cache as a value ----------

  datatype Cache = Cache(netflixId: string, youtubeId: string, entries: map<string, Status>)

  const INITIAL: Cache := Cache("DialNetflix", "DialYoutube", map[])

  function CacheId(c: Cache, name: string): string {
    if name == "Netflix" then c.netflixId
    else if name == "YouTube" then c.youtubeId
    else name
  }

  function Updated(c: Cache, s: Status): Cache {
    c.(entries := c.entries[CacheId(c, s.name) := s])
  }

  function Search(c: Cache, name: string): string {
    var id := CacheId(c, name);
    if id in c.entries then c.entries[id].state else "NOT_FOUND"
  }

  /** setAppCacheId: only the two special applications have an id of their own. */
  function SetId(c: Cache, name: string, id: string): Cache {
    if name == "Netflix" then c.(netflixId := id)
    else if name == "YouTube" then c.(youtubeId := id)
    else c
  }

  function UpdatedAll(c: Cache, h: seq<Status>): Cache {
    if h == [] then c else Updated(UpdatedAll(c, h[..|h| - 1]), h[|h| - 1])
  }

  // ---------- what a search finds ----------

  /** State carried by the last notification for exactly this name. */
  function LastState(h: seq<Status>, name: string): string {
    if h == [] then "NOT_FOUND"
    else if h[|h| - 1].name == name then h[|h| - 1].state
    else LastState(h[..|h| - 1], name)
  }

  /** No other application in this history has the cache id of `name`. */
  ghost predicate OwnsId(h: seq<Status>, name: string) {
    forall i | 0 <= i < |h| :: CacheId(INITIAL, h[i].name) == CacheId(INITIAL, name) ==> h[i].name == name
  }

  lemma {:induction false} IdsStay(h: seq<Status>)
    ensures UpdatedAll(INITIAL, h).netflixId == INITIAL.netflixId
    ensures UpdatedAll(INITIAL, h).youtubeId == INITIAL.youtubeId
  {
    if h != [] {
      IdsStay(h[..|h| - 1]);
    }
  }

  /** After any history in which nobody else uses its cache id, an application's
      cached state is the one its last notification carried. */
  lemma {:induction false} SearchFindsLast(h: seq<Status>, name: string)
    requires OwnsId(h, name)
    ensures Search(UpdatedAll(INITIAL, h), name) == LastState(h, name)
  {
    if h != [] {
      var front := h[..|h| - 1];
      assert forall i | 0 <= i < |front| :: front[i] == h[i];
      SearchFindsLast(front, name);
      IdsStay(front);
      IdsStay(h);
    }
  }

  /** The names whose cache id is not theirs alone. */
  predicate SharesId(name: string) {
    name == "Netflix" || name == "YouTube" || name == "DialNetflix" || name == "DialYoutube"
  }

  /** For which applications this holds after every history: all but four. */
  lemma AlwaysFindsLastIff(name: string)
    ensures (forall h :: Search(UpdatedAll(INITIAL, h), name) == LastState(h, name)) <==> !SharesId(name)
  {
    if SharesId(name) {
      var other := if name == "Netflix" then "DialNetflix" else if name == "DialNetflix" then "Netflix"
                   else if name == "YouTube" then "DialYoutube" else "YouTube";
      var s := Status(other, "", "running", "");
      assert other != name && CacheId(INITIAL, other) == CacheId(INITIAL, name);
      var h := [s];
      assert h[..0] == [];
      assert UpdatedAll(INITIAL, h) == Updated(INITIAL, s);
      assert LastState(h, name) == LastState([], name) == "NOT_FOUND";
      assert Search(UpdatedAll(INITIAL, h), name) == "running";
      assert |"running"| != |"NOT_FOUND"|;
      assert Search(UpdatedAll(INITIAL, h), name) != LastState(h, name);
    } else {
      forall h ensures Search(UpdatedAll(INITIAL, h), name) == LastState(h, name) {
        SearchFindsLast(h, name);
      }
    }
  }

  // ---------- reassigned ids ----------

  /** What can happen to the cache: a notification, or a new id for one of the two
      special applications. */
  datatype Event = Note(status: Status) | Assign(name: string, id: string)

  function After(c: Cache, e: Event): Cache {
    match e
    case Note(s) => Updated(c, s)
    case Assign(name, id) => SetId(c, name, id)
  }

  function AfterAll(c: Cache, es: seq<Event>): Cache {
    if es == [] then c else After(AfterAll(c, es[..|es| - 1]), es[|es| - 1])
  }

  /** The state of the last notification whose application had this id at the time. */
  function LastUnder(es: seq<Event>, id: string): string {
    if es == [] then "NOT_FOUND"
    else
      var front, e := es[..|es| - 1], es[|es| - 1];
      if e.Note? && CacheId(AfterAll(INITIAL, front), e.status.name) == id then e.status.state
      else LastUnder(front, id)
  }

  lemma {:induction false} EntriesHoldLast(es: seq<Event>, id: string)
    ensures var entries := AfterAll(INITIAL, es).entries;
            LastUnder(es, id) == if id in entries then entries[id].state else "NOT_FOUND"
    decreases |es|
  {
    if es != [] {
      EntriesHoldLast(es[..|es| - 1], id);
    }
  }

  /** After any history of notifications and reassignments, for any application: a
      search finds the last notification cached under the id the application has now,
      whoever sent it; so giving a special application another id shows, from then on,
      what was last cached under that one. */
  lemma SearchAfterReassigning(es: seq<Event>, name: string, id: string)
    ensures Search(AfterAll(INITIAL, es), name) == LastUnder(es, CacheId(AfterAll(INITIAL, es), name))
    ensures name == "Netflix" || name == "YouTube" ==>
              Search(AfterAll(INITIAL, es + [Assign(name, id)]), name) == LastUnder(es, id)
    ensures forall other | other != name ::
              Search(AfterAll(INITIAL, es + [Assign(name, id)]), other) == Search(AfterAll(INITIAL, es), other)
  {
    var c := AfterAll(INITIAL, es);
    EntriesHoldLast(es, CacheId(c, name));
    EntriesHoldLast(es, id);
    assert (es + [Assign(name, id)])[..|es|] == es;
    assert AfterAll(INITIAL, es + [Assign(name, id)]) == SetId(c, name, id);
  }

  // ---------- the classes ----------

  class AppInfo {
    const appName: string
    const appId: string
    const appState: string
    const appError: string
    var lastTouched: int

    constructor (name: string, id: string, state: string, error: string, now: int)
      ensures Info() == Status(name, id, state, error) && lastTouched == now
    {
      appName, appId, appState, appError, lastTouched := name, id, state, error, now;
    }

    function Info(): Status {
      Status(appName, appId, appState, appError)
    }
  }

  lemma ValuesWithout<V>(m: map<string, V>, k: string)
    requires k in m
    ensures m.Values == (m - {k}).Values + {m[k]}
  {
    forall v | v in m.Values ensures v in (m - {k}).Values + {m[k]} {
      var l :| l in m && m[l] == v;
      if l != k {
        assert l in m - {k} && (m - {k})[l] == v;
      }
    }
    forall v | v in (m - {k}).Values ensures v in m.Values {
      var l :| l in m - {k} && (m - {k})[l] == v;
      assert l in m;
    }
  }

  /** No two keys share an object, and none of the objects has been deleted. */
  ghost predicate Owned(m: map<string, AppInfo>, freed: set<AppInfo>) {
    (forall k | k in m :: m[k] !in freed)
    && forall k, l | k in m && l in m && k != l :: m[k] != m[l]
  }

  /** Deleting the object of one key deletes no other key's object. */
  lemma FreeOne(m: map<string, AppInfo>, freed: set<AppInfo>, k: string)
    requires Owned(m, freed) && k in m
    ensures Owned(m - {k}, freed + {m[k]})
    ensures freed + m.Values == (freed + {m[k]}) + (m - {k}).Values
    ensures m[k] !in freed + (m - {k}).Values
  {
    ValuesWithout(m, k);
  }

  function Infos(m: map<string, AppInfo>): map<string, Status> {
    map k | k in m :: m[k].Info()
  }

  lemma InfosUpdate(m: map<string, AppInfo>, id: string, e: AppInfo)
    ensures Infos(m[id := e]) == Infos(m)[id := e.Info()]
    ensures (m - {id})[id := e] == m[id := e]
  {
  }

  /** GDialObjectCacheHelper: owns the objects it maps to.  `freed` records every
      object it has deleted; none is deleted twice or still mapped. */
  class ObjectCache {
    var objects: map<string, AppInfo>
    ghost var freed: set<AppInfo>

    ghost predicate Valid()
      reads this
    {
      Owned(objects, freed)
    }

    function Contents(): map<string, Status>
      reads this
    {
      Infos(objects)
    }

    constructor ()
      ensures Valid() && objects == map[] && freed == {}
    {
      objects, freed := map[], {};
    }

    method FindObject(id: string) returns (entry: AppInfo?)
      ensures entry == if id in objects then objects[id] else null
    {
      if id in objects {
        return objects[id];
      }
      return null;
    }

    /** The caller hands over the entry; on DUPLICATE_ENTRY it stays the caller's. */
    method Insert(id: string, entry: AppInfo?) returns (r: CacheError)
      requires Valid() && entry !in freed && entry !in objects.Values
      modifies this`objects
      ensures Valid()
      ensures r == if entry == null then NULL_ENTRY else if id in old(objects) then DUPLICATE_ENTRY else OK
      ensures objects == if r == OK then old(objects)[id := entry] else old(objects)
    {
      r := NULL_ENTRY;
      if entry != null {
        if id in objects {
          r := DUPLICATE_ENTRY;
        } else {
          objects := objects[id := entry];
          r := OK;
        }
      }
    }

    method Touch(id: string, now: int) returns (r: CacheError)
      modifies objects.Values
      ensures r == if id in objects then OK else NOT_FOUND
      ensures id in objects ==> objects[id].lastTouched == now
      ensures forall e | e in objects.Values && (id in objects ==> e != objects[id]) ::
                e.lastTouched == old(e.lastTouched)
    {
      r := NOT_FOUND;
      if id in objects {
        objects[id].lastTouched := now;
        r := OK;
      }
    }

    method Erase(id: string) returns (r: CacheError)
      requires Valid()
      modifies this
      ensures Valid()
      ensures r == if id in old(objects) then OK else NOT_FOUND
      ensures objects == old(objects) - {id}
      ensures freed == old(freed) + if id in old(objects) then {old(objects)[id]} else {}
    {
      r := NOT_FOUND;
      if id in objects {
        freed := freed + {objects[id]};
        objects := objects - {id};
        r := OK;
      }
    }

    /** The destructor: every object still mapped is deleted, each once. */
    method Destroy()
      requires Valid()
      modifies this
      ensures Valid() && objects == map[] && freed == old(freed) + old(objects).Values
    {
      ghost var owned := objects.Values;
      ghost var before := freed;
      var rest := objects;
      while rest != map[]
        invariant Owned(rest, freed)
        invariant freed + rest.Values == before + owned
        decreases rest.Keys
      {
        var k :| k in rest;
        FreeOne(rest, freed, k);
        freed := freed + {rest[k]};
        rest := rest - {k};
      }
      objects := map[];
    }
  }

  /** GDialAppStatusCache. */
  class AppStatusCache {
    const store: ObjectCache
    var netflixCacheId: string
    var youtubeCacheId: string

    ghost predicate Valid()
      reads this, store
    {
      store.Valid()
    }

    function View(): Cache
      reads this, store
    {
      Cache(netflixCacheId, youtubeCacheId, store.Contents())
    }

    constructor ()
      ensures Valid() && fresh(store) && View() == INITIAL
    {
      store := new ObjectCache();
      netflixCacheId, youtubeCacheId := "DialNetflix", "DialYoutube";
    }

    method GetAppCacheId(name: Option<string>) returns (id: string)
      ensures id == if name == None then "" else CacheId(View(), name.value)
    {
      if name == None {
        id := "";
      } else if name.value == "Netflix" {
        id := netflixCacheId;
      } else if name.value == "YouTube" {
        id := youtubeCacheId;
      } else {
        id := name.value;
      }
    }

    method SetAppCacheId(name: string, id: string)
      modifies this
      ensures View() == SetId(old(View()), name, id)
    {
      if name == "Netflix" {
        netflixCacheId := id;
      } else if name == "YouTube" {
        youtubeCacheId := id;
      }
    }

    method DoIdExist(id: string, now: int) returns (b: bool)
      modifies store.objects.Values
      ensures b <==> id in store.objects
    {
      var r := store.Touch(id, now);
      b := r == OK;
    }

    /** Never fails and never leaks: the old entry, if any, is deleted first. */
    method UpdateAppStatusCache(entry: AppInfo, now: int) returns (r: CacheError)
      requires Valid() && entry !in store.freed && entry !in store.objects.Values
      modifies store, store.objects.Values
      ensures Valid() && r == OK
      ensures View() == Updated(old(View()), entry.Info())
      ensures var id := CacheId(old(View()), entry.appName);
              && store.objects == old(store.objects)[id := entry]
              && store.freed == old(store.freed) + if id in old(store.objects) then {old(store.objects)[id]} else {}
    {
      var id := GetAppCacheId(Some(entry.appName));
      var exists_ := DoIdExist(id, now);
      if exists_ {
        r := store.Erase(id);
      }
      InfosUpdate(old(store.objects), id, entry);
      InfosUpdate(store.objects, id, entry);
      r := store.Insert(id, entry);
    }

    method SearchAppStatusInCache(name: string, now: int) returns (state: string)
      requires Valid()
      modifies store.objects.Values
      ensures Valid() && View() == old(View()) && state == Search(View(), name)
    {
      state := "NOT_FOUND";
      var id := GetAppCacheId(Some(name));
      var exists_ := DoIdExist(id, now);
      if exists_ {
        var entry := store.FindObject(id);
        state := entry.appState;
      }
    }
  }
}
