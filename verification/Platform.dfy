/**
 The operating-system layer of server/plat/gdial.cpp: application start, stop, hide
 and state, answered from the status cache and passed on to the observer.

 The platform is assumed initialised (gdial_init ran), so its two handles are set;
 the observer is the gdialService object, whose response queue is `outbox` here.
 Netflix plug-in calls, power-state calls and the environment switches for them
 are absent; SYSTEM_SLEEP_REQUEST_KEY is a parameter.
 */
module Platform {
  import opened Common
  import opened StatusCache
  import Query

  datatype AppState = STOPPED | HIDE | RUNNING

  datatype AppError =
    NO_ERROR | NOT_IMPLEMENTED | FORBIDDEN | UNAUTH | BAD_REQUEST | UNAVAILABLE | INVALID | INTERNAL

  /** A launch payload, as posted or after soup_uri_encode with "=&". */
  datatype Payload = Raw(text: string) | UriEncoded(text: string)

  /** The additionalDataUrl of an application: its port and URI on localhost. */
  datatype DataUrl = DataUrl(port: int, uri: string)

  /** What is queued for the response worker. */
  datatype Notice =
    | Launch(name: string, payload: Option<Payload>, query: Option<string>, dataUrl: Option<DataUrl>)
    | Hide(name: string)
    | Stop(name: string)
    | StateRequest(name: string)

  datatype Plat = Plat(cache: Cache, outbox: seq<Notice>)

  function Sent(p: Plat, n: Notice): Plat {
    p.(outbox := p.outbox + [n])
  }

  function Decode(state: string): AppState {
    if state == "running" then RUNNING
    else if state == "suspended" || state == "hidden" then HIDE
    else STOPPED
  }

  /** The state a client is told for an application. */
  function ReportedState(c: Cache, name: string): AppState {
    if name == "system" then HIDE else Decode(Search(c, name))
  }

  function OsState(p: Plat, name: string): (Plat, AppState) {
    if name == "system" then (p, HIDE)
    else (Sent(p, StateRequest(name)), ReportedState(p.cache, name))
  }

  /** operator[] of std::map: the empty string when the key is missing. */
  function Get(q: Query.Parsed, key: string): string {
    if key in q then q[key] else ""
  }

  function OsStart(p: Plat, sleepKey: Option<string>, name: string, payload: Option<Payload>,
                   query: Option<string>, dataUrl: Option<DataUrl>): (Plat, AppError)
  {
    var q := Query.ParseQuery(query);
    if name == "system" && (Get(q, "action") == "sleep" || Get(q, "action") == "togglepower") then
      (p, if sleepKey.Some? && Get(q, "key") != sleepKey.value then INTERNAL else NO_ERROR)
    else
      (Sent(p, Launch(name, payload, query, dataUrl)), NO_ERROR)
  }

  function OsStop(p: Plat, name: string): (Plat, AppError) {
    if name == "system" then (p, BAD_REQUEST) else (Sent(p, Stop(name)), NO_ERROR)
  }

  function OsHide(p: Plat, name: string): (Plat, AppError) {
    if name == "system" then (p, NO_ERROR)
    else if Search(p.cache, name) != "running" then (p, BAD_REQUEST)
    else (Sent(p, Hide(name)), NO_ERROR)
  }

  class GDialPlatform {
    const appCache: AppStatusCache
    var outbox: seq<Notice>

    ghost predicate Valid()
      reads this, appCache, appCache.store
    {
      appCache.Valid()
    }

    function View(): Plat
      reads this, appCache, appCache.store
    {
      Plat(appCache.View(), outbox)
    }

    constructor ()
      ensures Valid() && fresh(appCache) && fresh(appCache.store)
      ensures View() == Plat(INITIAL, [])
    {
      appCache := new AppStatusCache();
      outbox := [];
    }

    method Notify(n: Notice)
      modifies this`outbox
      ensures outbox == old(outbox) + [n]
    {
      outbox := outbox + [n];
    }

    method Start(sleepKey: Option<string>, name: string, payload: Option<Payload>,
                 query: Option<string>, dataUrl: Option<DataUrl>) returns (r: AppError)
      requires Valid()
      modifies this`outbox
      ensures Valid() && (View(), r) == OsStart(old(View()), sleepKey, name, payload, query, dataUrl)
    {
      if name == "system" {
        var parsed := Query.Parse(query);
        if Get(parsed, "action") == "sleep" {
          if sleepKey.Some? && Get(parsed, "key") != sleepKey.value {
            return INTERNAL;
          }
          return NO_ERROR;
        } else if Get(parsed, "action") == "togglepower" {
          if sleepKey.Some? && Get(parsed, "key") != sleepKey.value {
            return INTERNAL;
          }
          return NO_ERROR;
        }
      }
      Notify(Launch(name, payload, query, dataUrl));
      r := NO_ERROR;
    }

    method Stop(name: string, now: int) returns (r: AppError)
      requires Valid()
      modifies this`outbox, appCache.store.objects.Values
      ensures Valid() && (View(), r) == OsStop(old(View()), name)
    {
      if name == "system" {
        return BAD_REQUEST;
      }
      var state := appCache.SearchAppStatusInCache(name, now);
      Notify(Notice.Stop(name));
      r := NO_ERROR;
    }

    method Hide(name: string, now: int) returns (r: AppError)
      requires Valid()
      modifies this`outbox, appCache.store.objects.Values
      ensures Valid() && (View(), r) == OsHide(old(View()), name)
    {
      if name == "system" {
        return NO_ERROR;
      }
      var state := appCache.SearchAppStatusInCache(name, now);
      if state != "running" {
        return BAD_REQUEST;
      }
      Notify(Notice.Hide(name));
      r := NO_ERROR;
    }

    method State(name: string, now: int) returns (state: AppState)
      requires Valid()
      modifies this`outbox, appCache.store.objects.Values
      ensures Valid() && (View(), state) == OsState(old(View()), name)
    {
      if name == "system" {
        return HIDE;
      }
      var s := appCache.SearchAppStatusInCache(name, now);
      Notify(StateRequest(name));
      if s == "running" {
        state := RUNNING;
      } else if s == "suspended" || s == "hidden" {
        state := HIDE;
      } else {
        state := STOPPED;
      }
    }

    /** gdial_os_application_state_changed: one notification reaches the cache. */
    method StateChanged(s: Status, now: int) returns (r: AppError)
      requires Valid()
      modifies appCache.store, appCache.store.objects.Values
      ensures Valid() && r == NO_ERROR
      ensures View() == old(View()).(cache := Updated(old(View()).cache, s))
    {
      var entry := new AppInfo(s.name, s.id, s.state, s.error, now);
      var err := appCache.UpdateAppStatusCache(entry, now);
      r := if err == OK then NO_ERROR else INTERNAL;
    }
  }
}
