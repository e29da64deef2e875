/**
 The request worker and the REST server together: what the worker dispatches is
 what changes the server, while clients keep sending requests.  A dispatch, and a
 handler, run to completion before the next one starts.
 */
module Service {
  import opened Common
  import W = Worker
  import opened Platform
  import opened Registry
  import opened Apps
  import opened RestSpec
  import opened RestProofs
  import opened Runs
  import opened Guarantees
  import opened StatusCache

  /** RequestHandlerPayload; the kinds that do not concern the REST server are one. */
  datatype Payload =
    | AppStateChanged(status: StatusCache.Status)
    | RegisterApplications(cfg: seq<ConfigEntry>)
    | OtherRequest

  type Item = W.Item<Payload>

  /** `system` is the URI of "system" when the command line enables it. */
  datatype Config = Config(worker: W.Config<Payload>, system: Option<string>)

  datatype Sys = Sys(worker: W.State<Payload>, rest: Rest)

  /** A step of the queue protocol, or a client's request or a timer. */
  datatype Move = Work(t: W.Step) | Serve(request: Runs.Step)

  function Effect(d: Rest, p: Payload, system: Option<string>): Rest
    requires d.uri != ""
  {
    match p
    case AppStateChanged(s) => Next(d, Notify(s)).0
    case RegisterApplications(cfg) => Next(d, Runs.Reregister(cfg, system)).0
    case OtherRequest => d
  }

  ghost predicate Enabled(c: Config, s: Sys, m: Move) {
    match m
    case Work(t) => W.Enabled(c.worker, s.worker, t)
    case Serve(r) => (r.Http? || r.Local? || r.Timer?) && Promised(s.rest, r)
  }

  /** Line 659 and the switch after it: only with an observer is anything done. */
  predicate Dispatches(w: W.State<Payload>, t: W.Step) {
    t == W.Consume && w.pc == W.Dispatch && w.observer && w.held != []
  }

  function Apply(c: Config, s: Sys, m: Move): Sys
    requires Enabled(c, s, m) && s.rest.uri != ""
  {
    match m
    case Work(t) =>
      Sys(W.Apply(c.worker, s.worker, t),
          if Dispatches(s.worker, t) then Effect(s.rest, s.worker.held[0].payload, c.system) else s.rest)
    case Serve(r) => s.(rest := Next(s.rest, r).0)
  }

  function Statuses(items: seq<Item>): seq<StatusCache.Status> {
    if items == [] then []
    else
      var last := items[|items| - 1].payload;
      Statuses(items[..|items| - 1]) + (if last.AppStateChanged? then [last.status] else [])
  }

  /** The registry the last dispatched configuration gives; `start` before the first. */
  function RegistryFrom(items: seq<Item>, start: seq<Entry>, system: Option<string>): seq<Entry> {
    if items == [] then start
    else
      var last := items[|items| - 1].payload;
      if last.RegisterApplications? then ConfiguredRegistry(last.cfg, system)
      else RegistryFrom(items[..|items| - 1], start, system)
  }

  lemma Snoc(items: seq<Item>, x: Item, start: seq<Entry>, system: Option<string>)
    ensures Statuses(items + [x]) == Statuses(items) + (if x.payload.AppStateChanged? then [x.payload.status] else [])
    ensures !x.payload.RegisterApplications? ==>
              RegistryFrom(items + [x], start, system) == RegistryFrom(items, start, system)
  {
    assert (items + [x])[..|items|] == items;
  }

  ghost predicate Inv(c: Config, s: Sys, start: Rest) {
    && W.Inv(c.worker, s.worker)
    && s.rest.uri != ""
    && s.rest.apps.plat.cache == UpdatedAll(INITIAL, Statuses(s.worker.delivered))
    && s.rest.registry == RegistryFrom(s.worker.delivered, start.registry, c.system)
  }

  lemma RequestsKeepRegistry(d: Rest, r: Runs.Step)
    requires d.uri != "" && (r.Http? || r.Local? || r.Timer?)
    ensures Next(d, r).0.registry == d.registry && Next(d, r).0.uri == d.uri
  {
    match r
    case Http(req) => var name := HttpWorks(d, req);
    case Local(req, form) => LocalKeepsRegistry(d, req, form);
    case _ =>
  }

  lemma EffectExact(d: Rest, p: Payload, system: Option<string>)
    requires d.uri != ""
    ensures var d' := Effect(d, p, system);
            && d'.uri == d.uri
            && d'.apps.plat.cache == (if p.AppStateChanged? then Updated(d.apps.plat.cache, p.status)
                                      else d.apps.plat.cache)
            && d'.registry == (if p.RegisterApplications? then ConfiguredRegistry(p.cfg, system) else d.registry)
  {
    if p.RegisterApplications? {
      ReregisterParts(d, AppListOf(p.cfg), system);
      RegisterListApps(UnregisterAll(d), AppListOf(p.cfg));
    }
  }

  /** One dispatch keeps cache and registry in step with the delivered payloads. */
  lemma EffectFollows(d: Rest, items: seq<Item>, x: Item, start: seq<Entry>, system: Option<string>)
    requires d.uri != ""
    requires d.apps.plat.cache == UpdatedAll(INITIAL, Statuses(items))
    requires d.registry == RegistryFrom(items, start, system)
    ensures var d' := Effect(d, x.payload, system);
            && d'.uri == d.uri
            && d'.apps.plat.cache == UpdatedAll(INITIAL, Statuses(items + [x]))
            && d'.registry == RegistryFrom(items + [x], start, system)
  {
    EffectExact(d, x.payload, system);
    Snoc(items, x, start, system);
    var h := Statuses(items);
    if x.payload.AppStateChanged? {
      assert (h + [x.payload.status])[..|h|] == h;
    } else {
      assert h + [] == h;
    }
  }

  lemma DispatchInv(c: Config, s: Sys, start: Rest)
    requires Inv(c, s, start) && Enabled(c, s, Work(W.Consume)) && Dispatches(s.worker, W.Consume)
    ensures Inv(c, Apply(c, s, Work(W.Consume)), start)
  {
    var w := s.worker;
    var x := w.held[0];
    assert w.held == [x] by { assert W.Local(w); }
    W.StepInv(c.worker, w, W.Consume);
    EffectFollows(s.rest, w.delivered, x, start.registry, c.system);
    DispatchDelivers(c, w);
  }

  lemma DispatchDelivers(c: Config, w: W.State<Payload>)
    requires W.Enabled(c.worker, w, W.Consume) && Dispatches(w, W.Consume)
    ensures W.Apply(c.worker, w, W.Consume).delivered == w.delivered + w.held
  {
  }

  lemma MoveInv(c: Config, s: Sys, m: Move, start: Rest)
    requires Inv(c, s, start) && Enabled(c, s, m)
    ensures Inv(c, Apply(c, s, m), start)
  {
    match m
    case Work(t) =>
      if Dispatches(s.worker, t) {
        DispatchInv(c, s, start);
      } else {
        W.StepInv(c.worker, s.worker, t);
        OthersDeliverNothing(c, s.worker, t);
      }
    case Serve(r) =>
      RequestsKeepRegistry(s.rest, r);
      CacheStep(s.rest, r);
  }

  lemma OthersDeliverNothing(c: Config, w: W.State<Payload>, t: W.Step)
    requires W.Enabled(c.worker, w, t) && !Dispatches(w, t)
    ensures W.Apply(c.worker, w, t).delivered == w.delivered
  {
  }

  ghost predicate Legal(c: Config, s: Sys, moves: seq<Move>)
    decreases |moves|
  {
    s.rest.uri != ""
    && (moves != [] ==> Enabled(c, s, moves[0]) && Legal(c, Apply(c, s, moves[0]), moves[1..]))
  }

  ghost function Exec(c: Config, s: Sys, moves: seq<Move>): Sys
    requires Legal(c, s, moves)
    decreases |moves|
  {
    if moves == [] then s else Exec(c, Apply(c, s, moves[0]), moves[1..])
  }

  lemma {:induction false} RunInv(c: Config, s: Sys, moves: seq<Move>, start: Rest)
    requires Inv(c, s, start) && Legal(c, s, moves)
    ensures Inv(c, Exec(c, s, moves), start)
    decreases |moves|
  {
    if moves != [] {
      MoveInv(c, s, moves[0], start);
      RunInv(c, Apply(c, s, moves[0]), moves[1..], start);
    }
  }

  /** End to end.  Take the server as it is after start-up, any producers, and any
      interleaving of senders, worker and client requests, at the worker's own
      granularity.  What has been dispatched so far is a stretch of what was sent, in
      order, after whatever came before the observer was set; the registry is the one
      the last dispatched configuration gives; and the state reported for an
      application is what the text of its last dispatched notification means. */
  lemma DispatchedIsWhatClientsSee(c: Config, start: Rest, moves: seq<Move>, name: string)
    requires start.uri != "" && start.apps.plat.cache == INITIAL
    requires Legal(c, Sys(W.Init(c.worker), start), moves)
    requires OwnsId(Statuses(Exec(c, Sys(W.Init(c.worker), start), moves).worker.delivered), name)
    ensures var e := Exec(c, Sys(W.Init(c.worker), start), moves);
            var w := e.worker;
            && w.dropped + w.delivered <= w.sent
            && e.rest.registry == RegistryFrom(w.delivered, start.registry, c.system)
            && var t := LastState(Statuses(w.delivered), name);
               && Search(e.rest.apps.plat.cache, name) == t
               && ReportedState(e.rest.apps.plat.cache, name)
                  == (if name == "system" || t == "suspended" || t == "hidden" then HIDE
                      else if t == "running" then RUNNING else STOPPED)
  {
    var s := Sys(W.Init(c.worker), start);
    StartInv(c, start);
    RunInv(c, s, moves, start);
    var e := Exec(c, s, moves);
    HandledIsSent(e.worker);
    SearchFindsLast(Statuses(e.worker.delivered), name);
    StateTexts(e.rest.apps.plat.cache, name);
  }

  lemma StartInv(c: Config, start: Rest)
    requires start.uri != "" && start.apps.plat.cache == INITIAL
    ensures Inv(c, Sys(W.Init(c.worker), start), start)
  {
    W.InitInv(c.worker);
    assert Statuses([]) == [] && UpdatedAll(INITIAL, []) == INITIAL;
  }

  lemma HandledIsSent(w: W.State<Payload>)
    requires W.Fifo(w)
    ensures w.dropped + w.delivered <= w.sent
  {
    assert w.sent == (w.dropped + w.delivered) + (W.InFlight(w) + w.queue);
  }

  // ---------- the REST server's side of a run ----------

  /** What a move does to the REST server, as one of its own steps, if anything. */
  function RestStep(c: Config, s: Sys, m: Move): seq<Runs.Step> {
    match m
    case Serve(r) => [r]
    case Work(t) =>
      if !Dispatches(s.worker, t) then []
      else
        match s.worker.held[0].payload
        case AppStateChanged(status) => [Notify(status)]
        case RegisterApplications(cfg) => [Runs.Reregister(cfg, c.system)]
        case OtherRequest => []
  }

  ghost function RestSteps(c: Config, s: Sys, moves: seq<Move>): seq<Runs.Step>
    requires Legal(c, s, moves)
    decreases |moves|
  {
    if moves == [] then [] else RestStep(c, s, moves[0]) + RestSteps(c, Apply(c, s, moves[0]), moves[1..])
  }

  lemma MoveIsRestStep(c: Config, s: Sys, m: Move)
    requires s.rest.uri != "" && Enabled(c, s, m)
    ensures var t := RestStep(c, s, m);
            |t| <= 1 && Apply(c, s, m).rest == if t == [] then s.rest else Next(s.rest, t[0]).0
  {
  }

  /** No configuration that is sent claims a prefix of "system" for another name. */
  predicate SafePayload(p: Payload) {
    p.RegisterApplications? ==> SafeConfig(p.cfg)
  }

  predicate SafeScripts(c: Config) {
    forall i, j | 0 <= i < |c.worker.scripts| && 0 <= j < |c.worker.scripts[i]| :: SafePayload(c.worker.scripts[i][j])
  }

  predicate SafeItems(items: seq<Item>) {
    forall i | 0 <= i < |items| :: SafePayload(items[i].payload)
  }

  lemma SentStaysSafe(c: Config, w: W.State<Payload>, t: W.Step)
    requires SafeScripts(c) && SafeItems(w.sent) && W.Enabled(c.worker, w, t)
    ensures SafeItems(W.Apply(c.worker, w, t).sent)
  {
    W.SentStep(c.worker, w, t);
  }

  lemma HeldIsSafe(w: W.State<Payload>)
    requires W.Fifo(w) && SafeItems(w.sent) && w.pc == W.Dispatch
    ensures SafePayload(w.held[0].payload)
  {
    var n := |w.dropped + w.delivered|;
    assert w.sent == (w.dropped + w.delivered) + (w.held + w.queue);
    assert w.sent[n] == w.held[0];
  }

  /** What clients post can be read back. */
  ghost predicate StorablePosts(c: Config, s: Sys, moves: seq<Move>)
    requires Legal(c, s, moves)
    decreases |moves|
  {
    moves != [] ==>
      && (moves[0].Serve? ==> DataGuard(s.rest, moves[0].request))
      && StorablePosts(c, Apply(c, s, moves[0]), moves[1..])
  }

  lemma RestStepAllowed(c: Config, s: Sys, m: Move)
    requires RestInv(s.rest) && SystemInv(s.rest) && W.Fifo(s.worker) && SafeItems(s.worker.sent)
    requires Enabled(c, s, m) && (m.Serve? ==> DataGuard(s.rest, m.request)) && RestStep(c, s, m) != []
    ensures var t := RestStep(c, s, m)[0];
            Allowed(s.rest, t) && RestInv(Next(s.rest, t).0) && SystemInv(Next(s.rest, t).0)
  {
    var t := RestStep(c, s, m)[0];
    if m.Work? {
      HeldIsSafe(s.worker);
    }
    assert SafeStep(s.rest, t);
    SafeStepGuarded(s.rest, t);
    StepInv(s.rest, t);
  }

  /** Every run of the two together is, on the server's side, a legal run of the REST
      server alone, ending in the same state, whatever is live when configurations
      arrive: so all that is proved of those runs holds here. */
  lemma {:induction false} RestSideIsRun(c: Config, s: Sys, moves: seq<Move>)
    requires W.Inv(c.worker, s.worker) && SafeScripts(c) && SafeItems(s.worker.sent)
    requires RestInv(s.rest) && SystemInv(s.rest)
    requires Legal(c, s, moves) && StorablePosts(c, s, moves)
    ensures Runs.Legal(s.rest, RestSteps(c, s, moves))
    ensures Exec(c, s, moves).rest == Runs.Exec(s.rest, RestSteps(c, s, moves))
    decreases |moves|
  {
    if moves != [] {
      var s' := Apply(c, s, moves[0]);
      var t := RestStep(c, s, moves[0]);
      MoveIsRestStep(c, s, moves[0]);
      if moves[0].Work? {
        W.StepInv(c.worker, s.worker, moves[0].t);
        SentStaysSafe(c, s.worker, moves[0].t);
      }
      if t != [] {
        RestStepAllowed(c, s, moves[0]);
      }
      RestSideIsRun(c, s', moves[1..]);
      RestSideGrows(s.rest, t, s'.rest, RestSteps(c, s', moves[1..]));
    }
  }

  lemma RestSideGrows(d: Rest, t: seq<Runs.Step>, d': Rest, rest: seq<Runs.Step>)
    requires d.uri != "" && |t| <= 1 && d' == (if t == [] then d else Next(d, t[0]).0)
    requires (t != [] ==> Allowed(d, t[0])) && Runs.Legal(d', rest)
    ensures Runs.Legal(d, t + rest) && Runs.Exec(d, t + rest) == Runs.Exec(d', rest)
  {
    if t == [] {
      assert [] + rest == rest;
    } else {
      assert t == [t[0]];
      Guarantees.Cons(d, t[0], rest);
    }
  }

  /** The answer to a GET when these payloads have been dispatched and this is the data. */
  function Answer(seen: seq<Item>, data: DataTable, name: string, v: Version): Reply {
    var t := LastState(Statuses(seen), name);
    Reply(200, Some(Report(name, Shown(t, name, v), Up(t, name), data)))
  }

  /** The dial data last posted for an application, or what its file held at the start. */
  ghost function DataAfter(start: Rest, steps: seq<Runs.Step>, name: string): DataTable
    requires Runs.Legal(start, steps)
  {
    match LastPosted(start, steps, name)
    case Some(es) => Table(es)
    case None => FileTable(start.apps.files, name)
  }

  /** The answer a client gets, end to end.  Take the server after start-up, any
      producers that send safe configurations, and any interleaving of senders, worker,
      clients and timers.  A GET reports the state of the application's last dispatched
      notification, as the client's version must see it, and the dial data last posted
      for it, however often it was stopped, deleted or re-registered in between. */
  lemma ServedReply(c: Config, start: Rest, moves: seq<Move>, name: string, v: Version)
    requires RestInv(start) && SystemInv(start) && start.apps.plat.cache == INITIAL && SafeScripts(c) && name != ""
    requires Legal(c, Sys(W.Init(c.worker), start), moves) && StorablePosts(c, Sys(W.Init(c.worker), start), moves)
    requires OwnsId(Statuses(Exec(c, Sys(W.Init(c.worker), start), moves).worker.delivered), name)
    ensures var s := Sys(W.Init(c.worker), start);
            var e := Exec(c, s, moves);
            && RestInv(e.rest)
            && Runs.Legal(start, RestSteps(c, s, moves))
            && HandleGet(e.rest.apps, name, v).1
               == Answer(e.worker.delivered, DataAfter(start, RestSteps(c, s, moves), name), name, v)
  {
    var s := Sys(W.Init(c.worker), start);
    W.InitInv(c.worker);
    RestSideIsRun(c, s, moves);
    Runs.RunInv(start, RestSteps(c, s, moves));
    FileAfterRun(start, RestSteps(c, s, moves), name);
    DispatchedIsWhatClientsSee(c, start, moves, name);
    GetReport(Exec(c, s, moves).rest.apps, name, v);
    ShownIsDisplayed(Exec(c, s, moves).rest.apps.plat.cache, name, v);
  }

  // ---------- from sending to the answer ----------

  /** The steps of the queue protocol in a run. */
  function WorkSteps(moves: seq<Move>): seq<W.Step> {
    if moves == [] then [] else (if moves[0].Work? then [moves[0].t] else []) + WorkSteps(moves[1..])
  }

  /** Seen from the queue, a run is a run of the protocol alone. */
  lemma {:induction false} WorkSideIsRun(c: Config, s: Sys, moves: seq<Move>)
    requires Legal(c, s, moves)
    ensures W.Legal(c.worker, s.worker, WorkSteps(moves))
    ensures Exec(c, s, moves).worker == W.Exec(c.worker, s.worker, WorkSteps(moves))
    decreases |moves|
  {
    if moves != [] {
      var rest := WorkSteps(moves[1..]);
      WorkSideIsRun(c, Apply(c, s, moves[0]), moves[1..]);
      if moves[0].Work? {
        W.Cons(c.worker, s.worker, moves[0].t, rest);
      } else {
        assert [] + rest == rest;
      }
    }
  }

  /** The state after the first n moves of a run. */
  ghost function At(c: Config, s: Sys, moves: seq<Move>, n: nat): Sys
    requires Legal(c, s, moves) && n <= |moves|
    decreases n
  {
    if n == 0 then s else At(c, Apply(c, s, moves[0]), moves[1..], n - 1)
  }

  lemma {:induction false} RunContinues(c: Config, s: Sys, moves: seq<Move>, n: nat)
    requires Legal(c, s, moves) && n <= |moves| && W.Inv(c.worker, s.worker)
    ensures Legal(c, At(c, s, moves, n), moves[n..])
    ensures Exec(c, At(c, s, moves, n), moves[n..]) == Exec(c, s, moves)
    ensures W.Inv(c.worker, At(c, s, moves, n).worker)
    decreases n
  {
    if n == 0 {
      assert moves[0..] == moves;
    } else {
      MoveKeepsWorker(c, s, moves[0]);
      RunContinues(c, Apply(c, s, moves[0]), moves[1..], n - 1);
      assert moves[1..][n - 1..] == moves[n..];
    }
  }

  lemma MoveKeepsWorker(c: Config, s: Sys, m: Move)
    requires W.Inv(c.worker, s.worker) && s.rest.uri != "" && Enabled(c, s, m)
    ensures W.Inv(c.worker, Apply(c, s, m).worker)
  {
    if m.Work? {
      W.StepInv(c.worker, s.worker, m.t);
    }
  }

  /** The worker will dispatch what is queued: an observer is set and has seen all so far,
      Run is up, Exit is not, and the worker is not between lines 646 and 652. */
  predicate Ready(w: W.State<Payload>) {
    w.observer && w.dropped == [] && w.run && !w.exit && W.ToDispatch(w.pc) > 0
  }

  /** From a ready state on, once the worker has had seven steps for each waiting payload,
      all that was sent by then is dispatched, under any interleaving. */
  lemma SentReachesServer(c: Config, s: Sys, moves: seq<Move>)
    requires W.Inv(c.worker, s.worker) && Ready(s.worker) && Legal(c, s, moves)
    requires W.RaiseExit !in WorkSteps(moves) && W.CountConsume(WorkSteps(moves)) >= 7 * W.Waiting(s.worker)
    ensures var w := Exec(c, s, moves).worker;
            s.worker.sent <= w.delivered <= w.sent && w.dropped == []
  {
    var steps := WorkSteps(moves);
    WorkSideIsRun(c, s, moves);
    W.SentIsDispatched(c.worker, s.worker, steps);
    W.SentGrows(c.worker, s.worker, steps);
    W.RunInv(c.worker, s.worker, steps);
    NothingDropped(Exec(c, s, moves).worker);
  }

  lemma NothingDropped(w: W.State<Payload>)
    requires W.Fifo(w) && w.dropped == []
    ensures w.delivered <= w.sent && w.dropped + w.delivered == w.delivered
  {
    HandledIsSent(w);
    assert w.dropped + w.delivered == w.delivered;
  }

  /** From sender to client.  Take any run, all interleaved at will, a moment n of it at
      which the worker is ready, and let the rest of the run give the worker seven steps
      for each payload then waiting.  A GET at the end reports the last notification in a
      stretch of what was sent that holds at least everything sent by that moment; if
      nothing was sent since, the last notification sent. */
  lemma SentIsServed(c: Config, start: Rest, moves: seq<Move>, n: nat, name: string, v: Version)
    requires RestInv(start) && SystemInv(start) && start.apps.plat.cache == INITIAL && SafeScripts(c) && name != ""
    requires Legal(c, Sys(W.Init(c.worker), start), moves) && StorablePosts(c, Sys(W.Init(c.worker), start), moves)
    requires n <= |moves| && Ready(At(c, Sys(W.Init(c.worker), start), moves, n).worker)
    requires W.RaiseExit !in WorkSteps(moves[n..])
    requires W.CountConsume(WorkSteps(moves[n..]))
             >= 7 * W.Waiting(At(c, Sys(W.Init(c.worker), start), moves, n).worker)
    requires OwnsId(Statuses(Exec(c, Sys(W.Init(c.worker), start), moves).worker.delivered), name)
    ensures var s := Sys(W.Init(c.worker), start);
            var ready := At(c, s, moves, n).worker;
            var e := Exec(c, s, moves);
            && ready.sent <= e.worker.delivered <= e.worker.sent
            && (e.worker.sent == ready.sent ==> e.worker.delivered == ready.sent)
            && Runs.Legal(start, RestSteps(c, s, moves))
            && HandleGet(e.rest.apps, name, v).1
               == Answer(e.worker.delivered, DataAfter(start, RestSteps(c, s, moves), name), name, v)
  {
    var s := Sys(W.Init(c.worker), start);
    W.InitInv(c.worker);
    RunContinues(c, s, moves, n);
    SentReachesServer(c, At(c, s, moves, n), moves[n..]);
    ServedReply(c, start, moves, name, v);
  }

  // ---------- launches, up to the observer ----------

  function Notices(items: seq<W.Item<Notice>>): (out: seq<Notice>)
    ensures |out| == |items| && forall i | 0 <= i < |items| :: out[i] == items[i].payload
  {
    if items == [] then [] else Notices(items[..|items| - 1]) + [items[|items| - 1].payload]
  }

  lemma {:induction false} LaunchesJoin(a: seq<Notice>, b: seq<Notice>)
    ensures Launches(a + b) == Launches(a) + Launches(b)
    decreases |b|
  {
    if b == [] {
      assert a + b == a && Launches(a) + [] == Launches(a);
    } else {
      var front, last := b[..|b| - 1], b[|b| - 1];
      assert a + b == (a + front) + [last] && b == front + [last];
      LaunchesJoin(a, front);
      LaunchesSnoc(a + front, last);
      LaunchesSnoc(front, last);
    }
  }

  lemma LaunchesOfStart(a: seq<Notice>, b: seq<Notice>, out: seq<Notice>)
    requires a + b <= out
    ensures Launches(a) + Launches(b) <= Launches(out)
  {
    assert out == (a + b) + out[|a + b|..];
    LaunchesJoin(a + b, out[|a + b|..]);
    LaunchesJoin(a, b);
  }

  lemma HandledNotices(w: W.State<Notice>)
    requires W.Fifo(w)
    ensures Notices(w.dropped) + Notices(w.delivered) <= Notices(w.sent)
  {
    assert w.sent == (w.dropped + w.delivered) + (W.InFlight(w) + w.queue);
    var handled := Notices(w.dropped) + Notices(w.delivered);
    assert forall i | 0 <= i < |handled| :: handled[i] == (w.dropped + w.delivered)[i].payload;
    assert handled == Notices(w.sent)[..|handled|];
  }

  lemma AllLaunches(uri: string, steps: seq<Runs.Step>)
    requires uri != "" && Runs.Legal(Start(uri), steps)
    ensures Launches(Runs.Exec(Start(uri), steps).apps.plat.outbox) == LaunchesOf(Start(uri), steps)
  {
    OnlyPostsLaunch(Start(uri), steps);
    assert Launches([]) + LaunchesOf(Start(uri), steps) == LaunchesOf(Start(uri), steps);
  }

  /** What the observer is told to launch, end to end.  Take any run of the REST server
      from the start and any run of the response worker to which the server's notices have
      been sent so far, in order.  The launches it dropped for want of an observer,
      followed by those it delivered, are the first launches of accepted POSTs, in order:
      the observer is told of nothing else, and of none twice. */
  lemma LaunchesReachObserver(uri: string, steps: seq<Runs.Step>, c: W.Config<Notice>, work: seq<W.Step>)
    requires uri != "" && Runs.Legal(Start(uri), steps) && W.Legal(c, W.Init(c), work)
    requires Notices(W.Exec(c, W.Init(c), work).sent) <= Runs.Exec(Start(uri), steps).apps.plat.outbox
    ensures var w := W.Exec(c, W.Init(c), work);
            Launches(Notices(w.dropped)) + Launches(Notices(w.delivered)) <= LaunchesOf(Start(uri), steps)
  {
    var w := W.Exec(c, W.Init(c), work);
    W.InitInv(c);
    W.RunInv(c, W.Init(c), work);
    HandledNotices(w);
    LaunchesOfStart(Notices(w.dropped), Notices(w.delivered), Runs.Exec(Start(uri), steps).apps.plat.outbox);
    AllLaunches(uri, steps);
  }
}
