/**
 Asynchronous start, stop and state requests of server/plat/gdial-plat-app.c: each
 has a context in a hash table and a one-shot GLib source.  When the source fires,
 or is removed, its destroy notification takes the context out of the table, which
 frees it.  Between two turns of the main loop the state is what is described here.
 */
module Async {
  /** Which callback the source runs; only `START` has its own context type. */
  datatype Kind = START | STATE | STOP

  /** GDialPlatAppAsyncContext; async_gsource is in `source`, zero once detached. */
  class AsyncContext {
    const kind: Kind
    const name: string
    var source: nat

    constructor (kind: Kind, name: string, source: nat)
      ensures this.kind == kind && this.name == name && this.source == source
    {
      this.kind, this.name, this.source := kind, name, source;
    }
  }

  datatype Context = Context(kind: Kind, name: string, source: nat)

  /** `table` is gdial_plat_app_async_contexts, `sources` the pending GLib sources
      with the context each will be called with, `freed` the contexts freed so far. */
  datatype State = State(
    table: map<AsyncContext, Context>,
    sources: map<nat, AsyncContext>,
    freed: set<AsyncContext>
  )

  /** A new context and its source; nothing for the empty name. */
  function Created(s: State, c: AsyncContext, kind: Kind, name: string, source: nat): State {
    if name == "" then s
    else s.(table := s.table[c := Context(kind, name, source)], sources := s.sources[source := c])
  }

  /** What the destroy notification does to a context. */
  function Destroyed(s: State, c: AsyncContext): State
    requires c in s.table
  {
    s.(table := s.table - {c}, sources := s.sources - {s.table[c].source}, freed := s.freed + {c})
  }

  /** Stop callbacks, and start callbacks of the two applications the code knows,
      schedule a state request before they end. */
  predicate SchedulesState(k: Context) {
    k.kind == STOP || (k.kind == START && (k.name == "Netflix" || k.name == "Youtube"))
  }

  /** A source fires: its callback runs, then its destroy notification.  `next` and
      `nextSource` are the context and source of the state request, if there is one. */
  function Fired(s: State, source: nat, next: AsyncContext, nextSource: nat): State
    requires source in s.sources && s.sources[source] in s.table
    requires next !in s.table
  {
    var c := s.sources[source];
    var k := s.table[c];
    Destroyed(if SchedulesState(k) then Created(s, next, STATE, k.name, nextSource) else s, c)
  }

  /** The same with no next context when none is scheduled. */
  function FiredWith(s: State, source: nat, next: AsyncContext?, nextSource: nat): State
    requires source in s.sources && s.sources[source] in s.table
    requires next != null ==> next !in s.table
  {
    if next == null then Destroyed(s, s.sources[source]) else Fired(s, source, next, nextSource)
  }

  lemma FiredInParts(s: State, source: nat, next: AsyncContext?, nextSource: nat, mid: State)
    requires source in s.sources && s.sources[source] in s.table && s.table[s.sources[source]].name != ""
    requires next != null ==> next !in s.table
    requires next != null <==> SchedulesState(s.table[s.sources[source]])
    requires mid == if next != null then Created(s, next, STATE, s.table[s.sources[source]].name, nextSource) else s
    ensures FiredWith(s, source, next, nextSource) == Destroyed(mid, s.sources[source])
  {
  }

  /** Contexts in the table and pending sources are in bijection, and nothing freed
      is still in the table. */
  ghost predicate Paired(s: State) {
    && (forall c | c in s.table ::
          s.table[c].source != 0 && s.table[c].source in s.sources && s.sources[s.table[c].source] == c
          && c !in s.freed && s.table[c].name != "")
    && (forall i | i in s.sources :: s.sources[i] in s.table && s.table[s.sources[i]].source == i)
  }

  lemma CreatedPaired(s: State, c: AsyncContext, kind: Kind, name: string, source: nat)
    requires Paired(s) && c !in s.table && c !in s.freed && source != 0 && source !in s.sources
    ensures Paired(Created(s, c, kind, name, source))
  {
  }

  lemma DestroyedPaired(s: State, c: AsyncContext)
    requires Paired(s) && c in s.table
    ensures Paired(Destroyed(s, c))
  {
  }

  lemma FiredPaired(s: State, source: nat, next: AsyncContext, nextSource: nat)
    requires Paired(s) && source in s.sources
    requires next !in s.table && next !in s.freed && nextSource != 0 && nextSource !in s.sources
    ensures Paired(Fired(s, source, next, nextSource))
    ensures Fired(s, source, next, nextSource).freed == s.freed + {s.sources[source]}
    ensures s.sources[source] !in s.freed
  {
    var k := s.table[s.sources[source]];
    if SchedulesState(k) {
      CreatedPaired(s, next, STATE, k.name, nextSource);
    }
    DestroyedPaired(if SchedulesState(k) then Created(s, next, STATE, k.name, nextSource) else s, s.sources[source]);
  }

  /** What a firing leaves: every stop callback, and the start callbacks of "Netflix" and
      "Youtube", leave a new state request for the same application; no other callback
      leaves anything. */
  lemma FiringLeaves(s: State, source: nat, next: AsyncContext, nextSource: nat)
    requires Paired(s) && source in s.sources && next !in s.table && nextSource !in s.sources
    ensures var c := s.sources[source];
            var k := s.table[c];
            var f := Fired(s, source, next, nextSource);
            if k.kind == STOP || (k.kind == START && (k.name == "Netflix" || k.name == "Youtube")) then
              && f.table == (s.table - {c})[next := Context(STATE, k.name, nextSource)]
              && f.sources == (s.sources - {source})[nextSource := next]
            else
              f.table == s.table - {c} && f.sources == s.sources - {source}
  {
  }

  // ---------- draining ----------

  /** Start and stop contexts. */
  function Heavy(s: State): set<AsyncContext> {
    set c | c in s.table && s.table[c].kind != STATE
  }

  /** The contexts, start and stop ones counted twice. */
  function Measure(s: State): nat {
    |s.table| + |Heavy(s)|
  }

  /** Every firing makes the measure smaller, although callbacks schedule new work. */
  lemma FiredDecreases(s: State, source: nat, next: AsyncContext, nextSource: nat)
    requires Paired(s) && source in s.sources && next !in s.table
    ensures Measure(Fired(s, source, next, nextSource)) < Measure(s)
  {
    var c := s.sources[source];
    var k := s.table[c];
    var f := Fired(s, source, next, nextSource);
    if SchedulesState(k) {
      assert f.table.Keys == s.table.Keys - {c} + {next};
      assert Heavy(f) == Heavy(s) - {c};
    } else {
      assert f.table.Keys == s.table.Keys - {c};
      assert Heavy(f) <= Heavy(s);
      SubsetSize(Heavy(f), Heavy(s));
    }
  }

  lemma {:induction false} SubsetSize<T>(a: set<T>, b: set<T>)
    requires a <= b
    ensures |a| <= |b|
    decreases |a|
  {
    if x :| x in a {
      SubsetSize(a - {x}, b - {x});
    }
  }

  /** A run of firings: for each, the source and what it may schedule. */
  datatype Firing = Firing(source: nat, next: AsyncContext, nextSource: nat)

  ghost predicate CanFire(s: State, f: Firing) {
    f.source in s.sources && f.next !in s.table && f.next !in s.freed && f.nextSource != 0 && f.nextSource !in s.sources
  }

  ghost predicate Firings(s: State, fs: seq<Firing>)
    requires Paired(s)
    decreases |fs|
  {
    fs == []
    || (CanFire(s, fs[0])
        && Paired(Fired(s, fs[0].source, fs[0].next, fs[0].nextSource))
        && Firings(Fired(s, fs[0].source, fs[0].next, fs[0].nextSource), fs[1..]))
  }

  ghost function AfterFirings(s: State, fs: seq<Firing>): State
    requires Paired(s) && Firings(s, fs)
    decreases |fs|
  {
    if fs == [] then s else AfterFirings(Fired(s, fs[0].source, fs[0].next, fs[0].nextSource), fs[1..])
  }

  /** Any pending set drains, in whatever order sources fire: there are at most as
      many firings as the measure; each frees one context, none twice; and when no
      source is left to fire the table is empty, as the end of the service asks. */
  lemma {:induction false} FiringsDrain(s: State, fs: seq<Firing>)
    requires Paired(s) && Firings(s, fs)
    ensures var e := AfterFirings(s, fs);
            && Paired(e) && |fs| + Measure(e) <= Measure(s)
            && s.freed <= e.freed && |e.freed| == |s.freed| + |fs|
            && (e.sources == map[] <==> e.table == map[])
    decreases |fs|
  {
    if fs == [] {
      if s.sources == map[] {
        NoSourceNoContext(s);
      }
      if s.table == map[] {
        assert forall i :: i !in s.sources;
        assert s.sources == map[];
      }
    } else {
      var f := fs[0];
      FiredPaired(s, f.source, f.next, f.nextSource);
      FiredDecreases(s, f.source, f.next, f.nextSource);
      FiringsDrain(Fired(s, f.source, f.next, f.nextSource), fs[1..]);
    }
  }

  // ---------- every run ----------

  /** A request, a firing, or the removal of a context still alive. */
  datatype Event =
    | Requested(c: AsyncContext, kind: Kind, name: string, source: nat)
    | SourceFires(f: Firing)
    | Removed(c: AsyncContext)

  /** Allocation and GLib hand out contexts and sources that are new. */
  ghost predicate CanHappen(s: State, e: Event) {
    match e
    case Requested(c, _, _, source) => c !in s.table && c !in s.freed && source != 0 && source !in s.sources
    case SourceFires(f) => CanFire(s, f) && s.sources[f.source] in s.table
    case Removed(c) => c in s.table
  }

  function AfterEvent(s: State, e: Event): State
    requires CanHappen(s, e)
  {
    match e
    case Requested(c, kind, name, source) => Created(s, c, kind, name, source)
    case SourceFires(f) => Fired(s, f.source, f.next, f.nextSource)
    case Removed(c) => Destroyed(s, c)
  }

  /** The context an event creates, if it does. */
  function CreatedBy(s: State, e: Event): set<AsyncContext>
    requires CanHappen(s, e)
  {
    match e
    case Requested(c, _, name, _) => if name == "" then {} else {c}
    case SourceFires(f) =>
      var k := s.table[s.sources[f.source]];
      if SchedulesState(k) && k.name != "" then {f.next} else {}
    case Removed(_) => {}
  }

  ghost predicate Run(s: State, es: seq<Event>)
    decreases |es|
  {
    es == [] || (CanHappen(s, es[0]) && Run(AfterEvent(s, es[0]), es[1..]))
  }

  ghost function AfterRun(s: State, es: seq<Event>): State
    requires Run(s, es)
    decreases |es|
  {
    if es == [] then s else AfterRun(AfterEvent(s, es[0]), es[1..])
  }

  ghost function CreatedIn(s: State, es: seq<Event>): set<AsyncContext>
    requires Run(s, es)
    decreases |es|
  {
    if es == [] then {} else CreatedBy(s, es[0]) + CreatedIn(AfterEvent(s, es[0]), es[1..])
  }

  /** Firings and removals. */
  function Frees(es: seq<Event>): nat {
    if es == [] then 0 else (if es[0].Requested? then 0 else 1) + Frees(es[1..])
  }

  /** Every context there has been so far. */
  function Known(s: State): set<AsyncContext> {
    s.freed + s.table.Keys
  }

  lemma CreatedAccounts(s: State, c: AsyncContext, kind: Kind, name: string, source: nat)
    requires Paired(s) && c !in s.table && c !in s.freed && source != 0 && source !in s.sources
    ensures var s' := Created(s, c, kind, name, source);
            Paired(s') && s'.freed == s.freed && Known(s') == Known(s) + (if name == "" then {} else {c})
  {
    CreatedPaired(s, c, kind, name, source);
    if name != "" {
      assert Created(s, c, kind, name, source).table.Keys == s.table.Keys + {c};
    }
  }

  lemma DestroyedAccounts(s: State, c: AsyncContext)
    requires Paired(s) && c in s.table
    ensures var s' := Destroyed(s, c);
            Paired(s') && s.freed <= s'.freed && |s'.freed| == |s.freed| + 1 && Known(s') == Known(s)
  {
    DestroyedPaired(s, c);
    assert Destroyed(s, c).table.Keys == s.table.Keys - {c};
  }

  lemma FiredAccounts(s: State, f: Firing)
    requires Paired(s) && CanFire(s, f)
    ensures var s' := AfterEvent(s, SourceFires(f));
            && Paired(s') && s.freed <= s'.freed && |s'.freed| == |s.freed| + 1
            && Known(s') == Known(s) + CreatedBy(s, SourceFires(f))
  {
    var c := s.sources[f.source];
    var k := s.table[c];
    if SchedulesState(k) {
      var mid := Created(s, f.next, STATE, k.name, f.nextSource);
      CreatedAccounts(s, f.next, STATE, k.name, f.nextSource);
      assert AfterEvent(s, SourceFires(f)) == Destroyed(mid, c);
      DestroyedAccounts(mid, c);
    } else {
      DestroyedAccounts(s, c);
    }
  }

  lemma EventAccounts(s: State, e: Event)
    requires Paired(s) && CanHappen(s, e)
    ensures var s' := AfterEvent(s, e);
            && Paired(s') && s.freed <= s'.freed
            && |s'.freed| == |s.freed| + (if e.Requested? then 0 else 1)
            && Known(s') == Known(s) + CreatedBy(s, e)
  {
    match e
    case Requested(c, kind, name, source) => CreatedAccounts(s, c, kind, name, source);
    case SourceFires(f) => FiredAccounts(s, f);
    case Removed(c) => DestroyedAccounts(s, c);
  }

  /** Freed exactly once, over any mixture of requests, firings and removals: contexts
      and sources stay in bijection, each firing and each removal frees one context that
      was not freed before, a context ever created is either freed or still in the table,
      never both, and once no source is pending all of them are freed. */
  lemma {:induction false} FreedExactlyOnce(s: State, es: seq<Event>)
    requires Paired(s) && Run(s, es)
    ensures var e := AfterRun(s, es);
            && Paired(e)
            && s.freed <= e.freed && |e.freed| == |s.freed| + Frees(es)
            && Known(e) == Known(s) + CreatedIn(s, es)
            && e.freed !! e.table.Keys
            && (e.sources == map[] ==> e.freed == Known(s) + CreatedIn(s, es))
    decreases |es|
  {
    if es == [] {
      DisjointAndDrained(s);
    } else {
      var s' := AfterEvent(s, es[0]);
      EventAccounts(s, es[0]);
      FreedExactlyOnce(s', es[1..]);
      UnionAssoc(Known(s), CreatedBy(s, es[0]), CreatedIn(s', es[1..]));
    }
  }

  lemma UnionAssoc<T>(a: set<T>, b: set<T>, c: set<T>)
    ensures a + b + c == a + (b + c)
  {
  }

  lemma DisjointAndDrained(s: State)
    requires Paired(s)
    ensures s.freed !! s.table.Keys
    ensures s.sources == map[] ==> s.freed == Known(s)
  {
    if s.sources == map[] {
      NoSourceNoContext(s);
    }
  }

  lemma NoSourceNoContext(s: State)
    requires Paired(s) && s.sources == map[]
    ensures s.table == map[]
  {
    assert forall c :: c !in s.table;
  }

  // ---------- the module's state ----------

  class AsyncContexts {
    var contexts: set<AsyncContext>
    var sources: map<nat, AsyncContext>
    var lastSource: nat
    ghost var freed: set<AsyncContext>

    ghost function View(): State
      reads this, contexts
    {
      State(map c | c in contexts :: Context(c.kind, c.name, c.source), sources, freed)
    }

    /** GLib's source ids only grow. */
    ghost predicate Valid()
      reads this, contexts
    {
      Paired(View()) && forall i | i in sources :: i <= lastSource
    }

    constructor ()
      ensures Valid() && contexts == {} && freed == {}
    {
      contexts, sources, lastSource, freed := {}, map[], 0, {};
    }

    /** The three request functions: NULL for the empty name, otherwise a fresh
        context with its source. */
    method Request(kind: Kind, name: string) returns (c: AsyncContext?)
      requires Valid()
      modifies this
      ensures Valid() && freed == old(freed)
      ensures if name == "" then c == null && View() == old(View())
              else c != null && fresh(c) && lastSource == old(lastSource) + 1
                   && View() == Created(old(View()), c, kind, name, lastSource)
                   && contexts == old(contexts) + {c}
    {
      if name == "" {
        return null;
      }
      lastSource := lastSource + 1;
      var n := new AsyncContext(kind, name, lastSource);
      sources := sources[lastSource := n];
      contexts := contexts + {n};
      c := n;
      assert View() == Created(old(View()), n, kind, name, lastSource);
      CreatedPaired(old(View()), n, kind, name, lastSource);
    }

    /** The destroy notification of a source: the context is detached and freed. */
    method Destroy(c: AsyncContext)
      requires Valid() && c in contexts
      modifies this, c
      ensures Valid() && View() == Destroyed(old(View()), c)
      ensures contexts == old(contexts) - {c} && lastSource == old(lastSource)
    {
      DestroyedPaired(View(), c);
      sources := sources - {c.source};
      c.source := 0;
      contexts := contexts - {c};
      freed := freed + {c};
      assert View() == Destroyed(old(View()), c);
    }

    lemma SourceHasContext(source: nat)
      requires Valid() && source in sources
      ensures var c := sources[source];
              c in contexts && c.name != "" && View().table[c] == Context(c.kind, c.name, c.source)
    {
    }

    /** The three source callbacks: a state request may be scheduled. */
    method RunCallback(c: AsyncContext) returns (next: AsyncContext?)
      requires Valid() && c in contexts && c.name != ""
      modifies this
      ensures Valid() && freed == old(freed)
      ensures next != null <==> SchedulesState(Context(c.kind, c.name, c.source))
      ensures next != null ==> fresh(next) && View() == Created(old(View()), next, STATE, c.name, lastSource)
      ensures next == null ==> View() == old(View())
      ensures contexts == old(contexts) + (if next != null then {next} else {})
    {
      next := null;
      if c.kind == STOP || (c.kind == START && (c.name == "Netflix" || c.name == "Youtube")) {
        next := Request(STATE, c.name);
      }
    }

    /** One turn of the main loop: the given source fires, and is then destroyed. */
    method Fire(source: nat) returns (next: AsyncContext?)
      requires Valid() && source in sources
      modifies this, sources[source]
      ensures Valid() && (next != null ==> fresh(next))
      ensures View() == FiredWith(old(View()), source, next, lastSource)
      ensures next != null <==> SchedulesState(old(View()).table[old(sources)[source]])
      ensures contexts == old(contexts) - {old(sources)[source]} + (if next != null then {next} else {})
    {
      var c := sources[source];
      ghost var before := View();
      SourceHasContext(source);
      next := RunCallback(c);
      ghost var mid := View();
      FiredInParts(before, source, next, lastSource, mid);
      Destroy(c);
    }

    /** gdial_plat_application_remove_async_source, for a context still alive: its
        source is removed, and the notification frees it. */
    method RemoveAsyncSource(c: AsyncContext)
      requires Valid() && c in contexts
      modifies this, c
      ensures Valid() && View() == Destroyed(old(View()), c)
    {
      Destroy(c);
    }

    /** Letting the loop run until nothing is pending: it ends, with the table empty. */
    method Drain()
      requires Valid()
      modifies this, contexts
      ensures Valid() && contexts == {} && sources == map[]
      ensures old(contexts) + old(freed) <= freed
    {
      while sources != map[]
        invariant Valid()
        invariant forall c | c in contexts :: c in old(contexts) || fresh(c)
        invariant old(contexts) + old(freed) <= contexts + freed
        decreases Measure(View())
      {
        FireOne();
      }
      DisjointAndDrained(View());
      NoSourceNoContext(View());
    }

    /** Some pending source fires: the measure goes down and nobody is forgotten. */
    method FireOne()
      requires Valid() && sources != map[]
      modifies this, contexts
      ensures Valid() && Measure(View()) < old(Measure(View()))
      ensures forall c | c in contexts :: c in old(contexts) || fresh(c)
      ensures old(contexts) + old(freed) <= contexts + freed
    {
      var source :| source in sources;
      ghost var before := View();
      SourceHasContext(source);
      var next := Fire(source);
      if next != null {
        FiredDecreases(before, source, next, lastSource);
      } else {
        DestroyedDecreases(before, before.sources[source]);
      }
    }

    lemma DestroyedDecreases(s: State, c: AsyncContext)
      requires c in s.table
      ensures Measure(Destroyed(s, c)) < Measure(s)
    {
      assert Destroyed(s, c).table.Keys == s.table.Keys - {c};
      SubsetSize(Heavy(Destroyed(s, c)), Heavy(s));
    }
  }
}
