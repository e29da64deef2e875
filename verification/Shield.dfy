/**
 The connection shield of server/gdial-shield.c: each request gets a read timer and
 a weak reference when it starts, and loses both when it has been read, aborted or
 finalised; when the timer fires first, the connection is closed.  Messages and
 sockets are numbers; timers are GLib source ids, never zero.
 */
module Shield {
  datatype Conn = Conn(socket: int, timer: nat)

  /** `conns` is active_conns_; the rest belongs to GLib: the pending timers with the
      message they are for, the weak references, the messages that exist, and the
      sockets closed so far. */
  datatype State = State(
    conns: map<int, Conn>,
    timers: map<nat, int>,
    weak: multiset<int>,
    live: set<int>,
    closed: set<int>
  )

  datatype Event =
    | Started(msg: int, socket: int, timer: nat)
    | Read(msg: int)
    | Aborted(msg: int)
    | Timeout(timer: nat)
    | Finalized(msg: int)

  const EMPTY: State := State(map[], map[], multiset{}, {}, {})

  /** server_request_remove_callback. */
  function Removed(s: State, msg: int): State {
    if msg !in s.conns then s
    else s.(timers := if s.conns[msg].timer != 0 then s.timers - {s.conns[msg].timer} else s.timers,
            conns := s.conns - {msg})
  }

  /** GLib hands out timer ids that are not in use; read, aborted and finalised
      concern messages that exist; only pending timers fire. */
  predicate Enabled(s: State, e: Event) {
    match e
    case Started(_, _, timer) => timer != 0 && timer !in s.timers
    case Read(msg) => msg in s.live
    case Aborted(msg) => msg in s.live
    case Timeout(timer) => timer in s.timers
    case Finalized(msg) => msg in s.live
  }

  function After(s: State, e: Event): State
    requires Enabled(s, e)
  {
    match e
    case Started(msg, socket, timer) =>
      s.(conns := s.conns[msg := Conn(socket, timer)], timers := s.timers[timer := msg],
         weak := s.weak + multiset{msg}, live := s.live + {msg})
    case Read(msg) => Removed(s.(weak := s.weak - multiset{msg}), msg)
    case Aborted(msg) => Removed(s.(weak := s.weak - multiset{msg}), msg)
    case Timeout(timer) =>
      var msg := s.timers[timer];
      var s1 := s.(timers := s.timers - {timer});
      if msg in s.conns then
        s1.(conns := s.conns[msg := s.conns[msg].(timer := 0)], closed := s.closed + {s.conns[msg].socket})
      else s1
    case Finalized(msg) =>
      var s1 := if msg in s.weak then Removed(s, msg) else s;
      s1.(weak := s.weak[msg := 0], live := s.live - {msg})
  }

  /** A message is started once, before it is in the table. */
  predicate FreshStart(s: State, e: Event) {
    e.Started? ==> e.msg !in s.conns
  }

  /** Pending timers are exactly the non-zero ids recorded in the table. */
  ghost predicate TimersExact(s: State) {
    (forall t | t in s.timers :: t != 0 && s.timers[t] in s.conns && s.conns[s.timers[t]].timer == t)
    && (forall m | m in s.conns :: s.conns[m].timer != 0 ==>
          s.conns[m].timer in s.timers && s.timers[s.conns[m].timer] == m)
  }

  /** Weak references are exactly the keys of the table, one each, and the messages
      they refer to exist. */
  ghost predicate WeakExact(s: State) {
    forall m :: s.weak[m] == (if m in s.conns then 1 else 0) && (m in s.conns ==> m in s.live)
  }

  ghost predicate Inv(s: State) {
    TimersExact(s) && WeakExact(s)
  }

  lemma RemovedTimers(s: State, msg: int)
    requires TimersExact(s)
    ensures TimersExact(Removed(s, msg))
    ensures forall t | t in Removed(s, msg).timers :: Removed(s, msg).timers[t] != msg
  {
  }

  lemma StartedInvIff(s: State, msg: int, socket: int, timer: nat)
    requires Inv(s) && Enabled(s, Started(msg, socket, timer))
    ensures Inv(After(s, Started(msg, socket, timer))) <==> msg !in s.conns
  {
    var s' := After(s, Started(msg, socket, timer));
    assert s'.weak[msg] == s.weak[msg] + 1;
    if msg !in s.conns {
      assert TimersExact(s');
      assert WeakExact(s');
    } else {
      assert s'.weak[msg] == 2;
    }
  }

  lemma DoneInv(s: State, msg: int)
    requires Inv(s) && msg in s.live
    ensures Inv(After(s, Read(msg))) && After(s, Aborted(msg)) == After(s, Read(msg))
  {
    RemovedTimers(s.(weak := s.weak - multiset{msg}), msg);
  }

  lemma TimeoutInv(s: State, timer: nat)
    requires Inv(s) && timer in s.timers
    ensures Inv(After(s, Timeout(timer)))
  {
    var s' := After(s, Timeout(timer));
    assert TimersExact(s');
    assert WeakExact(s');
  }

  lemma FinalizedInv(s: State, msg: int)
    requires Inv(s) && msg in s.live
    ensures Inv(After(s, Finalized(msg)))
  {
    RemovedTimers(s, msg);
    assert msg in s.weak <==> s.weak[msg] > 0;
  }

  /** Every event keeps the invariant, if and only if it does not start a message
      that is already in the table. */
  lemma StepInvIff(s: State, e: Event)
    requires Inv(s) && Enabled(s, e)
    ensures Inv(After(s, e)) <==> FreshStart(s, e)
  {
    match e
    case Started(msg, socket, timer) => StartedInvIff(s, msg, socket, timer);
    case Read(msg) => DoneInv(s, msg);
    case Aborted(msg) => DoneInv(s, msg);
    case Timeout(timer) => TimeoutInv(s, timer);
    case Finalized(msg) => FinalizedInv(s, msg);
  }

  ghost predicate Legal(s: State, es: seq<Event>)
    decreases |es|
  {
    es == [] || (Enabled(s, es[0]) && FreshStart(s, es[0]) && Legal(After(s, es[0]), es[1..]))
  }

  ghost function Exec(s: State, es: seq<Event>): State
    requires Legal(s, es)
    decreases |es|
  {
    if es == [] then s else Exec(After(s, es[0]), es[1..])
  }

  lemma {:induction false} RunInv(s: State, es: seq<Event>)
    requires Inv(s) && Legal(s, es)
    ensures Inv(Exec(s, es))
    decreases |es|
  {
    if es != [] {
      StepInvIff(s, es[0]);
      RunInv(After(s, es[0]), es[1..]);
    }
  }

  /** In every run a pending timer is for a message that exists, is in the table and
      recorded under exactly that id, so a timeout always finds its connection. */
  lemma PendingTimerIsLive(es: seq<Event>, t: nat)
    requires Legal(EMPTY, es) && t in Exec(EMPTY, es).timers
    ensures var s := Exec(EMPTY, es);
            var m := s.timers[t];
            m in s.live && m in s.conns && s.conns[m].timer == t && s.weak[m] == 1
  {
    assert Inv(EMPTY);
    RunInv(EMPTY, es);
  }

  /** Once a request was read, aborted or finalised no timer can close it any more. */
  lemma DoneMeansDisarmed(s: State, e: Event)
    requires Inv(s) && Enabled(s, e) && (e.Read? || e.Aborted? || e.Finalized?)
    ensures var s' := After(s, e);
            e.msg !in s'.conns && s'.weak[e.msg] == 0
            && (forall t | t in s'.timers :: s'.timers[t] != e.msg) && s'.closed == s.closed
  {
    RemovedTimers(s, e.msg);
    RemovedTimers(s.(weak := s.weak - multiset{e.msg}), e.msg);
    assert e.msg in s.weak <==> s.weak[e.msg] > 0;
  }

  // ---------- which connections are closed ----------

  /** The request was read, aborted or finalised. */
  predicate Done(e: Event, msg: int) {
    (e.Read? || e.Aborted? || e.Finalized?) && e.msg == msg
  }

  /** Event i starts a request that is not done, and whose timer has not fired, before event k. */
  ghost predicate WaitingFrom(es: seq<Event>, i: nat, k: nat) {
    && i < k <= |es| && es[i].Started?
    && forall j | i < j < k :: !Done(es[j], es[i].msg) && es[j] != Timeout(es[i].timer)
  }

  /** Timer t is pending for a message with this socket. */
  predicate Armed(s: State, t: nat, msg: int, socket: int) {
    t in s.timers && s.timers[t] == msg && msg in s.conns && s.conns[msg] == Conn(socket, t)
  }

  /** Some request on this socket timed out. */
  ghost predicate TimedOut(es: seq<Event>, socket: int) {
    exists i: nat, k: nat ::
      k < |es| && WaitingFrom(es, i, k) && es[i].socket == socket && es[k] == Timeout(es[i].timer)
  }

  lemma {:induction false} ExecSnoc(s: State, es: seq<Event>, e: Event)
    requires Legal(s, es + [e])
    ensures Legal(s, es) && Enabled(Exec(s, es), e) && FreshStart(Exec(s, es), e)
    ensures Exec(s, es + [e]) == After(Exec(s, es), e)
    decreases |es|
  {
    var all := es + [e];
    if es == [] {
      assert all == [e] && all[1..] == [];
      assert Legal(s, []) && Exec(s, []) == s;
    } else {
      assert all[0] == es[0] && all[1..] == es[1..] + [e];
      ExecSnoc(After(s, es[0]), es[1..], e);
    }
  }

  lemma WaitingSnoc(es: seq<Event>, e: Event, i: nat)
    ensures forall k: nat | k <= |es| :: WaitingFrom(es + [e], i, k) <==> WaitingFrom(es, i, k)
    ensures i < |es| ==> (WaitingFrom(es + [e], i, |es| + 1)
                          <==> WaitingFrom(es, i, |es|) && !Done(e, es[i].msg) && e != Timeout(es[i].timer))
    ensures WaitingFrom(es + [e], |es|, |es| + 1) <==> e.Started?
  {
    var all := es + [e];
    assert forall j | 0 <= j < |es| :: all[j] == es[j];
    assert all[|es|] == e;
    forall k: nat | k <= |es| ensures WaitingFrom(all, i, k) <==> WaitingFrom(es, i, k) {
      if i < k {
        assert all[i] == es[i];
      }
    }
  }

  /** How one event arms and disarms. */
  lemma ArmedStep(s: State, e: Event, t: nat, msg: int, socket: int)
    requires Inv(s) && Enabled(s, e) && FreshStart(s, e)
    ensures Armed(After(s, e), t, msg, socket)
            <==> e == Started(msg, socket, t) || (Armed(s, t, msg, socket) && !Done(e, msg) && e != Timeout(t))
  {
    assert forall m :: m in s.weak <==> s.weak[m] > 0;
  }

  /** The pending timers after a run are those of the requests still waiting. */
  lemma {:induction false} ArmedIff(es: seq<Event>, t: nat, msg: int, socket: int)
    requires Legal(EMPTY, es)
    ensures Armed(Exec(EMPTY, es), t, msg, socket)
            <==> exists i: nat :: WaitingFrom(es, i, |es|) && es[i] == Started(msg, socket, t)
    decreases |es|
  {
    if es != [] {
      var front, e := es[..|es| - 1], es[|es| - 1];
      assert es == front + [e];
      ExecSnoc(EMPTY, front, e);
      assert Inv(EMPTY);
      RunInv(EMPTY, front);
      ArmedIff(front, t, msg, socket);
      ArmedStep(Exec(EMPTY, front), e, t, msg, socket);
      forall i: nat
        ensures WaitingFrom(es, i, |es|) && es[i] == Started(msg, socket, t)
                <==> || (i == |front| && e == Started(msg, socket, t))
                     || (WaitingFrom(front, i, |front|) && front[i] == Started(msg, socket, t)
                         && !Done(e, msg) && e != Timeout(t))
      {
        WaitingSnoc(front, e, i);
      }
    }
  }

  /** A pending timer that fires closes exactly the socket its request was started on. */
  lemma TimeoutCloses(es: seq<Event>, t: nat) returns (i: nat)
    requires Legal(EMPTY, es) && t in Exec(EMPTY, es).timers
    ensures WaitingFrom(es, i, |es|) && es[i].timer == t && es[i].msg == Exec(EMPTY, es).timers[t]
    ensures After(Exec(EMPTY, es), Timeout(t)).closed == Exec(EMPTY, es).closed + {es[i].socket}
  {
    var s := Exec(EMPTY, es);
    PendingTimerIsLive(es, t);
    var m := s.timers[t];
    ArmedIff(es, t, m, s.conns[m].socket);
    i :| WaitingFrom(es, i, |es|) && es[i] == Started(m, s.conns[m].socket, t);
  }

  lemma TimedOutSnoc(es: seq<Event>, e: Event, socket: int)
    ensures TimedOut(es + [e], socket)
            <==> TimedOut(es, socket)
                 || exists i: nat :: WaitingFrom(es, i, |es|) && es[i].socket == socket && e == Timeout(es[i].timer)
  {
    var all := es + [e];
    forall i: nat, k: nat | k <= |es| ensures WaitingFrom(all, i, k) <==> WaitingFrom(es, i, k) {
      WaitingSnoc(es, e, i);
    }
    assert forall j | 0 <= j < |es| :: all[j] == es[j];
    if TimedOut(all, socket) {
      var i: nat, k: nat :|
        k < |all| && WaitingFrom(all, i, k) && all[i].socket == socket && all[k] == Timeout(all[i].timer);
      if k < |es| {
        assert WaitingFrom(es, i, k) && es[k] == Timeout(es[i].timer);
      } else {
        assert WaitingFrom(es, i, |es|);
      }
    }
    if i: nat, k: nat :| k < |es| && WaitingFrom(es, i, k) && es[i].socket == socket && es[k] == Timeout(es[i].timer) {
      assert WaitingFrom(all, i, k) && all[k] == es[k] && all[i] == es[i];
    }
    if i: nat :| WaitingFrom(es, i, |es|) && es[i].socket == socket && e == Timeout(es[i].timer) {
      assert WaitingFrom(all, i, |es|) && all[|es|] == e && all[i] == es[i];
    }
  }

  lemma ClosedStep(s: State, e: Event)
    requires Enabled(s, e) && TimersExact(s)
    ensures After(s, e).closed == s.closed + (if e.Timeout? then {s.conns[s.timers[e.timer]].socket} else {})
  {
  }

  /** What the shield is for: over any run a connection is closed if and only if some
      request was started on its socket and the request's timer fired before it was read,
      aborted or finalised. */
  lemma {:induction false} ClosedIff(es: seq<Event>, socket: int)
    requires Legal(EMPTY, es)
    ensures socket in Exec(EMPTY, es).closed <==> TimedOut(es, socket)
    decreases |es|
  {
    if es != [] {
      var front, e := es[..|es| - 1], es[|es| - 1];
      assert es == front + [e];
      ExecSnoc(EMPTY, front, e);
      assert Inv(EMPTY);
      RunInv(EMPTY, front);
      ClosedIff(front, socket);
      TimedOutSnoc(front, e, socket);
      var s := Exec(EMPTY, front);
      ClosedStep(s, e);
      if e.Timeout? {
        var m := s.timers[e.timer];
        ArmedIff(front, e.timer, m, s.conns[m].socket);
        forall i: nat | WaitingFrom(front, i, |front|) && e == Timeout(front[i].timer)
          ensures front[i].socket == s.conns[m].socket
        {
          ArmedIff(front, e.timer, front[i].msg, front[i].socket);
        }
      }
    }
  }

  /** Removal is idempotent, and the order of removals does not matter. */
  lemma RemovalCommutes(s: State, a: int, b: int)
    requires TimersExact(s)
    ensures Removed(Removed(s, a), a) == Removed(s, a)
    ensures Removed(Removed(s, a), b) == Removed(Removed(s, b), a)
  {
    if a in s.conns && b in s.conns && a != b {
      var x, y := Removed(Removed(s, a), b), Removed(Removed(s, b), a);
      assert x.conns == y.conns;
      assert x.timers == y.timers;
    }
  }

  function RemovedAll(s: State, msgs: seq<int>): State
    decreases |msgs|
  {
    if msgs == [] then s else RemovedAll(Removed(s, msgs[0]), msgs[1..])
  }

  lemma NoConnsNoTimers(s: State)
    requires TimersExact(s) && s.conns == map[]
    ensures s.timers == map[]
  {
    forall t ensures t !in s.timers {
    }
  }

  /** gdial_shield_term, walking a snapshot of the keys: no timer is left pending and
      no connection in the table, but every weak reference stays behind. */
  lemma {:induction false} TermLeavesWeakRefs(s: State, msgs: seq<int>)
    requires TimersExact(s) && forall m | m in s.conns :: m in msgs
    ensures var e := RemovedAll(s, msgs);
            e.conns == map[] && e.timers == map[] && e.weak == s.weak && e.closed == s.closed
    decreases |msgs|
  {
    if msgs == [] {
      assert s.conns == map[] by {
        assert forall m :: m !in s.conns;
      }
      NoConnsNoTimers(s);
    } else {
      var s' := Removed(s, msgs[0]);
      RemovedTimers(s, msgs[0]);
      forall m | m in s'.conns ensures m in msgs[1..] {
        assert m in msgs;
        var i :| 0 <= i < |msgs| && msgs[i] == m;
        assert i > 0 && msgs[1..][i - 1] == m;
      }
      TermLeavesWeakRefs(s', msgs[1..]);
    }
  }

  // ---------- the object ----------

  class ConnContext {
    const readGsocket: int
    var readTimeoutSource: nat

    constructor (socket: int, source: nat)
      ensures readGsocket == socket && readTimeoutSource == source
    {
      readGsocket, readTimeoutSource := socket, source;
    }
  }

  function Views(m: map<int, ConnContext>): map<int, Conn>
    reads m.Values
  {
    map k | k in m :: Conn(m[k].readGsocket, m[k].readTimeoutSource)
  }

  lemma ViewsInsert(m: map<int, ConnContext>, k: int, c: ConnContext)
    ensures Views(m[k := c]) == Views(m)[k := Conn(c.readGsocket, c.readTimeoutSource)]
  {
  }

  /** active_conns_ and GLib's side of it.  `freed` records every context that was
      freed; none is freed twice or still in the table. */
  class ConnectionShield {
    var activeConns: map<int, ConnContext>
    var timers: map<nat, int>
    var weakRefs: multiset<int>
    var live: set<int>
    var closed: set<int>
    ghost var freed: set<ConnContext>

    ghost predicate Valid()
      reads this
    {
      (forall m | m in activeConns :: activeConns[m] !in freed)
      && forall m, n | m in activeConns && n in activeConns && m != n :: activeConns[m] != activeConns[n]
    }

    ghost function View(): State
      reads this, activeConns.Values
    {
      State(Views(activeConns), timers, weakRefs, live, closed)
    }

    constructor ()
      ensures Valid() && View() == EMPTY && freed == {}
    {
      activeConns, timers, weakRefs, live, closed := map[], map[], multiset{}, {}, {};
      freed := {};
    }

    method RequestStarted(msg: int, socket: int, timer: nat)
      requires Valid() && Enabled(View(), Started(msg, socket, timer))
      modifies this
      ensures Valid() && View() == After(old(View()), Started(msg, socket, timer)) && freed == old(freed)
    {
      var context := new ConnContext(socket, timer);
      ViewsInsert(activeConns, msg, context);
      timers := timers[timer := msg];
      activeConns := activeConns[msg := context];
      weakRefs := weakRefs + multiset{msg};
      live := live + {msg};
    }

    /** Exactly the context of `msg`, if there is one, is freed. */
    method RequestRemove(msg: int)
      requires Valid()
      modifies this
      ensures Valid() && View() == Removed(old(View()), msg)
      ensures freed == old(freed) + (if msg in old(activeConns) then {old(activeConns)[msg]} else {})
    {
      if msg in activeConns {
        var context := activeConns[msg];
        if context.readTimeoutSource != 0 {
          timers := timers - {context.readTimeoutSource};
        }
        activeConns := activeConns - {msg};
        freed := freed + {context};
      }
    }

    /** server_request_read_callback and server_request_aborted_callback. */
    method RequestDone(msg: int)
      requires Valid() && msg in live
      modifies this
      ensures Valid() && View() == After(old(View()), Read(msg)) == After(old(View()), Aborted(msg))
    {
      weakRefs := weakRefs - multiset{msg};
      RequestRemove(msg);
    }

    method ReadTimeout(timer: nat)
      requires Valid() && timer in timers
      modifies this, activeConns.Values
      ensures Valid() && View() == After(old(View()), Timeout(timer)) && freed == old(freed)
    {
      var msg := timers[timer];
      if msg in activeConns {
        var context := activeConns[msg];
        context.readTimeoutSource := 0;
        closed := closed + {context.readGsocket};
      }
      timers := timers - {timer};
      forall m | m in activeConns
        ensures View().conns[m] == (if m == msg then old(View()).conns[m].(timer := 0) else old(View()).conns[m])
      {
      }
    }

    /** A message is finalised: its weak reference, if any, is notified first. */
    method MessageFinalized(msg: int)
      requires Valid() && msg in live
      modifies this
      ensures Valid() && View() == After(old(View()), Finalized(msg))
    {
      if msg in weakRefs {
        RequestRemove(msg);
      }
      weakRefs := weakRefs[msg := 0];
      live := live - {msg};
    }

    method Term(msgs: seq<int>)
      requires Valid()
      modifies this
      ensures Valid() && View() == RemovedAll(old(View()), msgs)
    {
      var n := 0;
      while n < |msgs|
        invariant n <= |msgs| && Valid()
        invariant RemovedAll(View(), msgs[n..]) == RemovedAll(old(View()), msgs)
      {
        assert msgs[n..][1..] == msgs[n + 1..];
        RequestRemove(msgs[n]);
        n := n + 1;
      }
    }
  }
}
