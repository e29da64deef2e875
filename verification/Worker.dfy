/**
 The queue protocol shared by the request and the response worker of
 server/gdialservice.cpp: any number of producers push payloads under a mutex
 and raise the Run flag, one worker thread waits for the flag, tests the queue,
 clears the flag and pops without the mutex, and one controller raises Exit and
 then Run to stop the worker.

 The model is a transition system with one step for each shared access the code
 makes.  It assumes sequentially consistent flags and atomic queue operations.
 Holding the mutex across the test at line 640 is one step, because the only
 other writers of Run need the mutex too.
 */
module Worker {

  /** What a producer queues; `who` is bookkeeping, the code queues the payload. */
  datatype Item<P> = Item(who: nat, payload: P)

  /** Where the worker thread is, named by the line about to run (request worker). */
  datatype Pc =
    | Loop         // 629: test Exit, reset the local payload
    | Wait         // 639-641: take the mutex, test Run
    | Asleep       // 640: blocked on the condition variable
    | CheckExit    // 643
    | ClearOnExit  // 646-647
    | TestEmpty    // 650
    | ClearRun     // 652-653
    | Front        // 656
    | Pop          // 657
    | Dispatch     // 659-719
    | Leave        // 721, and 828 for the response worker
    | Done
    | Crashed      // 828 with no observer set: a null pointer is dereferenced

  /** How far the critical section of a sender or of the controller has come. */
  datatype Stage = Locked | Pushed | Flagged

  datatype Mutex = Free | Sending(who: nat, stage: Stage) | Stopping(stage: Stage)

  datatype Controller = Before | ExitRaised | Finished

  /** `scripts[i]` is what producer i sends, in order; `responder` selects the
      response worker, which calls onStopped before it ends. */
  datatype Config<P> = Config(scripts: seq<seq<P>>, responder: bool)

  datatype State<P> = State(
    queue: seq<Item<P>>,
    run: bool,
    exit: bool,
    pc: Pc,
    held: seq<Item<P>>,       // the worker's local payload: empty or one item
    mutex: Mutex,
    ctl: Controller,
    observer: bool,           // m_observer != nullptr
    cursor: seq<nat>,         // how many payloads each producer has pushed
    sent: seq<Item<P>>,       // every push so far
    dropped: seq<Item<P>>,    // popped while there was no observer
    delivered: seq<Item<P>>,  // popped and handed to the observer
    stops: seq<nat>           // |delivered| at each onStopped call
  )

  datatype Step =
    | Lock(i: nat) | Push | Flag | Notify          // sendRequest, notifyResponse
    | RaiseExit | StopLock | StopFlag | StopNotify // stop_GDialServer
    | SetObserver                                  // setService
    | Consume                                      // the worker's next line
    | Wakeup                                       // spurious wake-up

  function Init<P>(c: Config<P>): State<P> {
    State([], false, false, Loop, [], Free, Before, false, seq(|c.scripts|, _ => 0), [], [], [], [])
  }

  predicate Enabled<P>(c: Config<P>, s: State<P>, t: Step) {
    match t
    case Lock(i) => s.mutex == Free && i < |c.scripts| && i < |s.cursor| && s.cursor[i] < |c.scripts[i]|
    case Push => s.mutex.Sending? && s.mutex.stage == Locked
                 && s.mutex.who < |c.scripts| && s.mutex.who < |s.cursor|
                 && s.cursor[s.mutex.who] < |c.scripts[s.mutex.who]|
    case Flag => s.mutex.Sending? && s.mutex.stage == Pushed
    case Notify => s.mutex.Sending? && s.mutex.stage == Flagged
    case RaiseExit => s.ctl == Before
    case StopLock => s.mutex == Free && s.ctl == ExitRaised
    case StopFlag => s.mutex == Stopping(Locked)
    case StopNotify => s.mutex == Stopping(Flagged)
    case SetObserver => true
    case Consume => !Ended(s.pc) && s.pc != Asleep
                    && (s.pc == Wait ==> s.mutex == Free)
                    && (s.pc == Front || s.pc == Pop ==> s.queue != [])
                    && (s.pc == Dispatch ==> s.held != [])
    case Wakeup => s.pc == Asleep
  }

  predicate Ended(pc: Pc) {
    pc == Done || pc == Crashed
  }

  function Woken(pc: Pc): Pc {
    if pc == Asleep then Wait else pc
  }

  function Apply<P>(c: Config<P>, s: State<P>, t: Step): State<P>
    requires Enabled(c, s, t)
  {
    match t
    case Lock(i) => s.(mutex := Sending(i, Locked))
    case Push =>
      var i := s.mutex.who;
      var item := Item(i, c.scripts[i][s.cursor[i]]);
      s.(queue := s.queue + [item], sent := s.sent + [item],
         cursor := s.cursor[i := s.cursor[i] + 1], mutex := Sending(i, Pushed))
    case Flag => s.(run := true, mutex := Sending(s.mutex.who, Flagged))
    case Notify => s.(pc := Woken(s.pc), mutex := Free)
    case RaiseExit => s.(exit := true, ctl := ExitRaised)
    case StopLock => s.(mutex := Stopping(Locked))
    case StopFlag => s.(run := true, mutex := Stopping(Flagged))
    case StopNotify => s.(pc := Woken(s.pc), mutex := Free, ctl := Finished)
    case SetObserver => s.(observer := true)
    case Consume => ConsumeStep(c, s)
    case Wakeup => s.(pc := Wait)
  }

  function ConsumeStep<P>(c: Config<P>, s: State<P>): State<P>
    requires Enabled(c, s, Consume)
  {
    match s.pc
    case Loop => if s.exit then s.(pc := Leave) else s.(pc := Wait, held := [])
    case Wait => if s.run then s.(pc := CheckExit) else s.(pc := Asleep)
    case CheckExit => if s.exit then s.(pc := ClearOnExit) else s.(pc := TestEmpty)
    case ClearOnExit => s.(run := false, pc := Leave)
    case TestEmpty => if s.queue == [] then s.(pc := ClearRun) else s.(pc := Front)
    case ClearRun => s.(run := false, pc := Loop)
    case Front => s.(held := [s.queue[0]], pc := Pop)
    case Pop => s.(queue := s.queue[1..], pc := Dispatch)
    case Dispatch =>
      if s.observer then s.(delivered := s.delivered + s.held, held := [], pc := Loop)
      else s.(dropped := s.dropped + s.held, held := [], pc := Loop)
    case Leave =>
      if !c.responder then s.(pc := Done)
      else if s.observer then s.(stops := s.stops + [|s.delivered|], pc := Done)
      else s.(pc := Crashed)
    case _ => s
  }

  ghost predicate Legal<P>(c: Config<P>, s: State<P>, steps: seq<Step>)
    decreases |steps|
  {
    steps == [] || (Enabled(c, s, steps[0]) && Legal(c, Apply(c, s, steps[0]), steps[1..]))
  }

  ghost function Exec<P>(c: Config<P>, s: State<P>, steps: seq<Step>): State<P>
    requires Legal(c, s, steps)
    decreases |steps|
  {
    if steps == [] then s else Exec(c, Apply(c, s, steps[0]), steps[1..])
  }

  lemma Cons<P>(c: Config<P>, s: State<P>, t: Step, rest: seq<Step>)
    requires Enabled(c, s, t) && Legal(c, Apply(c, s, t), rest)
    ensures Legal(c, s, [t] + rest) && Exec(c, s, [t] + rest) == Exec(c, Apply(c, s, t), rest)
  {
    assert ([t] + rest)[1..] == rest;
  }

  lemma {:induction false} ExecConcat<P>(c: Config<P>, s: State<P>, a: seq<Step>, b: seq<Step>)
    requires Legal(c, s, a) && Legal(c, Exec(c, s, a), b)
    ensures Legal(c, s, a + b) && Exec(c, s, a + b) == Exec(c, Exec(c, s, a), b)
    decreases |a|
  {
    if a == [] {
      assert a + b == b;
    } else {
      ExecConcat(c, Apply(c, s, a[0]), a[1..], b);
      Cons(c, s, a[0], a[1..] + b);
      assert a + b == [a[0]] + (a[1..] + b);
    }
  }

  // ---------- what every interleaving keeps ----------

  /** Popped but not yet dispatched: at 659 the local payload has left the queue. */
  function InFlight<P>(s: State<P>): seq<Item<P>> {
    if s.pc == Dispatch then s.held else []
  }

  function From<P>(items: seq<Item<P>>, i: nat): seq<P> {
    if items == [] then []
    else if items[|items| - 1].who == i then From(items[..|items| - 1], i) + [items[|items| - 1].payload]
    else From(items[..|items| - 1], i)
  }

  /** The worker has seen Exit and left its loop. */
  predicate Leaving(pc: Pc) {
    pc == ClearOnExit || pc == Leave || Ended(pc)
  }

  /** Exit is up and the controller has raised Run. */
  predicate RunRaised<P>(s: State<P>) {
    s.ctl == Finished || s.mutex == Stopping(Flagged)
  }

  ghost predicate Local<P>(s: State<P>) {
    && (s.pc == Dispatch ==> |s.held| == 1)
    && (s.pc == Pop ==> s.queue != [] && s.held == [s.queue[0]])
    && (s.pc == Front ==> s.queue != [])
  }

  ghost predicate Fifo<P>(s: State<P>) {
    && s.sent == s.dropped + s.delivered + InFlight(s) + s.queue
    && (s.delivered != [] ==> s.observer)
    && Local(s)
  }

  /** Each producer's payloads were pushed in that producer's own order. */
  ghost predicate Ordered<P>(c: Config<P>, sent: seq<Item<P>>, cursor: seq<nat>) {
    && |cursor| == |c.scripts|
    && (forall i | 0 <= i < |c.scripts| ::
          cursor[i] <= |c.scripts[i]| && From(sent, i) == c.scripts[i][..cursor[i]])
  }

  /** A producer inside its critical section exists and has something to push. */
  predicate Sender<P>(c: Config<P>, m: Mutex, cursor: seq<nat>) {
    m.Sending? ==>
      && m.who < |c.scripts| && m.who < |cursor|
      && (m.stage == Locked ==> cursor[m.who] < |c.scripts[m.who]|)
  }

  /** Exit, the controller and the mutex fit together. */
  predicate Flags<P>(c: Config<P>, s: State<P>) {
    && (s.exit <==> s.ctl != Before)
    && (s.mutex.Stopping? ==> s.ctl == ExitRaised && s.mutex.stage != Pushed)
    && Sender(c, s.mutex, s.cursor)
  }

  ghost predicate Control<P>(c: Config<P>, s: State<P>) {
    && Flags(c, s)
    && (RunRaised(s) && (s.pc == Wait || s.pc == Asleep) ==> s.run)
    && (s.ctl == Finished ==> s.pc != Asleep)
    && (s.pc == Asleep ==> !s.run || (s.mutex != Free && s.mutex.stage == Flagged))
    && (Leaving(s.pc) ==> s.exit)
  }

  /** onStopped is called when the response worker ends, and never otherwise; the
      call can only fail in a response worker that has delivered nothing. */
  predicate Stopped<P>(c: Config<P>, s: State<P>) {
    && s.stops == (if c.responder && s.pc == Done then [|s.delivered|] else [])
    && (s.pc == Crashed ==> c.responder && s.delivered == [])
  }

  ghost predicate Inv<P>(c: Config<P>, s: State<P>) {
    Fifo(s) && Ordered(c, s.sent, s.cursor) && Control(c, s) && Stopped(c, s)
  }

  lemma InitInv<P>(c: Config<P>)
    ensures Inv(c, Init(c))
  {
  }

  lemma FromSnoc<P>(items: seq<Item<P>>, item: Item<P>, i: nat)
    ensures From(items + [item], i) == From(items, i) + (if item.who == i then [item.payload] else [])
  {
    assert (items + [item])[..|items|] == items;
  }

  lemma PushOrdered<P>(c: Config<P>, s: State<P>)
    requires Inv(c, s) && Enabled(c, s, Push)
    ensures var s' := Apply(c, s, Push); Ordered(c, s'.sent, s'.cursor)
  {
    var s' := Apply(c, s, Push);
    var w := s.mutex.who;
    var item := Item(w, c.scripts[w][s.cursor[w]]);
    forall i | 0 <= i < |c.scripts|
      ensures s'.cursor[i] <= |c.scripts[i]| && From(s'.sent, i) == c.scripts[i][..s'.cursor[i]]
    {
      FromSnoc(s.sent, item, i);
    }
  }

  lemma PopFifo<P>(c: Config<P>, s: State<P>)
    requires Fifo(s) && Enabled(c, s, Consume) && s.pc == Pop
    ensures Fifo(ConsumeStep(c, s))
  {
    var s' := ConsumeStep(c, s);
    assert s.queue == [s.queue[0]] + s.queue[1..];
    assert s.dropped + s.delivered + [] + s.queue == s.dropped + s.delivered + s.held + s.queue[1..];
  }

  lemma DispatchFifo<P>(c: Config<P>, s: State<P>)
    requires Fifo(s) && Enabled(c, s, Consume) && s.pc == Dispatch
    ensures Fifo(ConsumeStep(c, s))
  {
    if s.observer {
      assert s.dropped + s.delivered + s.held + s.queue == s.dropped + (s.delivered + s.held) + [] + s.queue;
    } else {
      assert s.dropped + s.delivered + s.held + s.queue == (s.dropped + s.held) + s.delivered + [] + s.queue;
    }
  }

  lemma StepFifo<P>(c: Config<P>, s: State<P>, t: Step)
    requires Inv(c, s) && Enabled(c, s, t)
    ensures Fifo(Apply(c, s, t))
  {
    if t == Consume && s.pc == Pop {
      PopFifo(c, s);
    } else if t == Consume && s.pc == Dispatch {
      DispatchFifo(c, s);
    }
  }

  lemma StepOrdered<P>(c: Config<P>, s: State<P>, t: Step)
    requires Inv(c, s) && Enabled(c, s, t)
    ensures var s' := Apply(c, s, t); Ordered(c, s'.sent, s'.cursor)
  {
    if t == Push {
      PushOrdered(c, s);
    }
  }

  lemma ConsumeFlags<P>(c: Config<P>, s: State<P>)
    requires Flags(c, s) && Enabled(c, s, Consume)
    ensures Flags(c, ConsumeStep(c, s))
    ensures RunRaised(ConsumeStep(c, s)) == RunRaised(s)
  {
  }

  lemma ConsumeControl<P>(c: Config<P>, s: State<P>)
    requires Control(c, s) && Enabled(c, s, Consume)
    ensures Control(c, ConsumeStep(c, s))
  {
    ConsumeFlags(c, s);
  }

  lemma StepControl<P>(c: Config<P>, s: State<P>, t: Step)
    requires Control(c, s) && Enabled(c, s, t)
    ensures Control(c, Apply(c, s, t))
  {
    if t == Consume {
      ConsumeControl(c, s);
    }
  }

  lemma StepStopped<P>(c: Config<P>, s: State<P>, t: Step)
    requires Stopped(c, s) && Fifo(s) && Enabled(c, s, t)
    ensures Stopped(c, Apply(c, s, t))
  {
  }

  lemma StepInv<P>(c: Config<P>, s: State<P>, t: Step)
    requires Inv(c, s) && Enabled(c, s, t)
    ensures Inv(c, Apply(c, s, t))
  {
    StepFifo(c, s, t);
    StepControl(c, s, t);
    StepOrdered(c, s, t);
    StepStopped(c, s, t);
  }

  lemma {:induction false} RunInv<P>(c: Config<P>, s: State<P>, steps: seq<Step>)
    requires Inv(c, s) && Legal(c, s, steps)
    ensures Inv(c, Exec(c, s, steps))
    decreases |steps|
  {
    if steps != [] {
      StepInv(c, s, steps[0]);
      RunInv(c, Apply(c, s, steps[0]), steps[1..]);
    }
  }

  /** In every reachable state nothing was lost, duplicated or reordered, each
      producer's payloads are there in that producer's own order, and only the
      payloads that came before the observer was set were dropped. */
  lemma FifoConservation<P>(c: Config<P>, steps: seq<Step>)
    requires Legal(c, Init(c), steps)
    ensures var s := Exec(c, Init(c), steps);
            && s.sent == s.dropped + s.delivered + InFlight(s) + s.queue
            && (s.delivered != [] ==> s.observer)
            && |s.cursor| == |c.scripts|
            && forall i | 0 <= i < |c.scripts| ::
                 s.cursor[i] <= |c.scripts[i]|
                 && From(s.dropped + s.delivered + InFlight(s) + s.queue, i) == c.scripts[i][..s.cursor[i]]
  {
    InitInv(c);
    RunInv(c, Init(c), steps);
  }

  // ---------- shutdown ----------

  function CountConsume(steps: seq<Step>): nat {
    if steps == [] then 0
    else (if steps[0] == Consume then 1 else 0) + CountConsume(steps[1..])
  }

  /** Upper bound on the worker's own steps before it is done, once Exit is up
      and the controller has raised Run. */
  function Remaining(pc: Pc): nat {
    match pc
    case TestEmpty => 6
    case Front => 5
    case Asleep => 5
    case Wait => 4
    case Pop => 4
    case CheckExit => 3
    case ClearRun => 3
    case Dispatch => 3
    case Loop => 2
    case ClearOnExit => 2
    case Leave => 1
    case Done => 0
    case Crashed => 0
  }

  /** How many payloads the worker can still pop once Exit is up. */
  function PopsLeft(pc: Pc): nat {
    if pc == TestEmpty || pc == Front || pc == Pop then 1 else 0
  }

  function Popped<P>(s: State<P>): nat {
    |s.dropped| + |s.delivered| + |InFlight(s)|
  }

  lemma ExitStep<P>(c: Config<P>, s: State<P>, t: Step)
    requires Local(s) && Enabled(c, s, t) && s.exit
    ensures Apply(c, s, t).exit
    ensures Popped(Apply(c, s, t)) + PopsLeft(Apply(c, s, t).pc) <= Popped(s) + PopsLeft(s.pc)
  {
  }

  lemma FinishedStep<P>(c: Config<P>, s: State<P>, t: Step)
    requires Control(c, s) && Enabled(c, s, t) && s.ctl == Finished
    ensures Apply(c, s, t).ctl == Finished
    ensures Remaining(Apply(c, s, t).pc) + (if t == Consume then 1 else 0) <= Remaining(s.pc)
  {
  }

  /** Once Exit is up, at most one more payload is popped, whatever happens. */
  lemma {:induction false} AtMostOneMorePop<P>(c: Config<P>, s: State<P>, steps: seq<Step>)
    requires Inv(c, s) && s.exit && Legal(c, s, steps)
    ensures Popped(Exec(c, s, steps)) <= Popped(s) + PopsLeft(s.pc) <= Popped(s) + 1
    decreases |steps|
  {
    if steps != [] {
      ExitStep(c, s, steps[0]);
      StepInv(c, s, steps[0]);
      AtMostOneMorePop(c, Apply(c, s, steps[0]), steps[1..]);
    }
  }

  lemma {:induction false} ConsumeBudget<P>(c: Config<P>, s: State<P>, steps: seq<Step>)
    requires Inv(c, s) && s.ctl == Finished && Legal(c, s, steps)
    ensures Exec(c, s, steps).ctl == Finished
    ensures CountConsume(steps) + Remaining(Exec(c, s, steps).pc) <= Remaining(s.pc)
    decreases |steps|
  {
    if steps != [] {
      FinishedStep(c, s, steps[0]);
      StepInv(c, s, steps[0]);
      ConsumeBudget(c, Apply(c, s, steps[0]), steps[1..]);
    }
  }

  /** The worker lowers Run on its way out, and it stays down unless someone raises it. */
  lemma {:induction false} ExitLowersRun<P>(c: Config<P>, s: State<P>, steps: seq<Step>)
    requires Legal(c, s, steps) && Flag !in steps && StopFlag !in steps
    requires s.pc == ClearOnExit || (!s.run && (s.pc == Leave || Ended(s.pc)))
    ensures Exec(c, s, steps).pc != ClearOnExit ==> !Exec(c, s, steps).run
    decreases |steps|
  {
    if steps != [] {
      assert steps[0] in steps;
      ExitLowersRun(c, Apply(c, s, steps[0]), steps[1..]);
    }
  }

  lemma NeverStuck<P>(c: Config<P>, s: State<P>)
    requires Inv(c, s) && s.ctl == Finished
    ensures s.pc != Asleep
    ensures Ended(s.pc) || Enabled(c, s, Consume)
            || (s.pc == Wait && s.mutex.Sending?
                && (Enabled(c, s, Push) || Enabled(c, s, Flag) || Enabled(c, s, Notify)))
  {
  }

  lemma ShutdownFrom<P>(c: Config<P>, s: State<P>, after: seq<Step>)
    requires Inv(c, s) && s.ctl == Finished && Legal(c, s, after)
    ensures var e := Exec(c, s, after);
            && e.pc != Asleep
            && (Ended(e.pc) || Enabled(c, e, Consume)
                || (e.pc == Wait && e.mutex.Sending?
                    && (Enabled(c, e, Push) || Enabled(c, e, Flag) || Enabled(c, e, Notify))))
            && CountConsume(after) + Remaining(e.pc) <= 6
            && Popped(e) <= Popped(s) + 1
  {
    RunInv(c, s, after);
    ConsumeBudget(c, s, after);
    AtMostOneMorePop(c, s, after);
    NeverStuck(c, Exec(c, s, after));
  }

  /** Guaranteed shutdown.  Take any run in which the controller has finished
      (`before`) and any continuation of it (`after`).  The worker is never
      asleep; unless it is done, its next step is enabled, except while it is at
      the wait and a producer is inside its critical section, which that producer
      can always leave; and it makes at most six steps of its own, popping at most
      one more payload, although it clears Run without the mutex. */
  lemma GuaranteedShutdown<P>(c: Config<P>, before: seq<Step>, after: seq<Step>)
    requires Legal(c, Init(c), before) && Legal(c, Exec(c, Init(c), before), after)
    requires Exec(c, Init(c), before).ctl == Finished
    ensures var s := Exec(c, Init(c), before);
            var e := Exec(c, s, after);
            && e.pc != Asleep
            && (Ended(e.pc) || Enabled(c, e, Consume)
                || (e.pc == Wait && e.mutex.Sending?
                    && (Enabled(c, e, Push) || Enabled(c, e, Flag) || Enabled(c, e, Notify))))
            && CountConsume(after) + Remaining(e.pc) <= 6
            && Popped(e) <= Popped(s) + 1
  {
    InitInv(c);
    RunInv(c, Init(c), before);
    ShutdownFrom(c, Exec(c, Init(c), before), after);
  }

  /** The response worker calls onStopped exactly when it is done, once, and after
      its last dispatch; the request worker never calls it.  Only a response worker
      that never delivered anything can end by the failing call instead. */
  lemma StoppedOnceAndLast<P>(c: Config<P>, steps: seq<Step>)
    requires Legal(c, Init(c), steps)
    ensures var e := Exec(c, Init(c), steps);
            && e.stops == (if c.responder && e.pc == Done then [|e.delivered|] else [])
            && (e.pc == Crashed ==> c.responder && e.delivered == [])
  {
    InitInv(c);
    RunInv(c, Init(c), steps);
  }

  /** The worker ends, and no observer is set on the way there. */
  ghost predicate EndsUnobserved<P>(c: Config<P>, s: State<P>, steps: seq<Step>)
    requires Legal(c, s, steps)
    decreases |steps|
  {
    Ended(s.pc)
    || (steps != [] && steps[0] != SetObserver && EndsUnobserved(c, Apply(c, s, steps[0]), steps[1..]))
  }

  /** How a response worker ends: by the failing call if and only if it gets there with
      no observer set, then or before. */
  lemma {:induction false} CrashIff<P>(c: Config<P>, s: State<P>, steps: seq<Step>)
    requires c.responder && !Ended(s.pc) && Legal(c, s, steps)
    ensures Exec(c, s, steps).pc == Crashed <==> !s.observer && EndsUnobserved(c, s, steps)
    decreases |steps|
  {
    if steps != [] {
      var s' := Apply(c, s, steps[0]);
      if Ended(s'.pc) {
        EndedStays(c, s', steps[1..]);
      } else {
        CrashIff(c, s', steps[1..]);
      }
    }
  }

  lemma {:induction false} EndedStays<P>(c: Config<P>, s: State<P>, steps: seq<Step>)
    requires Ended(s.pc) && Legal(c, s, steps)
    ensures Exec(c, s, steps).pc == s.pc
    decreases |steps|
  {
    if steps != [] {
      EndedStays(c, Apply(c, s, steps[0]), steps[1..]);
    }
  }

  /** Stopping the service before an observer was set crashes it. */
  lemma CrashRun<P>() returns (c: Config<P>, steps: seq<Step>)
    ensures Legal(c, Init(c), steps) && Exec(c, Init(c), steps).pc == Crashed
  {
    c := Config([], true);
    var s1 := Apply(c, Init(c), RaiseExit);
    var s2 := Apply(c, s1, Consume);
    var s3 := Apply(c, s2, Consume);
    assert Legal(c, s3, []) && Exec(c, s3, []) == s3;
    Cons(c, s2, Consume, []);
    Cons(c, s1, Consume, [Consume] + []);
    Cons(c, Init(c), RaiseExit, [Consume] + ([Consume] + []));
    steps := [RaiseExit] + ([Consume] + ([Consume] + []));
  }

  // ---------- wake-ups ----------

  /** A producer has pushed and is about to raise Run. */
  predicate FlagPending(m: Mutex) {
    m.Sending? && m.stage == Pushed
  }

  /** Queued payloads will be noticed: Run is up, or about to be raised, or the
      worker is on its way out. */
  predicate WakeOk<P>(s: State<P>) {
    s.queue == [] || s.run || FlagPending(s.mutex) || Leaving(s.pc)
  }

  /** The one harmful step: line 652 clears Run although a producer has pushed,
      and raised Run, since the emptiness test at 650. */
  predicate Window<P>(s: State<P>, t: Step) {
    t == Consume && s.pc == ClearRun && s.queue != [] && !FlagPending(s.mutex)
  }

  lemma WakeStep<P>(c: Config<P>, s: State<P>, t: Step)
    requires Inv(c, s) && WakeOk(s) && Enabled(c, s, t)
    ensures WakeOk(Apply(c, s, t)) <==> !Window(s, t)
  {
  }

  ghost predicate AlwaysWakeOk<P>(c: Config<P>, s: State<P>, steps: seq<Step>)
    requires Legal(c, s, steps)
    decreases |steps|
  {
    WakeOk(s) && (steps != [] ==> AlwaysWakeOk(c, Apply(c, s, steps[0]), steps[1..]))
  }

  ghost predicate NoWindow<P>(c: Config<P>, s: State<P>, steps: seq<Step>)
    requires Legal(c, s, steps)
    decreases |steps|
  {
    steps != [] ==> !Window(s, steps[0]) && NoWindow(c, Apply(c, s, steps[0]), steps[1..])
  }

  lemma {:induction false} WakeRun<P>(c: Config<P>, s: State<P>, steps: seq<Step>)
    requires Inv(c, s) && WakeOk(s) && Legal(c, s, steps)
    ensures AlwaysWakeOk(c, s, steps) <==> NoWindow(c, s, steps)
    decreases |steps|
  {
    if steps != [] {
      WakeStep(c, s, steps[0]);
      StepInv(c, s, steps[0]);
      if !Window(s, steps[0]) {
        WakeRun(c, Apply(c, s, steps[0]), steps[1..]);
      }
    }
  }

  /** Along any run the wake-up invariant holds throughout exactly when line 652
      never runs on a queue that has been refilled since line 650. */
  lemma WakeInvariantIff<P>(c: Config<P>, steps: seq<Step>)
    requires Legal(c, Init(c), steps)
    ensures AlwaysWakeOk(c, Init(c), steps) <==> NoWindow(c, Init(c), steps)
  {
    InitInv(c);
    WakeRun(c, Init(c), steps);
  }

  /** Runs in which 650 and 652 are one step: nothing comes between them. */
  ghost predicate Fused<P>(c: Config<P>, s: State<P>, steps: seq<Step>)
    requires Legal(c, s, steps)
    decreases |steps|
  {
    steps != [] ==> (s.pc == ClearRun ==> steps[0] == Consume) && Fused(c, Apply(c, s, steps[0]), steps[1..])
  }

  lemma FusedStep<P>(c: Config<P>, s: State<P>, t: Step)
    requires Enabled(c, s, t) && (s.pc == ClearRun ==> t == Consume && s.queue == [])
    ensures !Window(s, t) && (Apply(c, s, t).pc == ClearRun ==> Apply(c, s, t).queue == [])
  {
  }

  lemma {:induction false} FusedRun<P>(c: Config<P>, s: State<P>, steps: seq<Step>)
    requires Legal(c, s, steps) && Fused(c, s, steps)
    requires s.pc == ClearRun ==> s.queue == []
    ensures NoWindow(c, s, steps)
    decreases |steps|
  {
    if steps != [] {
      FusedStep(c, s, steps[0]);
      FusedRun(c, Apply(c, s, steps[0]), steps[1..]);
    }
  }

  /** With the emptiness test and the clearing of Run fused, a non-empty queue
      always implies that Run is up or about to be. */
  lemma AtomicTestNeverStrands<P>(c: Config<P>, steps: seq<Step>)
    requires Legal(c, Init(c), steps) && Fused(c, Init(c), steps)
    ensures AlwaysWakeOk(c, Init(c), steps)
  {
    FusedRun(c, Init(c), steps);
    WakeInvariantIff(c, steps);
  }

  // ---------- the stranded payload and its rescue ----------

  /** n consecutive steps of the worker, with nobody else moving. */
  ghost predicate CanRunAlone<P>(c: Config<P>, s: State<P>, n: nat)
    decreases n
  {
    n == 0 || (Enabled(c, s, Consume) && CanRunAlone(c, ConsumeStep(c, s), n - 1))
  }

  ghost function Alone<P>(c: Config<P>, s: State<P>, n: nat): State<P>
    requires CanRunAlone(c, s, n)
    decreases n
  {
    if n == 0 then s else Alone(c, ConsumeStep(c, s), n - 1)
  }

  function Consumes(n: nat): (steps: seq<Step>)
    ensures |steps| == n && forall i | 0 <= i < n :: steps[i] == Consume
  {
    seq(n, _ => Consume)
  }

  lemma {:induction false} AloneIsRun<P>(c: Config<P>, s: State<P>, n: nat)
    requires CanRunAlone(c, s, n)
    ensures Legal(c, s, Consumes(n)) && Exec(c, s, Consumes(n)) == Alone(c, s, n)
    decreases n
  {
    if n > 0 {
      AloneIsRun(c, ConsumeStep(c, s), n - 1);
      assert Consumes(n)[1..] == Consumes(n - 1);
    }
  }

  lemma ConsumesAdd<P>(c: Config<P>, s: State<P>, m: nat, n: nat)
    requires Legal(c, s, Consumes(m)) && Legal(c, Exec(c, s, Consumes(m)), Consumes(n))
    ensures Legal(c, s, Consumes(m + n))
    ensures Exec(c, s, Consumes(m + n)) == Exec(c, Exec(c, s, Consumes(m)), Consumes(n))
  {
    assert Consumes(m) + Consumes(n) == Consumes(m + n);
    ExecConcat(c, s, Consumes(m), Consumes(n));
  }

  /** One undisturbed sendRequest. */
  function Send(i: nat): seq<Step> {
    [Lock(i), Push, Flag, Notify]
  }

  lemma SendBlock<P>(c: Config<P>, s: State<P>, i: nat)
    requires Enabled(c, s, Lock(i))
    ensures Legal(c, s, Send(i))
    ensures var item := Item(i, c.scripts[i][s.cursor[i]]);
            Exec(c, s, Send(i)) == s.(queue := s.queue + [item], sent := s.sent + [item], run := true,
                                      pc := Woken(s.pc), cursor := s.cursor[i := s.cursor[i] + 1])
  {
    var s1 := Apply(c, s, Lock(i));
    var s2 := Apply(c, s1, Push);
    var s3 := Apply(c, s2, Flag);
    var s4 := Apply(c, s3, Notify);
    assert Legal(c, s4, []) && Exec(c, s4, []) == s4;
    assert Legal(c, s3, [Notify]) && Exec(c, s3, [Notify]) == s4;
    assert [Flag, Notify][1..] == [Notify];
    assert Legal(c, s2, [Flag, Notify]) && Exec(c, s2, [Flag, Notify]) == s4;
    assert [Push, Flag, Notify][1..] == [Flag, Notify];
    assert Legal(c, s1, [Push, Flag, Notify]) && Exec(c, s1, [Push, Flag, Notify]) == s4;
    assert Send(i)[1..] == [Push, Flag, Notify];
  }

  /** Once round the loop with something queued: one payload is delivered. */
  lemma DeliverOne<P>(c: Config<P>, s: State<P>)
    requires s.pc == Wait && s.run && !s.exit && s.mutex == Free && s.observer && s.queue != []
    ensures CanRunAlone(c, s, 7)
    ensures Alone(c, s, 7) == s.(delivered := s.delivered + [s.queue[0]], queue := s.queue[1..], held := [])
  {
    var s1 := ConsumeStep(c, s);
    var s2 := ConsumeStep(c, s1);
    var s3 := ConsumeStep(c, s2);
    var s4 := ConsumeStep(c, s3);
    var s5 := ConsumeStep(c, s4);
    var s6 := ConsumeStep(c, s5);
    var s7 := ConsumeStep(c, s6);
    assert CanRunAlone(c, s6, 1) && Alone(c, s6, 1) == s7;
    assert CanRunAlone(c, s5, 2) && Alone(c, s5, 2) == s7;
    assert CanRunAlone(c, s4, 3) && Alone(c, s4, 3) == s7;
    assert CanRunAlone(c, s3, 4) && Alone(c, s3, 4) == s7;
    assert CanRunAlone(c, s2, 5) && Alone(c, s2, 5) == s7;
    assert CanRunAlone(c, s1, 6) && Alone(c, s1, 6) == s7;
  }

  lemma DeliverOneRun<P>(c: Config<P>, s: State<P>)
    requires s.pc == Wait && s.run && !s.exit && s.mutex == Free && s.observer && s.queue != [] && s.held == []
    ensures Legal(c, s, Consumes(7))
    ensures Exec(c, s, Consumes(7)) == s.(delivered := s.delivered + [s.queue[0]], queue := s.queue[1..])
  {
    DeliverOne(c, s);
    AloneIsRun(c, s, 7);
  }

  /** Left alone at the wait with Run up, the worker delivers the whole queue in order. */
  lemma {:induction false} Drain<P>(c: Config<P>, s: State<P>)
    requires s.pc == Wait && s.run && !s.exit && s.mutex == Free && s.observer && s.held == []
    ensures Legal(c, s, Consumes(7 * |s.queue|))
    ensures var e := Exec(c, s, Consumes(7 * |s.queue|)); e.queue == [] && e.delivered == s.delivered + s.queue
    decreases |s.queue|
  {
    var n := |s.queue|;
    if n > 0 {
      DeliverOneRun(c, s);
      var s' := Exec(c, s, Consumes(7));
      Drain(c, s');
      ConsumesAdd(c, s, 7, 7 * (n - 1));
      assert s'.delivered + s'.queue == s.delivered + s.queue;
    }
  }

  /** Payloads are queued, Run is down and the worker sleeps. */
  predicate Stranded<P>(s: State<P>) {
    s.queue != [] && !s.run && s.pc == Asleep && s.mutex == Free
  }

  /** A stranded worker stays where it is: until a producer or the controller
      raises Run again, every run leaves Run down and pops nothing, spurious
      wake-ups included. */
  lemma {:induction false} StrandedUntilFlag<P>(c: Config<P>, s: State<P>, steps: seq<Step>)
    requires !s.run && (s.pc == Asleep || s.pc == Wait) && Legal(c, s, steps)
    requires Flag !in steps && StopFlag !in steps
    ensures var e := Exec(c, s, steps);
            !e.run && (e.pc == Asleep || e.pc == Wait) && e.dropped == s.dropped && e.delivered == s.delivered
            && s.queue <= e.queue && (RaiseExit !in steps ==> e.exit == s.exit)
    decreases |steps|
  {
    if steps != [] {
      assert steps[0] in steps;
      StrandedUntilFlag(c, Apply(c, s, steps[0]), steps[1..]);
    }
  }

  /** A rescue exists: after one undisturbed send the worker, left alone, delivers the
      stranded payloads and the new one, in order. */
  lemma RescueRun<P>(c: Config<P>, s: State<P>, i: nat)
    requires Stranded(s) && !s.exit && s.observer && s.held == [] && Enabled(c, s, Lock(i))
    ensures var steps := Send(i) + Consumes(7 * (|s.queue| + 1));
            && Legal(c, s, steps)
            && Exec(c, s, steps).queue == []
            && Exec(c, s, steps).delivered == s.delivered + s.queue + [Item(i, c.scripts[i][s.cursor[i]])]
  {
    SendBlock(c, s, i);
    var s' := Exec(c, s, Send(i));
    Drain(c, s');
    ExecConcat(c, s, Send(i), Consumes(7 * |s'.queue|));
    assert s.delivered + s.queue + [Item(i, c.scripts[i][s.cursor[i]])]
        == s.delivered + (s.queue + [Item(i, c.scripts[i][s.cursor[i]])]);
  }

  /** Raising Run re-opens the wake-up invariant, stranded payloads included, and
      it then holds in every interleaving for as long as the window is not hit. */
  lemma FlagRestoresWake<P>(c: Config<P>, s: State<P>, steps: seq<Step>)
    requires Inv(c, s) && Enabled(c, s, Flag) && Legal(c, Apply(c, s, Flag), steps)
    ensures AlwaysWakeOk(c, Apply(c, s, Flag), steps) <==> NoWindow(c, Apply(c, s, Flag), steps)
  {
    StepInv(c, s, Flag);
    WakeRun(c, Apply(c, s, Flag), steps);
  }

  function Handled<P>(s: State<P>): nat {
    |s.dropped| + |s.delivered|
  }

  /** Run is up, Exit is not, and the worker is on its way to dispatch something. */
  predicate Busy<P>(s: State<P>) {
    s.run && !s.exit && (s.pc == Dispatch || (s.queue != [] && ToDispatch(s.pc) > 1))
  }

  /** Worker steps up to and including the next dispatch. */
  function ToDispatch(pc: Pc): nat {
    match pc
    case Loop => 7
    case Wait => 6
    case Asleep => 6
    case CheckExit => 5
    case TestEmpty => 4
    case Front => 3
    case Pop => 2
    case Dispatch => 1
    case _ => 0
  }

  lemma BusyStep<P>(c: Config<P>, s: State<P>, t: Step)
    requires Local(s) && Busy(s) && Enabled(c, s, t) && t != RaiseExit
    ensures var s' := Apply(c, s, t);
            || Handled(s') > Handled(s)
            || (Busy(s') && Handled(s') == Handled(s)
                && ToDispatch(s'.pc) + (if t == Consume then 1 else 0) == ToDispatch(s.pc))
  {
  }

  lemma HandledStep<P>(c: Config<P>, s: State<P>, t: Step)
    requires Enabled(c, s, t)
    ensures Handled(Apply(c, s, t)) >= Handled(s)
  {
  }

  lemma {:induction false} HandledGrows<P>(c: Config<P>, s: State<P>, steps: seq<Step>)
    requires Legal(c, s, steps)
    ensures Handled(Exec(c, s, steps)) >= Handled(s)
    decreases |steps|
  {
    if steps != [] {
      HandledStep(c, s, steps[0]);
      HandledGrows(c, Apply(c, s, steps[0]), steps[1..]);
    }
  }

  /** Payloads popped but not dispatched, and payloads queued. */
  function Waiting<P>(s: State<P>): nat {
    |InFlight(s)| + |s.queue|
  }

  lemma DispatchStep<P>(c: Config<P>, s: State<P>, t: Step)
    requires Local(s) && Busy(s) && Enabled(c, s, t) && t != RaiseExit
    ensures var s' := Apply(c, s, t);
            if s.pc == Dispatch && t == Consume then
              Handled(s') == Handled(s) + 1 && Waiting(s') == Waiting(s) - 1
              && s'.pc == Loop && s'.run && !s'.exit
            else Handled(s') == Handled(s) && Waiting(s') >= Waiting(s)
  {
  }

  /** Progress for any number of payloads, under every interleaving: with Run up and
      n payloads popped or queued, seven worker steps for each dispatch all n,
      however they are mixed with anyone else's; later hits of the window included. */
  lemma {:induction false} DispatchesMany<P>(c: Config<P>, s: State<P>, steps: seq<Step>, n: nat)
    requires Inv(c, s) && Legal(c, s, steps) && RaiseExit !in steps
    requires s.run && !s.exit && ToDispatch(s.pc) > 0 && 0 < n <= Waiting(s)
    requires CountConsume(steps) >= 7 * (n - 1) + ToDispatch(s.pc)
    ensures Handled(Exec(c, s, steps)) >= Handled(s) + n
    decreases |steps|
  {
    assert steps[0] in steps;
    var s' := Apply(c, s, steps[0]);
    BusyStep(c, s, steps[0]);
    DispatchStep(c, s, steps[0]);
    StepInv(c, s, steps[0]);
    if Handled(s') == Handled(s) {
      DispatchesMany(c, s', steps[1..], n);
    } else if n > 1 {
      DispatchesMany(c, s', steps[1..], n - 1);
    } else {
      HandledGrows(c, s', steps[1..]);
    }
  }

  lemma SentStep<P>(c: Config<P>, s: State<P>, t: Step)
    requires Enabled(c, s, t)
    ensures var s' := Apply(c, s, t);
            s.sent <= s'.sent && (s.observer ==> s'.observer && s'.dropped == s.dropped)
  {
    if t == Push {
      assert Apply(c, s, t).sent[..|s.sent|] == s.sent;
    }
  }

  lemma {:induction false} SentGrows<P>(c: Config<P>, s: State<P>, steps: seq<Step>)
    requires Legal(c, s, steps)
    ensures s.sent <= Exec(c, s, steps).sent
    ensures s.observer ==> Exec(c, s, steps).dropped == s.dropped
    decreases |steps|
  {
    if steps != [] {
      SentStep(c, s, steps[0]);
      SentGrows(c, Apply(c, s, steps[0]), steps[1..]);
    }
  }

  /** Once Run is up, everything sent so far is dispatched, in the order it was sent,
      in every interleaving that gives the worker seven steps for each payload. */
  lemma SentIsDispatched<P>(c: Config<P>, s: State<P>, steps: seq<Step>)
    requires Inv(c, s) && Legal(c, s, steps) && RaiseExit !in steps
    requires s.run && !s.exit && ToDispatch(s.pc) > 0
    requires CountConsume(steps) >= 7 * Waiting(s)
    ensures var e := Exec(c, s, steps);
            && s.sent <= e.dropped + e.delivered
            && (s.observer ==> s.delivered + (InFlight(s) + s.queue) <= e.delivered)
  {
    if Waiting(s) > 0 {
      DispatchesMany(c, s, steps, Waiting(s));
    } else {
      HandledGrows(c, s, steps);
    }
    RunInv(c, s, steps);
    SentGrows(c, s, steps);
    FifoPrefix(s, Exec(c, s, steps));
  }

  /** Enough payloads handled, and the queue discipline: they are those sent first. */
  lemma FifoPrefix<P>(s: State<P>, e: State<P>)
    requires Fifo(s) && Fifo(e) && s.sent <= e.sent && Handled(e) >= Handled(s) + Waiting(s)
    ensures s.sent <= e.dropped + e.delivered
    ensures s.dropped == e.dropped ==> s.delivered + (InFlight(s) + s.queue) <= e.delivered
  {
    var ready := InFlight(s) + s.queue;
    var left := InFlight(e) + e.queue;
    assert s.sent == s.dropped + (s.delivered + ready);
    assert e.sent == (e.dropped + e.delivered) + left;
    PrefixOfBoth(s.sent, e.sent, e.dropped + e.delivered, left);
    if s.dropped == e.dropped {
      PrefixAfter(s.dropped, s.delivered + ready, e.delivered);
    }
  }

  lemma PrefixOfBoth<T>(a: seq<T>, whole: seq<T>, b: seq<T>, rest: seq<T>)
    requires a <= whole && whole == b + rest && |a| <= |b|
    ensures a <= b
  {
    assert a == whole[..|a|] == b[..|a|];
  }

  lemma PrefixAfter<T>(front: seq<T>, a: seq<T>, b: seq<T>)
    requires front + a <= front + b
    ensures a <= b
  {
    assert (front + b)[|front|..|front| + |a|] == (front + a)[|front|..];
    assert a == (front + a)[|front|..] && b[..|a|] == (front + b)[|front|..|front| + |a|];
  }

  /** The next send rescues everything, in every interleaving.  Take a worker stranded
      on its queue, any run up to the moment some producer raises Run, and any
      continuation that gives the worker seven steps for each payload then queued:
      the stranded payloads come first in that queue, and all that was sent by then
      has been dispatched, in order. */
  lemma NextSendRecoversAll<P>(c: Config<P>, s: State<P>, before: seq<Step>, after: seq<Step>)
    requires Inv(c, s) && Stranded(s) && !s.exit && Legal(c, s, before)
    requires Flag !in before && StopFlag !in before && RaiseExit !in before && RaiseExit !in after
    requires Enabled(c, Exec(c, s, before), Flag) && Legal(c, Apply(c, Exec(c, s, before), Flag), after)
    requires CountConsume(after) >= 7 * |Exec(c, s, before).queue|
    ensures var f := Apply(c, Exec(c, s, before), Flag);
            var e := Exec(c, f, after);
            && s.queue <= f.queue
            && f.sent <= e.dropped + e.delivered
            && (f.observer ==> f.delivered + f.queue <= e.delivered)
  {
    StrandedUntilFlag(c, s, before);
    RunInv(c, s, before);
    var f := Apply(c, Exec(c, s, before), Flag);
    StepInv(c, Exec(c, s, before), Flag);
    SentIsDispatched(c, f, after);
    assert InFlight(f) + f.queue == f.queue;
  }

  /** The steps asked for are there to be taken: while Run is up the worker can always
      move, unless someone else holds the mutex it needs or is about to wake it, and
      that thread can move. */
  lemma RunUpNeverStuck<P>(c: Config<P>, s: State<P>)
    requires Inv(c, s) && s.run
    ensures Ended(s.pc) || Enabled(c, s, Consume)
            || (s.mutex != Free && (s.pc == Wait || s.pc == Asleep)
                && (Enabled(c, s, Push) || Enabled(c, s, Flag) || Enabled(c, s, Notify)
                    || Enabled(c, s, StopFlag) || Enabled(c, s, StopNotify)))
  {
  }

  /** With the queue found empty at 650 and refilled before 652, the worker
      clears Run and goes to sleep on what was sent. */
  lemma StrandAtClear<P>(c: Config<P>, s: State<P>, i: nat)
    requires s.pc == ClearRun && !s.exit && s.held == [] && Enabled(c, s, Lock(i))
    ensures var steps := Send(i) + Consumes(3);
            && Legal(c, s, steps) && Stranded(Exec(c, s, steps))
            && Exec(c, s, steps).queue == s.queue + [Item(i, c.scripts[i][s.cursor[i]])]
  {
    SendBlock(c, s, i);
    var s0 := Exec(c, s, Send(i));
    var s1 := ConsumeStep(c, s0);
    var s2 := ConsumeStep(c, s1);
    var s3 := ConsumeStep(c, s2);
    assert CanRunAlone(c, s2, 1) && Alone(c, s2, 1) == s3;
    assert CanRunAlone(c, s1, 2) && Alone(c, s1, 2) == s3;
    assert CanRunAlone(c, s0, 3) && Alone(c, s0, 3) == s3;
    AloneIsRun(c, s0, 3);
    ExecConcat(c, s, Send(i), Consumes(3));
  }

  lemma ClearOnEmpty<P>(c: Config<P>, s: State<P>)
    requires s.pc == Wait && s.run && !s.exit && s.mutex == Free && s.queue == []
    ensures Legal(c, s, Consumes(3)) && Exec(c, s, Consumes(3)) == s.(pc := ClearRun)
  {
    var s1 := ConsumeStep(c, s);
    var s2 := ConsumeStep(c, s1);
    var s3 := ConsumeStep(c, s2);
    assert CanRunAlone(c, s2, 1) && Alone(c, s2, 1) == s3;
    assert CanRunAlone(c, s1, 2) && Alone(c, s1, 2) == s3;
    assert CanRunAlone(c, s, 3) && Alone(c, s, 3) == s3;
    AloneIsRun(c, s, 3);
  }

  /** With one payload queued, ten steps bring the worker to line 652. */
  lemma ReachClear<P>(c: Config<P>, s: State<P>)
    requires s.pc == Wait && s.run && !s.exit && s.mutex == Free && s.observer && |s.queue| == 1 && s.held == []
    ensures Legal(c, s, Consumes(10))
    ensures Exec(c, s, Consumes(10)) == s.(delivered := s.delivered + [s.queue[0]], queue := [], pc := ClearRun)
  {
    DeliverOneRun(c, s);
    var s7 := Exec(c, s, Consumes(7));
    ClearOnEmpty(c, s7);
    ConsumesAdd(c, s, 7, 3);
  }

  lemma StartUp<P>(c: Config<P>)
    ensures Legal(c, Init(c), [SetObserver, Consume])
    ensures Exec(c, Init(c), [SetObserver, Consume]) == Init(c).(observer := true, pc := Wait)
  {
    var s1 := Apply(c, Init(c), SetObserver);
    var s2 := Apply(c, s1, Consume);
    assert [SetObserver, Consume][1..] == [Consume];
    assert Legal(c, s2, []) && Exec(c, s2, []) == s2;
    assert Legal(c, s1, [Consume]) && Exec(c, s1, [Consume]) == s2;
  }

  /** The window is real: one producer sends two payloads; the worker has found the
      queue empty when the second arrives, then clears Run and goes to sleep on it. */
  lemma StrandingRun<P>(p: P, q: P) returns (c: Config<P>, steps: seq<Step>)
    ensures Legal(c, Init(c), steps) && Stranded(Exec(c, Init(c), steps))
    ensures Exec(c, Init(c), steps).queue == [Item(0, q)]
  {
    c := Config([[p, q]], false);
    StartUp(c);
    var start := [SetObserver, Consume];
    var s1 := Exec(c, Init(c), start);
    SendBlock(c, s1, 0);
    var s2 := Exec(c, s1, Send(0));
    ReachClear(c, s2);
    var s3 := Exec(c, s2, Consumes(10));
    StrandAtClear(c, s3, 0);
    ExecConcat(c, s2, Consumes(10), Send(0) + Consumes(3));
    ExecConcat(c, s1, Send(0), Consumes(10) + (Send(0) + Consumes(3)));
    steps := start + (Send(0) + (Consumes(10) + (Send(0) + Consumes(3))));
    ExecConcat(c, Init(c), start, Send(0) + (Consumes(10) + (Send(0) + Consumes(3))));
  }
}
