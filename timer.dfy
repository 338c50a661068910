/**
 * The timer service component (timer/src/main/java/se/sics/kompics/timer/Timer.java).
 *
 * The component keeps two tables of active timers, one-shot and periodic, keyed by the
 * client component's UUID together with the client's own timer id. Each schedule request
 * creates a task object and hands it to a `java.util.Timer`; a cancel request cancels the
 * task and forgets the entry; when a one-shot task runs, it calls back `timeout`, which
 * forgets the entry and triggers the client's Timeout event at HIGH priority.
 *
 * The `java.util.Timer` is not modelled beyond the calls made to it: they are recorded in
 * `timerCalls`, and the timer tasks cancelled through `TimerTask.cancel` in `cancelledTasks`.
 * A task's `serial` is its position in `timerCalls`, which stands for the identity of the
 * task object. Firing is the explicit `timeout` call.
 */
module TimerComponent {
  import opened Wrappers
  import opened Kompics

  /** The UUID of a client component. */
  type ComponentUuid = nat

  /** Key of the active-timer tables: the client component and the client's timer id. */
  datatype TimerId = TimerId(clientComponent: ComponentUuid, clientTimerId: int)

  /** The client's Timeout event, identified by the object reference the client passed in. */
  datatype TimeoutEvent = TimeoutEvent(ref: nat)

  datatype ScheduleTimeout =
    ScheduleTimeout(delay: int, timerId: int, clientComponent: ComponentUuid, clientChannel: Channel, timeout: TimeoutEvent)

  datatype SchedulePeriodicTimeout =
    SchedulePeriodicTimeout(delay: int, period: int, timerId: int, clientComponent: ComponentUuid,
                            clientChannel: Channel, timeout: TimeoutEvent)

  datatype CancelTimeout = CancelTimeout(timerId: int, clientComponent: ComponentUuid)

  datatype CancelPeriodicTimeout = CancelPeriodicTimeout(timerId: int, clientComponent: ComponentUuid)

  /** A TimerSignalTask or PeriodicTimerSignalTask; `serial` is the identity of that task object. */
  datatype SignalTask = SignalTask(serial: nat, id: TimerId, timeout: TimeoutEvent, clientChannel: Channel)

  /** A call into the `java.util.Timer`, whether or not it accepted the timer task. */
  datatype TimerCall =
    | Schedule(task: SignalTask, delay: int)
    | ScheduleAtFixedRate(task: SignalTask, delay: int, period: int)

  /**
   * The `java.util.Timer` schedules the timer task: a negative delay, or a period that is
   * not positive, makes it throw IllegalArgumentException instead.
   */
  predicate Accepted(c: TimerCall) {
    match c
    case Schedule(_, delay) => delay >= 0
    case ScheduleAtFixedRate(_, delay, period) => delay >= 0 && period > 0
  }

  /** How a schedule handler ended: normally, or with the timer's IllegalArgumentException. */
  datatype HandlerResult = Completed | ThrewIllegalArgument

  /** The event types that the timer's membrane declares. */
  datatype TimerEventType =
    ScheduleTimeoutType | SchedulePeriodicTimeoutType | CancelTimeoutType | CancelPeriodicTimeoutType | TimeoutType

  /** The handler methods the timer subscribes to its request channel. */
  datatype TimerHandler =
    SetTimerHandler | SetPeriodicTimerHandler | CancelTimerHandler | CancelPeriodicTimerHandler

  /** Everything the timer's handlers read and write. */
  datatype TimerState = TimerState(
    activeTimers: map<TimerId, SignalTask>,
    activePeriodicTimers: map<TimerId, SignalTask>,
    timerPresent: bool,  // the `timer` field holds a live java.util.Timer
    timerCalls: seq<TimerCall>,
    cancelledTasks: seq<SignalTask>,
    triggers: seq<Trigger<TimeoutEvent>>)

  /** `m` and `m'` have the same entry, or both none, at `k`. */
  predicate AgreeAt<K, V(==)>(m: map<K, V>, m': map<K, V>, k: K) {
    (k in m <==> k in m') && (k in m ==> m[k] == m'[k])
  }

  /**
   * Task `t` was handed to the java.util.Timer, as a periodic task or as a one-shot one
   * (whether or not the java.util.Timer accepted it).
   */
  predicate Issued(s: TimerState, t: SignalTask, periodic: bool) {
    t.serial < |s.timerCalls| && s.timerCalls[t.serial].task == t
    && s.timerCalls[t.serial].ScheduleAtFixedRate? == periodic
  }

  /** Task `t` was handed to the java.util.Timer, which accepted it. */
  predicate Scheduled(s: TimerState, t: SignalTask, periodic: bool) {
    Issued(s, t, periodic) && Accepted(s.timerCalls[t.serial])
  }

  /**
   * The timer's invariant: every task carries its own position in the call log, every
   * active entry is a task issued for its own key, and only issued tasks were cancelled.
   */
  predicate WellFormed(s: TimerState) {
    && (forall i :: 0 <= i < |s.timerCalls| ==> s.timerCalls[i].task.serial == i)
    && (forall id :: id in s.activeTimers ==> s.activeTimers[id].id == id && Issued(s, s.activeTimers[id], false))
    && (forall id :: id in s.activePeriodicTimers ==>
          s.activePeriodicTimers[id].id == id && Issued(s, s.activePeriodicTimers[id], true))
    && (forall i :: 0 <= i < |s.cancelledTasks| ==> s.cancelledTasks[i].serial < |s.timerCalls|)
  }

  /** The state after the constructor: no timers of either kind, and no java.util.Timer yet. */
  function Initial(): (s: TimerState)
    ensures s.activeTimers == map[] && s.activePeriodicTimers == map[]
    ensures WellFormed(s)
  {
    TimerState(map[], map[], false, [], [], [])
  }

  /** The timer task object a schedule request creates. */
  function NewTask(s: TimerState, id: TimerId, timeout: TimeoutEvent, clientChannel: Channel): SignalTask {
    SignalTask(|s.timerCalls|, id, timeout, clientChannel)
  }

  /**
   * `handleSetTimerEvent`: the key maps to a new task, replacing any earlier entry for it
   * (which is neither cancelled nor forgotten by the java.util.Timer), and the new task is
   * handed to the java.util.Timer with the requested delay. The entry is stored first, so a
   * negative delay, which the java.util.Timer refuses with an exception, leaves an entry
   * whose task never runs. Nothing else changes.
   */
  function SetTimer(s: TimerState, e: ScheduleTimeout): (r: TimerState)
    requires s.timerPresent
    ensures var id := TimerId(e.clientComponent, e.timerId);
      && id in r.activeTimers
      && r.activeTimers[id] == NewTask(s, id, e.timeout, e.clientChannel)
      && (forall k :: k != id ==> AgreeAt(r.activeTimers, s.activeTimers, k))
      && r.timerCalls == s.timerCalls + [Schedule(r.activeTimers[id], e.delay)]
      && (Scheduled(r, r.activeTimers[id], false) <==> e.delay >= 0)
    ensures r.activePeriodicTimers == s.activePeriodicTimers
    ensures r.cancelledTasks == s.cancelledTasks && r.triggers == s.triggers && r.timerPresent
  {
    var id := TimerId(e.clientComponent, e.timerId);
    var task := NewTask(s, id, e.timeout, e.clientChannel);
    s.(activeTimers := s.activeTimers[id := task], timerCalls := s.timerCalls + [Schedule(task, e.delay)])
  }

  /**
   * `handleSetPeriodicTimerEvent`: as `SetTimer`, on the periodic table, with the new task
   * handed over for fixed-rate execution; it is refused when the delay is negative or the
   * period is not positive. The one-shot table is unchanged.
   */
  function SetPeriodicTimer(s: TimerState, e: SchedulePeriodicTimeout): (r: TimerState)
    requires s.timerPresent
    ensures var id := TimerId(e.clientComponent, e.timerId);
      && id in r.activePeriodicTimers
      && r.activePeriodicTimers[id] == NewTask(s, id, e.timeout, e.clientChannel)
      && (forall k :: k != id ==> AgreeAt(r.activePeriodicTimers, s.activePeriodicTimers, k))
      && r.timerCalls == s.timerCalls + [ScheduleAtFixedRate(r.activePeriodicTimers[id], e.delay, e.period)]
      && (Scheduled(r, r.activePeriodicTimers[id], true) <==> e.delay >= 0 && e.period > 0)
    ensures r.activeTimers == s.activeTimers
    ensures r.cancelledTasks == s.cancelledTasks && r.triggers == s.triggers && r.timerPresent
  {
    var id := TimerId(e.clientComponent, e.timerId);
    var task := NewTask(s, id, e.timeout, e.clientChannel);
    s.(activePeriodicTimers := s.activePeriodicTimers[id := task],
       timerCalls := s.timerCalls + [ScheduleAtFixedRate(task, e.delay, e.period)])
  }

  /**
   * `handleCancelTimerEvent`: for a key with an entry, that entry's task is cancelled and
   * exactly that key is removed; for a key without one, nothing changes.
   */
  function CancelTimer(s: TimerState, e: CancelTimeout): (r: TimerState)
    ensures var id := TimerId(e.clientComponent, e.timerId);
      && (id !in s.activeTimers ==> r == s)
      && (id in s.activeTimers ==>
            && id !in r.activeTimers
            && (forall k :: k != id ==> AgreeAt(r.activeTimers, s.activeTimers, k))
            && r.cancelledTasks == s.cancelledTasks + [s.activeTimers[id]])
    ensures r.activePeriodicTimers == s.activePeriodicTimers
    ensures r.timerCalls == s.timerCalls && r.triggers == s.triggers && r.timerPresent == s.timerPresent
  {
    var id := TimerId(e.clientComponent, e.timerId);
    if id in s.activeTimers then
      s.(activeTimers := s.activeTimers - {id}, cancelledTasks := s.cancelledTasks + [s.activeTimers[id]])
    else s
  }

  /** `handleCancelPeriodicTimerEvent`: as `CancelTimer`, on the periodic table only. */
  function CancelPeriodicTimer(s: TimerState, e: CancelPeriodicTimeout): (r: TimerState)
    ensures var id := TimerId(e.clientComponent, e.timerId);
      && (id !in s.activePeriodicTimers ==> r == s)
      && (id in s.activePeriodicTimers ==>
            && id !in r.activePeriodicTimers
            && (forall k :: k != id ==> AgreeAt(r.activePeriodicTimers, s.activePeriodicTimers, k))
            && r.cancelledTasks == s.cancelledTasks + [s.activePeriodicTimers[id]])
    ensures r.activeTimers == s.activeTimers
    ensures r.timerCalls == s.timerCalls && r.triggers == s.triggers && r.timerPresent == s.timerPresent
  {
    var id := TimerId(e.clientComponent, e.timerId);
    if id in s.activePeriodicTimers then
      s.(activePeriodicTimers := s.activePeriodicTimers - {id},
         cancelledTasks := s.cancelledTasks + [s.activePeriodicTimers[id]])
    else s
  }

  /**
   * `timeout`: the one-shot entry for the key is forgotten first, then exactly one trigger
   * of the Timeout event on the client's channel at HIGH priority is appended. Periodic
   * entries are never touched.
   */
  function Expired(s: TimerState, id: TimerId, timeout: TimeoutEvent, clientChannel: Channel): (r: TimerState)
    ensures id !in r.activeTimers
    ensures forall k :: k != id ==> AgreeAt(r.activeTimers, s.activeTimers, k)
    ensures r.triggers == s.triggers + [Trigger(timeout, clientChannel, High)]
    ensures r.activePeriodicTimers == s.activePeriodicTimers
    ensures r.timerCalls == s.timerCalls && r.cancelledTasks == s.cancelledTasks && r.timerPresent == s.timerPresent
  {
    s.(activeTimers := s.activeTimers - {id}, triggers := s.triggers + [Trigger(timeout, clientChannel, High)])
  }

  /**
   * `destroy`: the java.util.Timer is cancelled and dropped. Both tables keep their entries;
   * with the java.util.Timer gone, none of their tasks runs again.
   */
  function Destroyed(s: TimerState): (r: TimerState)
    requires s.timerPresent
    ensures !r.timerPresent
    ensures r.activeTimers == s.activeTimers && r.activePeriodicTimers == s.activePeriodicTimers
    ensures r.timerCalls == s.timerCalls && r.cancelledTasks == s.cancelledTasks && r.triggers == s.triggers
  {
    s.(timerPresent := false)
  }

  /**
   * The membrane `share` builds: the four request types routed to the request channel,
   * the Timeout type emitted from the signal channel, sealed.
   */
  function TimerMembrane(requestChannel: Channel, signalChannel: Channel): (m: Membrane<TimerEventType>)
    ensures |m.inChannels| == 4
    ensures forall i :: 0 <= i < 4 ==> m.inChannels[i].1 == requestChannel
    ensures {m.inChannels[0].0, m.inChannels[1].0, m.inChannels[2].0, m.inChannels[3].0}
         == {ScheduleTimeoutType, SchedulePeriodicTimeoutType, CancelTimeoutType, CancelPeriodicTimeoutType}
    ensures m.outChannels == [(TimeoutType, signalChannel)]
    ensures m.sealed
  {
    var m := EmptyMembrane();
    var m := InChannel(m, ScheduleTimeoutType, requestChannel);
    var m := InChannel(m, SchedulePeriodicTimeoutType, requestChannel);
    var m := InChannel(m, CancelTimeoutType, requestChannel);
    var m := InChannel(m, CancelPeriodicTimeoutType, requestChannel);
    var m := OutChannel(m, TimeoutType, signalChannel);
    Seal(m)
  }

  /** The timer component. Its fields are those of Timer.java plus the logs of its outside calls. */
  class Timer {
    var activeTimers: map<TimerId, SignalTask>
    var activePeriodicTimers: map<TimerId, SignalTask>
    var timerPresent: bool
    var requestChannel: Option<Channel>
    var signalChannel: Option<Channel>
    var subscriptions: seq<(Channel, TimerHandler)>
    var registrations: seq<(string, Membrane<TimerEventType>)>
    var timerCalls: seq<TimerCall>
    var cancelledTasks: seq<SignalTask>
    var triggers: seq<Trigger<TimeoutEvent>>

    function State(): TimerState
      reads this
    {
      TimerState(activeTimers, activePeriodicTimers, timerPresent, timerCalls, cancelledTasks, triggers)
    }

    /** Both tables start empty; the channels and the java.util.Timer come with `Create`. */
    constructor ()
      ensures State() == Initial()
      ensures requestChannel == None && signalChannel == None
      ensures subscriptions == [] && registrations == []
    {
      activeTimers := map[];
      activePeriodicTimers := map[];
      timerPresent := false;
      requestChannel := None;
      signalChannel := None;
      subscriptions := [];
      registrations := [];
      timerCalls := [];
      cancelledTasks := [];
      triggers := [];
    }

    /** `create`: remembers the channels, subscribes the four handlers, starts a java.util.Timer. */
    method Create(request: Channel, signal: Channel)
      modifies this
      ensures requestChannel == Some(request) && signalChannel == Some(signal)
      ensures subscriptions == old(subscriptions) + [(request, SetTimerHandler), (request, SetPeriodicTimerHandler),
                                                     (request, CancelTimerHandler), (request, CancelPeriodicTimerHandler)]
      ensures State() == old(State()).(timerPresent := true)
      ensures registrations == old(registrations)
    {
      requestChannel := Some(request);
      signalChannel := Some(signal);
      subscriptions := subscriptions + [(request, SetTimerHandler), (request, SetPeriodicTimerHandler),
                                        (request, CancelTimerHandler), (request, CancelPeriodicTimerHandler)];
      timerPresent := true;
    }

    /** `share`: builds and seals the membrane, then registers it under `name`. */
    method Share(name: string) returns (m: Membrane<TimerEventType>)
      requires requestChannel.Some? && signalChannel.Some?
      modifies this`registrations
      ensures requestChannel == old(requestChannel) && signalChannel == old(signalChannel)
      ensures m == TimerMembrane(requestChannel.value, signalChannel.value) && m.sealed
      ensures registrations == old(registrations) + [(name, m)]
      ensures State() == old(State()) && subscriptions == old(subscriptions)
    {
      m := TimerMembrane(requestChannel.value, signalChannel.value);
      registrations := registrations + [(name, m)];
    }

    /** `destroy`: cancels and drops the java.util.Timer; a second call would dereference null. */
    method Destroy()
      requires timerPresent
      modifies this`timerPresent
      ensures State() == Destroyed(old(State()))
    {
      timerPresent := false;
    }

    /** `handleSetTimerEvent`; it ends in the timer's exception exactly when the delay is negative. */
    method HandleSetTimerEvent(e: ScheduleTimeout) returns (result: HandlerResult)
      requires timerPresent
      modifies this`activeTimers, this`timerCalls
      ensures State() == SetTimer(old(State()), e)
      ensures result == Completed <==> e.delay >= 0
    {
      var id := TimerId(e.clientComponent, e.timerId);
      var task := SignalTask(|timerCalls|, id, e.timeout, e.clientChannel);
      activeTimers := activeTimers[id := task];
      timerCalls := timerCalls + [Schedule(task, e.delay)];
      result := if e.delay < 0 then ThrewIllegalArgument else Completed;
    }

    /** `handleSetPeriodicTimerEvent`; it ends in the timer's exception unless delay and period are valid. */
    method HandleSetPeriodicTimerEvent(e: SchedulePeriodicTimeout) returns (result: HandlerResult)
      requires timerPresent
      modifies this`activePeriodicTimers, this`timerCalls
      ensures State() == SetPeriodicTimer(old(State()), e)
      ensures result == Completed <==> e.delay >= 0 && e.period > 0
    {
      var id := TimerId(e.clientComponent, e.timerId);
      var task := SignalTask(|timerCalls|, id, e.timeout, e.clientChannel);
      activePeriodicTimers := activePeriodicTimers[id := task];
      timerCalls := timerCalls + [ScheduleAtFixedRate(task, e.delay, e.period)];
      result := if e.delay < 0 || e.period <= 0 then ThrewIllegalArgument else Completed;
    }

    method HandleCancelTimerEvent(e: CancelTimeout)
      modifies this`activeTimers, this`cancelledTasks
      ensures State() == CancelTimer(old(State()), e)
    {
      var id := TimerId(e.clientComponent, e.timerId);
      if id in activeTimers {
        cancelledTasks := cancelledTasks + [activeTimers[id]];
        activeTimers := activeTimers - {id};
      }
    }

    method HandleCancelPeriodicTimerEvent(e: CancelPeriodicTimeout)
      modifies this`activePeriodicTimers, this`cancelledTasks
      ensures State() == CancelPeriodicTimer(old(State()), e)
    {
      var id := TimerId(e.clientComponent, e.timerId);
      if id in activePeriodicTimers {
        cancelledTasks := cancelledTasks + [activePeriodicTimers[id]];
        activePeriodicTimers := activePeriodicTimers - {id};
      }
    }

    /** `timeout`, called back by a one-shot task when it runs. */
    method Timeout(id: TimerId, timeout: TimeoutEvent, clientChannel: Channel)
      modifies this`activeTimers, this`triggers
      ensures State() == Expired(old(State()), id, timeout, clientChannel)
    {
      activeTimers := activeTimers - {id};
      triggers := triggers + [Trigger(timeout, clientChannel, High)];
    }
  }

  // ---------------------------------------------------------------------------------
  // Properties of single operations

  /**
   * Once `timeout` has run for a key, a cancel request for that key finds nothing and
   * changes nothing; the Timeout already triggered stays in the log.
   */
  lemma CancelAfterTimeoutIsNoOp(s: TimerState, e: CancelTimeout, timeout: TimeoutEvent, clientChannel: Channel)
    ensures var fired := Expired(s, TimerId(e.clientComponent, e.timerId), timeout, clientChannel);
      && CancelTimer(fired, e) == fired
      && fired.triggers[|fired.triggers| - 1] == Trigger(timeout, clientChannel, High)
  {
  }

  /**
   * Two clients may use the same timer id: their keys differ, and a cancel request from one
   * leaves the other's entries, one-shot and periodic, in place.
   */
  lemma ClientsAreIsolated(s: TimerState, c1: ComponentUuid, c2: ComponentUuid, n: int)
    requires c1 != c2
    ensures TimerId(c1, n) != TimerId(c2, n)
    ensures AgreeAt(CancelTimer(s, CancelTimeout(n, c1)).activeTimers, s.activeTimers, TimerId(c2, n))
    ensures AgreeAt(CancelPeriodicTimer(s, CancelPeriodicTimeout(n, c1)).activePeriodicTimers,
                    s.activePeriodicTimers, TimerId(c2, n))
  {
  }

  /**
   * Scheduling an id that is already active replaces the entry without cancelling the
   * earlier task: after a cancel request for the id, that task is still scheduled with
   * the java.util.Timer (unless its delay was refused), was never cancelled, and no table
   * entry refers to it any more.
   */
  lemma OverwriteOrphansEarlierTask(s: TimerState, e1: ScheduleTimeout, e2: ScheduleTimeout)
    requires WellFormed(s) && s.timerPresent
    requires e1.clientComponent == e2.clientComponent && e1.timerId == e2.timerId
    ensures var s1 := SetTimer(s, e1);
      var earlier := s1.activeTimers[TimerId(e1.clientComponent, e1.timerId)];
      var s3 := CancelTimer(SetTimer(s1, e2), CancelTimeout(e1.timerId, e1.clientComponent));
      && Issued(s3, earlier, false)
      && (Scheduled(s3, earlier, false) <==> e1.delay >= 0)
      && earlier !in s3.cancelledTasks
      && (forall k :: k in s3.activeTimers ==> s3.activeTimers[k] != earlier)
      && (forall k :: k in s3.activePeriodicTimers ==> s3.activePeriodicTimers[k] != earlier)
  {
    var id := TimerId(e1.clientComponent, e1.timerId);
    var s1 := SetTimer(s, e1);
    var earlier := s1.activeTimers[id];
    var s2 := SetTimer(s1, e2);
    var later := s2.activeTimers[id];
    var s3 := CancelTimer(s2, CancelTimeout(e1.timerId, e1.clientComponent));
    assert earlier.serial == |s.timerCalls| && later.serial == |s.timerCalls| + 1;
    assert s3.cancelledTasks == s.cancelledTasks + [later];
    forall i | 0 <= i < |s.cancelledTasks|
      ensures s3.cancelledTasks[i] != earlier
    {
      assert s.cancelledTasks[i].serial < |s.timerCalls|;
    }
    forall k | k in s3.activeTimers
      ensures s3.activeTimers[k] != earlier
    {
      assert k != id && s3.activeTimers[k] == s.activeTimers[k];
      assert Issued(s, s.activeTimers[k], false);
    }
    forall k | k in s3.activePeriodicTimers
      ensures s3.activePeriodicTimers[k] != earlier
    {
      assert Issued(s, s.activePeriodicTimers[k], true);
    }
  }

  // ---------------------------------------------------------------------------------
  // Properties of request sequences

  /** One event delivered to the timer, or one callback from a task. */
  datatype TimerRequest =
    | SetRequest(schedule: ScheduleTimeout)
    | SetPeriodicRequest(schedulePeriodic: SchedulePeriodicTimeout)
    | CancelRequest(cancel: CancelTimeout)
    | CancelPeriodicRequest(cancelPeriodic: CancelPeriodicTimeout)
    | TimeoutCallback(id: TimerId, timeout: TimeoutEvent, clientChannel: Channel)

  function Step(s: TimerState, q: TimerRequest): (r: TimerState)
    requires s.timerPresent
    ensures r.timerPresent
  {
    match q
    case SetRequest(e) => SetTimer(s, e)
    case SetPeriodicRequest(e) => SetPeriodicTimer(s, e)
    case CancelRequest(e) => CancelTimer(s, e)
    case CancelPeriodicRequest(e) => CancelPeriodicTimer(s, e)
    case TimeoutCallback(id, timeout, ch) => Expired(s, id, timeout, ch)
  }

  function Run(s: TimerState, qs: seq<TimerRequest>): (r: TimerState)
    requires s.timerPresent
    ensures r.timerPresent
    decreases |qs|
  {
    if |qs| == 0 then s else Run(Step(s, qs[0]), qs[1..])
  }

  /** Every handler and the callback keep the timer's invariant. */
  lemma StepKeepsWellFormed(s: TimerState, q: TimerRequest)
    requires s.timerPresent && WellFormed(s)
    ensures WellFormed(Step(s, q))
  {
    match q
    case SetRequest(e) => SetKeepsWellFormed(s, e);
    case SetPeriodicRequest(e) => SetPeriodicKeepsWellFormed(s, e);
    case CancelRequest(e) =>
    case CancelPeriodicRequest(e) =>
    case TimeoutCallback(id, timeout, ch) =>
  }

  /** A new one-shot task takes the next serial and leaves every earlier task issued. */
  lemma SetKeepsWellFormed(s: TimerState, e: ScheduleTimeout)
    requires s.timerPresent && WellFormed(s)
    ensures WellFormed(SetTimer(s, e))
  {
    var r := SetTimer(s, e);
    assert forall id :: id in s.activeTimers ==> Issued(r, s.activeTimers[id], false);
    assert forall id :: id in s.activePeriodicTimers ==> Issued(r, s.activePeriodicTimers[id], true);
  }

  /** A new periodic task takes the next serial and leaves every earlier task issued. */
  lemma SetPeriodicKeepsWellFormed(s: TimerState, e: SchedulePeriodicTimeout)
    requires s.timerPresent && WellFormed(s)
    ensures WellFormed(SetPeriodicTimer(s, e))
  {
    var r := SetPeriodicTimer(s, e);
    assert forall id :: id in s.activeTimers ==> Issued(r, s.activeTimers[id], false);
    assert forall id :: id in s.activePeriodicTimers ==> Issued(r, s.activePeriodicTimers[id], true);
  }

  lemma {:induction false} RunKeepsWellFormed(s: TimerState, qs: seq<TimerRequest>)
    requires s.timerPresent && WellFormed(s)
    ensures WellFormed(Run(s, qs))
    decreases |qs|
  {
    if |qs| > 0 {
      StepKeepsWellFormed(s, qs[0]);
      RunKeepsWellFormed(Step(s, qs[0]), qs[1..]);
    }
  }

  /** `q` is a periodic schedule or cancel request for key `id`. */
  predicate TouchesPeriodic(q: TimerRequest, id: TimerId) {
    || (q.SetPeriodicRequest? && TimerId(q.schedulePeriodic.clientComponent, q.schedulePeriodic.timerId) == id)
    || (q.CancelPeriodicRequest? && TimerId(q.cancelPeriodic.clientComponent, q.cancelPeriodic.timerId) == id)
  }

  /**
   * A periodic entry survives any number of timeouts and of other requests: only a
   * periodic request for its own key replaces or removes it.
   */
  lemma {:induction false} PeriodicEntrySurvives(s: TimerState, qs: seq<TimerRequest>, id: TimerId)
    requires s.timerPresent && id in s.activePeriodicTimers
    requires forall i :: 0 <= i < |qs| ==> !TouchesPeriodic(qs[i], id)
    ensures id in Run(s, qs).activePeriodicTimers
    ensures Run(s, qs).activePeriodicTimers[id] == s.activePeriodicTimers[id]
    decreases |qs|
  {
    if |qs| > 0 {
      var s' := Step(s, qs[0]);
      assert !TouchesPeriodic(qs[0], id);
      assert AgreeAt(s'.activePeriodicTimers, s.activePeriodicTimers, id);
      PeriodicEntrySurvives(s', qs[1..], id);
    }
  }

  /** The triggers a request sequence should produce: one HIGH Timeout per callback. */
  function TimeoutsOf(qs: seq<TimerRequest>): seq<Trigger<TimeoutEvent>> {
    if |qs| == 0 then []
    else (if qs[0].TimeoutCallback? then [Trigger(qs[0].timeout, qs[0].clientChannel, High)] else [])
         + TimeoutsOf(qs[1..])
  }

  /** The timer triggers nothing but the Timeouts of the callbacks, in callback order. */
  lemma {:induction false} RunTriggersOnlyTimeouts(s: TimerState, qs: seq<TimerRequest>)
    requires s.timerPresent
    ensures Run(s, qs).triggers == s.triggers + TimeoutsOf(qs)
    decreases |qs|
  {
    if |qs| > 0 {
      RunTriggersOnlyTimeouts(Step(s, qs[0]), qs[1..]);
    }
  }
}
