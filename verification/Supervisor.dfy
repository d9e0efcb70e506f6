/**
 The supervisor: it starts services one by one, runs them until the first fails,
 and waits for all of them to stop. A run is any interleaving of what the
 supervisor does, what the services do, timeouts and cancellation.
 */
module Supervisor {
  import opened Common

  type ServiceError = string

  /** What a service returned; `None` is no error. */
  type ExitCode = Option<ServiceError>

  datatype Status = NotStarted | Running | Exited(code: ExitCode)

  datatype ReturnValue = ServiceTimeoutError | SupervisorTimeoutError | GroupError(code: ExitCode)

  datatype Phase =
    | Starting(next: nat)      // the loop is about to start a service, or over
    | Awaiting(service: nat)   // the select inside the loop
    | Leaving                  // after the loop
    | Announcing               // sending on the ready channel
    | Serving                  // waiting for the context to be done
    | Stopping                 // waiting for the services to stop
    | Returned(value: ReturnValue)

  /** One service: its status, whether a ready signal waits in its channel, and whether it ever sent one. */
  datatype Service = Service(status: Status, waiting: bool, signalled: bool)

  datatype State = State(
    phase: Phase,
    services: seq<Service>,
    exits: seq<ExitCode>,      // in the order in which the services returned
    groupError: ExitCode,      // what the group keeps: the first error
    cancelled: bool,           // by the caller, or after a timeout
    serviceTimedOut: bool,
    readySent: nat)

  datatype Event =
    | Launch | TakeReady | SeeDone | ReadyTimeout | Leave | Announce | Stop | Collect | StopTimeout  // the supervisor
    | Signal(service: nat) | Exit(service: nat, code: ExitCode)                                      // a service
    | Cancel                                                                                         // the caller

  function Init(n: nat): State {
    State(Starting(0), seq(n, _ => Service(NotStarted, false, false)), [], None, false, false, 0)
  }

  /** The context of the services is done. */
  predicate Done(s: State) {
    s.cancelled || s.groupError.Some?
  }

  predicate NoneRunning(s: State) {
    forall i | 0 <= i < |s.services| :: !s.services[i].status.Running?
  }

  predicate IsRunning(s: State, i: nat) {
    i < |s.services| && s.services[i].status.Running?
  }

  /** Whether the event can happen. */
  predicate Enabled(s: State, e: Event) {
    match e
    case Launch => s.phase.Starting? && s.phase.next < |s.services|
    case TakeReady => s.phase.Awaiting? && s.phase.service < |s.services| && s.services[s.phase.service].waiting
    case SeeDone => s.phase.Awaiting? && Done(s)
    case ReadyTimeout => s.phase.Awaiting?
    case Leave => s.phase.Leaving? || (s.phase.Starting? && s.phase.next >= |s.services|)
    case Announce => s.phase.Announcing?
    case Stop => s.phase.Serving? && Done(s)
    case Collect => s.phase.Stopping? && NoneRunning(s)
    case StopTimeout => s.phase.Stopping?
    case Signal(i) => IsRunning(s, i) && !s.services[i].waiting
    case Exit(i, _) => IsRunning(s, i)
    case Cancel => true
  }

  function Happen(s: State, e: Event): (r: State)
    requires Enabled(s, e)
    ensures |r.services| == |s.services|
  {
    match e
    case Launch =>
      var k := s.phase.next;
      s.(services := s.services[k := Service(Running, false, false)], phase := Awaiting(k))
    case TakeReady =>
      var k := s.phase.service;
      s.(services := s.services[k := s.services[k].(waiting := false)], phase := Starting(k + 1))
    case SeeDone => s.(phase := Leaving)
    case ReadyTimeout => s.(cancelled := true, serviceTimedOut := true, phase := Leaving)
    case Leave => s.(phase := if Done(s) then Serving else Announcing)
    case Announce => s.(readySent := s.readySent + 1, phase := Serving)
    case Stop => s.(phase := Stopping)
    case Collect => s.(phase := Returned(if s.serviceTimedOut then ServiceTimeoutError else GroupError(s.groupError)))
    case StopTimeout => s.(phase := Returned(SupervisorTimeoutError))
    case Signal(i) => s.(services := s.services[i := s.services[i].(waiting := true, signalled := true)])
    case Exit(i, code) =>
      s.(services := s.services[i := s.services[i].(status := Exited(code))],
         exits := s.exits + [code],
         groupError := if s.groupError.Some? then s.groupError else code)
    case Cancel => s.(cancelled := true)
  }

  function Step(s: State, e: Event): State {
    if Enabled(s, e) then Happen(s, e) else s
  }

  function Run(n: nat, events: seq<Event>): (r: State)
    ensures |r.services| == n
  {
    if events == [] then Init(n) else Step(Run(n, Front(events)), Last(events))
  }

  // ------------------------------------------------------------------ the invariant

  function FirstError(exits: seq<ExitCode>): ExitCode {
    if exits == [] then None
    else if FirstError(Front(exits)).Some? then FirstError(Front(exits))
    else Last(exits)
  }

  /** The services before `k` are started and signalled, those from `m` on are not started. */
  ghost predicate StartedInOrder(services: seq<Service>, k: nat, m: nat) {
    && (forall i | 0 <= i < |services| && i < k :: services[i].signalled)
    && (forall i | 0 <= i < |services| :: services[i].status.NotStarted? <==> i >= m)
    && (forall i | 0 <= i < |services| :: services[i].waiting ==> services[i].signalled)
  }

  /** Some service is the last to be started, and all before it have signalled. */
  ghost predicate Prefix(services: seq<Service>, m: nat) {
    m <= |services| && StartedInOrder(services, if m == 0 then 0 else m - 1, m)
  }

  ghost predicate AllSignalled(services: seq<Service>) {
    forall i | 0 <= i < |services| :: services[i].signalled
  }

  /** Services are started in order, and the supervisor is ready when all of them are. */
  ghost predicate Ordered(s: State, m: nat) {
    && Prefix(s.services, m)
    && (s.phase.Starting? ==> s.phase.next == m && StartedInOrder(s.services, m, m))
    && (s.phase.Awaiting? ==> m == s.phase.service + 1)
    && s.readySent <= 1
    && (s.phase.Starting? || s.phase.Awaiting? || s.phase.Leaving? || s.phase.Announcing? ==> s.readySent == 0)
    && (s.phase.Announcing? || s.readySent == 1 ==> AllSignalled(s.services))
  }

  /** What the group keeps is the first error, and the last phases come after a reason to stop. */
  ghost predicate Reasoned(s: State) {
    && s.groupError == FirstError(s.exits)
    && (s.serviceTimedOut ==> s.cancelled)
    && (s.phase.Leaving? || s.phase.Stopping? || s.phase.Returned? ==> Done(s))
    && (s.phase.Serving? && s.readySent == 0 ==> Done(s))
  }

  /** The value returned says what happened. */
  ghost predicate Truthful(s: State) {
    s.phase.Returned? ==>
      match s.phase.value
      case SupervisorTimeoutError => true
      case ServiceTimeoutError => s.serviceTimedOut && NoneRunning(s)
      case GroupError(code) => !s.serviceTimedOut && code == s.groupError && NoneRunning(s)
  }

  ghost predicate Inv(s: State, m: nat) {
    Ordered(s, m) && Reasoned(s) && Truthful(s)
  }

  lemma {:induction false} FirstErrorGrows(exits: seq<ExitCode>, code: ExitCode)
    ensures FirstError(exits + [code]) == if FirstError(exits).Some? then FirstError(exits) else code
  {
    assert Front(exits + [code]) == exits;
  }

  lemma {:induction false} ExitOrdered(s: State, m: nat, e: Event)
    requires Ordered(s, m) && e.Exit?
    ensures Ordered(Step(s, e), m)
  {
  }

  lemma {:induction false} SignalOrdered(s: State, m: nat, e: Event)
    requires Ordered(s, m) && e.Signal?
    ensures Ordered(Step(s, e), m)
  {
  }

  lemma {:induction false} SupervisorOrdered(s: State, m: nat, e: Event) returns (m': nat)
    requires Ordered(s, m) && Reasoned(s) && !e.Signal? && !e.Exit?
    ensures Ordered(Step(s, e), m')
  {
    m' := if e.Launch? && Enabled(s, e) then m + 1 else m;
  }

  lemma {:induction false} ExitReasoned(s: State, e: Event)
    requires Reasoned(s) && e.Exit?
    ensures Reasoned(Step(s, e))
  {
    FirstErrorGrows(s.exits, e.code);
  }

  lemma {:induction false} StepReasoned(s: State, e: Event)
    requires Reasoned(s)
    ensures Reasoned(Step(s, e))
  {
    if e.Exit? {
      ExitReasoned(s, e);
    }
  }

  lemma {:induction false} StepTruthful(s: State, e: Event)
    requires Truthful(s) && Reasoned(s)
    ensures Truthful(Step(s, e))
  {
  }

  lemma {:induction false} StepKeeps(s: State, m: nat, e: Event) returns (m': nat)
    requires Inv(s, m)
    ensures Inv(Step(s, e), m')
  {
    m' := m;
    StepReasoned(s, e);
    StepTruthful(s, e);
    if e.Signal? {
      SignalOrdered(s, m, e);
    } else if e.Exit? {
      ExitOrdered(s, m, e);
    } else {
      m' := SupervisorOrdered(s, m, e);
    }
  }

  lemma {:induction false} RunKeeps(n: nat, events: seq<Event>) returns (m: nat)
    ensures Inv(Run(n, events), m)
  {
    if events == [] {
      return 0;
    } else {
      m := RunKeeps(n, Front(events));
      m := StepKeeps(Run(n, Front(events)), m, Last(events));
    }
  }

  // ------------------------------------------------------------------ theorems, for every interleaving

  /** A service is started only after all the services before it have signalled that they are ready. */
  lemma {:induction false} StartsAfterReady(n: nat, events: seq<Event>, i: nat, j: nat)
    requires i < j < n && !Run(n, events).services[j].status.NotStarted?
    ensures Run(n, events).services[i].signalled
  {
    var m := RunKeeps(n, events);
  }

  /** And the step that starts it finds them so. */
  lemma {:induction false} LaunchFindsReady(n: nat, events: seq<Event>, i: nat)
    requires Enabled(Run(n, events), Launch) && i < Run(n, events).phase.next
    ensures i < n && Run(n, events).services[i].signalled
    ensures Run(n, events).services[Run(n, events).phase.next].status.NotStarted?
  {
    var m := RunKeeps(n, events);
  }

  /** The supervisor is ready at most once, and only after all its services were. */
  lemma {:induction false} ReadyOnceAndLast(n: nat, events: seq<Event>)
    ensures Run(n, events).readySent <= 1
    ensures Run(n, events).readySent == 1 ==> AllSignalled(Run(n, events).services)
  {
    var m := RunKeeps(n, events);
  }

  /** And it is ready as soon as it serves, unless there is a reason to stop. */
  lemma {:induction false} ServingMeansReady(n: nat, events: seq<Event>)
    requires Run(n, events).phase.Serving? && !Done(Run(n, events))
    ensures Run(n, events).readySent == 1 && AllSignalled(Run(n, events).services)
  {
    var m := RunKeeps(n, events);
  }

  /** When the last service is ready and nothing went wrong, the next steps announce that the supervisor is ready. */
  lemma {:induction false} LastServiceMakesReady(n: nat, events: seq<Event>)
    requires Run(n, events).phase == Starting(n) && !Done(Run(n, events))
    ensures var s := Step(Step(Run(n, events), Leave), Announce);
            s.phase.Serving? && s.readySent == 1 && AllSignalled(s.services)
  {
    var m := RunKeeps(n, events);
  }

  /**
   When the supervisor has returned, no service runs unless it says so; otherwise
   it returned a timeout of a service, or the first error of a service, if any.
   */
  lemma {:induction false} ReturnValueIsTrue(n: nat, events: seq<Event>)
    requires Run(n, events).phase.Returned?
    ensures var s := Run(n, events);
            match s.phase.value
            case SupervisorTimeoutError => true
            case ServiceTimeoutError => NoneRunning(s) && s.serviceTimedOut
            case GroupError(code) => NoneRunning(s) && !s.serviceTimedOut && code == FirstError(s.exits)
  {
    var m := RunKeeps(n, events);
  }

  lemma {:induction false} CancelledBy(n: nat, events: seq<Event>)
    ensures Run(n, events).cancelled ==> Cancel in events || Run(n, events).serviceTimedOut
  {
    if events != [] {
      CancelledBy(n, Front(events));
      assert events == Front(events) + [Last(events)];
    }
  }

  lemma {:induction false} StepRemembers(s: State, e: Event)
    ensures s.cancelled || e == Cancel ==> Step(s, e).cancelled
    ensures Step(s, e).serviceTimedOut ==> s.serviceTimedOut || e == ReadyTimeout
  {
  }

  /** A cancellation is never lost, and only a late service is taken for one. */
  lemma {:induction false} EventsAreRemembered(n: nat, events: seq<Event>)
    ensures Cancel in events ==> Run(n, events).cancelled
    ensures Run(n, events).serviceTimedOut ==> ReadyTimeout in events
  {
    if events != [] {
      EventsAreRemembered(n, Front(events));
      StepRemembers(Run(n, Front(events)), Last(events));
      assert events == Front(events) + [Last(events)];
    }
  }

  /** Once there is a reason to stop and all services have stopped, nothing keeps the supervisor from returning. */
  lemma {:induction false} StoppedMeansReturns(s: State)
    requires s.phase.Serving? && Done(s) && NoneRunning(s)
    ensures Step(Step(s, Stop), Collect).phase
         == Returned(if s.serviceTimedOut then ServiceTimeoutError else GroupError(s.groupError))
  {
  }

  /** It does not return before the caller cancels it, a service is late, or a service fails. */
  lemma {:induction false} RunsUntilFirstError(n: nat, events: seq<Event>)
    requires Run(n, events).phase.Returned?
    ensures Cancel in events || Run(n, events).serviceTimedOut || FirstError(Run(n, events).exits).Some?
  {
    var m := RunKeeps(n, events);
    CancelledBy(n, events);
  }

  // ------------------------------------------------------------------ the object

  /** The cases of the select in the start loop. */
  datatype SelectCase = ServiceReady | ContextDone | TimedOut

  function EventOf(c: SelectCase): Event {
    match c
    case ServiceReady => TakeReady
    case ContextDone => SeeDone
    case TimedOut => ReadyTimeout
  }

  predicate IsSelected(e: Event) {
    e.TakeReady? || e.SeeDone? || e.ReadyTimeout?
  }

  /** The cases that the select in the start loop took. */
  function Selected(trace: seq<Event>): seq<Event> {
    if trace == [] then []
    else Selected(Front(trace)) + if IsSelected(Last(trace)) then [Last(trace)] else []
  }

  /** The first `n` of the given cases. */
  function Cases(cases: nat -> SelectCase, n: nat): seq<Event> {
    if n == 0 then [] else Cases(cases, n - 1) + [EventOf(cases(n - 1))]
  }

  class SupervisorService {
    var phase: Phase
    var services: seq<Service>
    var exits: seq<ExitCode>
    var groupError: ExitCode
    var cancelled: bool
    var serviceTimedOut: bool
    var readySent: nat
    ghost var trace: seq<Event>  // what has happened since the start

    constructor (n: nat)
      ensures View() == Init(n) && trace == [] && Follows()
    {
      trace := [];
      phase := Starting(0);
      services := seq(n, _ => Service(NotStarted, false, false));
      exits, groupError, cancelled, serviceTimedOut, readySent := [], None, false, false, 0;
    }

    function View(): State
      reads this
    {
      State(phase, services, exits, groupError, cancelled, serviceTimedOut, readySent)
    }

    /** The state is the one that the trace leads to. */
    ghost predicate Follows()
      reads this
    {
      View() == Run(|services|, trace)
    }

    /** The start loop up to its select: one more service runs. */
    method StartNext()
      requires Enabled(View(), Launch)
      modifies this
      ensures View() == Happen(old(View()), Launch) && trace == old(trace)
    {
      services := services[phase.next := Service(Running, false, false)];
      phase := Awaiting(phase.next);
    }

    /** The select of the start loop; `e` is the case that was chosen. */
    method AwaitReady(e: Event)
      requires (e.TakeReady? || e.SeeDone? || e.ReadyTimeout?) && Enabled(View(), e)
      modifies this
      ensures View() == Happen(old(View()), e) && trace == old(trace)
    {
      match e {
        case TakeReady =>
          var k := phase.service;
          services := services[k := services[k].(waiting := false)];
          phase := Starting(k + 1);
        case SeeDone =>
          phase := Leaving;
        case ReadyTimeout =>
          cancelled, serviceTimedOut := true, true;
          phase := Leaving;
      }
    }

    /** What follows the start loop; `e` is the case that was chosen. */
    method Finish(e: Event)
      requires (e.Leave? || e.Announce? || e.Stop? || e.Collect? || e.StopTimeout?) && Enabled(View(), e)
      modifies this
      ensures View() == Happen(old(View()), e) && trace == old(trace)
    {
      match e {
        case Leave =>
          if cancelled || groupError.Some? {
            phase := Serving;
          } else {
            phase := Announcing;
          }
        case Announce =>
          readySent := readySent + 1;
          phase := Serving;
        case Stop =>
          phase := Stopping;
        case Collect =>
          if serviceTimedOut {
            phase := Returned(ServiceTimeoutError);
          } else {
            phase := Returned(GroupError(groupError));
          }
        case StopTimeout =>
          phase := Returned(SupervisorTimeoutError);
      }
    }

    /** What the services and the caller do meanwhile. */
    method Happens(e: Event)
      requires (e.Signal? || e.Exit? || e.Cancel?) && Enabled(View(), e)
      modifies this
      ensures View() == Happen(old(View()), e) && trace == old(trace)
    {
      match e {
        case Signal(i) =>
          services := services[i := services[i].(waiting := true, signalled := true)];
        case Exit(i, code) =>
          services := services[i := services[i].(status := Exited(code))];
          exits := exits + [code];
          if groupError.None? {
            groupError := code;
          }
        case Cancel =>
          cancelled := true;
      }
    }

    /** Do one thing that can happen. */
    method Do(e: Event)
      requires Enabled(View(), e) && Follows()
      modifies this
      ensures View() == Happen(old(View()), e) && Follows() && trace == old(trace) + [e]
      ensures Selected(trace) == Selected(old(trace)) + if IsSelected(e) then [e] else []
    {
      match e {
        case Launch => StartNext();
        case TakeReady => AwaitReady(e);
        case SeeDone => AwaitReady(e);
        case ReadyTimeout => AwaitReady(e);
        case Leave => Finish(e);
        case Announce => Finish(e);
        case Stop => Finish(e);
        case Collect => Finish(e);
        case StopTimeout => Finish(e);
        case Signal(_) => Happens(e);
        case Exit(_, _) => Happens(e);
        case Cancel => Happens(e);
      }
      OneMoreEvent(|services|, trace, e);
      assert Front(trace + [e]) == trace;
      trace := trace + [e];
    }

    /** What the services and the caller do while the supervisor waits; what cannot happen is passed over. */
    method Meanwhile(events: seq<Event>)
      requires Follows()
      modifies this
      ensures Follows() && phase == old(phase) && |services| == |old(services)|
      ensures Selected(trace) == old(Selected(trace)) && serviceTimedOut == old(serviceTimedOut)
    {
      for i := 0 to |events|
        invariant Follows() && phase == old(phase) && |services| == |old(services)|
        invariant Selected(trace) == old(Selected(trace)) && serviceTimedOut == old(serviceTimedOut)
      {
        var e := events[i];
        if (e.Signal? || e.Exit? || e.Cancel?) && Enabled(View(), e) {
          Do(e);
        }
      }
    }

    /** One turn of the start loop: start service `k`, let the environment act, and take the given case of the select. */
    method StartOne(k: nat, pause: seq<Event>, c: SelectCase) returns (blocked: bool)
      requires Follows() && phase == Starting(k) && k < |services|
      modifies this
      ensures Follows() && |services| == |old(services)|
      ensures blocked ==> phase == Awaiting(k) && !Enabled(View(), EventOf(c)) && Selected(trace) == old(Selected(trace))
      ensures !blocked ==>
                && phase == (if c == ServiceReady then Starting(k + 1) else Leaving)
                && serviceTimedOut == (old(serviceTimedOut) || c == TimedOut)
                && Selected(trace) == old(Selected(trace)) + [EventOf(c)]
    {
      Do(Launch);
      Meanwhile(pause);
      var e := EventOf(c);
      if !Enabled(View(), e) {
        return true;
      }
      Do(e);
      return false;
    }

    /**
     The start loop: service number `k` is started, the environment does `pauses(k)`,
     and `cases(k)` is the case of the select. The supervisor is blocked if that
     case is not ready; any case but a ready service breaks the loop.
     */
    method StartServices(pauses: nat -> seq<Event>, cases: nat -> SelectCase) returns (blocked: bool, taken: nat)
      requires View() == Init(|services|) && Follows() && trace == []
      modifies this
      ensures Follows() && |services| == |old(services)|
      ensures Selected(trace) == Cases(cases, taken)
      ensures forall k | 0 <= k < taken - 1 :: cases(k) == ServiceReady
      ensures blocked ==> phase == Awaiting(taken) && !Enabled(View(), EventOf(cases(taken)))
      ensures !blocked ==>
                if taken > 0 && cases(taken - 1) != ServiceReady then phase == Leaving
                else phase == Starting(|services|) && taken == |services|
      ensures !blocked ==> (serviceTimedOut <==> taken > 0 && cases(taken - 1) == TimedOut)
    {
      blocked, taken := false, 0;
      while taken < |services|
        invariant taken <= |services| == |old(services)| && Follows() && phase == Starting(taken)
        invariant Selected(trace) == Cases(cases, taken) && !blocked && !serviceTimedOut
        invariant forall k | 0 <= k < taken :: cases(k) == ServiceReady
      {
        blocked := StartOne(taken, pauses(taken), cases(taken));
        if blocked {
          return;
        }
        taken := taken + 1;
        if cases(taken - 1) != ServiceReady {
          return;
        }
      }
    }

    /**
     The whole of `Start`. It returns what `Start` returns, or nothing if `Start`
     is blocked. The environment acts before every blocking operation, and
     `timesOut` is the case of the last select.
     */
    method Start(pauses: nat -> seq<Event>, cases: nat -> SelectCase, timesOut: bool)
      returns (r: Option<ReturnValue>, ghost taken: nat)
      requires View() == Init(|services|) && Follows() && trace == []
      modifies this
      ensures Follows()
      ensures Selected(trace) == Cases(cases, taken) && forall k | 0 <= k < taken - 1 :: cases(k) == ServiceReady
      ensures r.Some? ==> phase == Returned(r.value) && (r.value == SupervisorTimeoutError <==> timesOut)
      ensures r.Some? && !timesOut ==>
                (r.value == ServiceTimeoutError <==> taken > 0 && cases(taken - 1) == TimedOut)
      ensures r.None? ==>
                || (phase == Awaiting(taken) && !Enabled(View(), EventOf(cases(taken))))
                || (phase.Serving? && !Done(View()) && readySent == 1)
                || (phase.Stopping? && !timesOut && !NoneRunning(View()))
    {
      var n := |services|;
      var blocked, count := StartServices(pauses, cases);
      taken := count;
      if blocked {
        return None, taken;
      }
      AnnounceIfReady(pauses(n), pauses(n + 1));
      r := ServeAndStop(pauses(n + 2), pauses(n + 3), timesOut);
    }

    /** What follows the start loop, up to the wait for the context: the ready signal, if nothing went wrong. */
    method AnnounceIfReady(before: seq<Event>, during: seq<Event>)
      requires Follows() && (phase == Leaving || phase == Starting(|services|))
      modifies this
      ensures Follows() && phase.Serving? && |services| == |old(services)|
      ensures Selected(trace) == old(Selected(trace)) && serviceTimedOut == old(serviceTimedOut)
    {
      Meanwhile(before);
      Do(Leave);
      if phase.Announcing? {
        Meanwhile(during);
        Do(Announce);
      }
    }

    /** Wait for the context to be done, and then for the services to stop. */
    method ServeAndStop(serving: seq<Event>, stopping: seq<Event>, timesOut: bool) returns (r: Option<ReturnValue>)
      requires Follows() && phase.Serving?
      modifies this
      ensures Follows() && Selected(trace) == old(Selected(trace))
      ensures r.Some? ==> phase == Returned(r.value) && (r.value == SupervisorTimeoutError <==> timesOut)
      ensures r.Some? && !timesOut ==> (r.value == ServiceTimeoutError <==> old(serviceTimedOut))
      ensures r.None? ==>
                || (phase.Serving? && !Done(View()) && readySent == 1)
                || (phase.Stopping? && !timesOut && !NoneRunning(View()))
    {
      Meanwhile(serving);
      if !(cancelled || groupError.Some?) {
        ServingMeansReady(|services|, trace);
        return None;
      }
      Do(Stop);
      Meanwhile(stopping);
      r := AwaitStop(timesOut);
    }

    /** The last select: all services have stopped, or waiting for them took too long. */
    method AwaitStop(timesOut: bool) returns (r: Option<ReturnValue>)
      requires phase.Stopping? && Follows()
      modifies this
      ensures Follows() && Selected(trace) == old(Selected(trace))
      ensures r.Some? ==> phase == Returned(r.value) && (r.value == SupervisorTimeoutError <==> timesOut)
      ensures r.Some? && !timesOut ==> (r.value == ServiceTimeoutError <==> old(serviceTimedOut))
      ensures r.None? ==> phase.Stopping? && !timesOut && !NoneRunning(View())
    {
      var e := if timesOut then StopTimeout else Collect;
      if !Enabled(View(), e) {
        return None;
      }
      Do(e);
      return Some(phase.value);
    }
  }

  lemma {:induction false} OneMoreEvent(n: nat, trace: seq<Event>, e: Event)
    ensures Run(n, trace + [e]) == Step(Run(n, trace), e)
  {
    assert Front(trace + [e]) == trace;
  }
}
