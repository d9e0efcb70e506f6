/** What one call to `process` does, told from the queues. */
module ControllerSteps {
  import opened Common
  import opened Controller
  import opened ControllerRuns

  // ------------------------------------------------------------------ which request is taken

  /** The select is biased: it takes branch `i` exactly when no earlier branch is ready. */
  lemma {:induction false} SelectIsBiased(order: seq<Kind>, queues: PerKind<SyncRequest>, i: nat)
    requires i < |order| && queues.Of(order[i]) != []
    requires forall j | 0 <= j < i :: queues.Of(order[j]) == []
    ensures FirstReady(order, queues) == Some(order[i])
  {
    if i > 0 {
      assert queues.Of(order[0]) == [];
      forall j | 0 <= j < i - 1 ensures queues.Of(order[1..][j]) == [] {
        assert order[1..][j] == order[j + 1];
      }
      SelectIsBiased(order[1..], queues, i - 1);
    }
  }

  /** Kind `k` if a request of that kind waits. */
  function Waiting(q: PerKind<SyncRequest>, k: Kind, otherwise: Option<Kind>): Option<Kind> {
    if q.Of(k) != [] then Some(k) else otherwise
  }

  /** The branches from `i` on. */
  lemma {:induction false} FromBranch(order: seq<Kind>, q: PerKind<SyncRequest>, i: nat, k: Kind)
    requires i < |order| && order[i] == k
    ensures FirstReady(order[i..], q) == Waiting(q, k, FirstReady(order[i + 1..], q))
  {
    assert order[i..][1..] == order[i + 1..];
  }

  /** The last three branches. */
  lemma {:induction false} LastBranches(order: seq<Kind>, q: PerKind<SyncRequest>, i: nat, a: Kind, b: Kind, c: Kind)
    requires |order| == i + 3 && order[i] == a && order[i + 1] == b && order[i + 2] == c
    ensures FirstReady(order[i..], q) == Waiting(q, a, Waiting(q, b, Waiting(q, c, None)))
  {
    FromBranch(order, q, i, a);
    FromBranch(order, q, i + 1, b);
    FromBranch(order, q, i + 2, c);
    assert order[i + 3..] == [];
  }

  lemma {:induction false} Branches(
      order: seq<Kind>, q: PerKind<SyncRequest>, i: nat, a: Kind, b: Kind, c: Kind, d: Kind, e: Kind, f: Kind)
    requires |order| == i + 6 && order[i] == a && order[i + 1] == b && order[i + 2] == c
    requires order[i + 3] == d && order[i + 4] == e && order[i + 5] == f
    ensures FirstReady(order[i..], q)
         == Waiting(q, a, Waiting(q, b, Waiting(q, c, Waiting(q, d, Waiting(q, e, Waiting(q, f, None))))))
  {
    FromBranch(order, q, i, a);
    FromBranch(order, q, i + 1, b);
    FromBranch(order, q, i + 2, c);
    LastBranches(order, q, i + 3, d, e, f);
  }

  /** The request that is taken in the idle and advance states, and in the fetch state if no other comes first. */
  function FinishFirst(q: PerKind<SyncRequest>): Option<Kind> {
    Waiting(q, Finish, Waiting(q, Voucher, Waiting(q, Notice,
      Waiting(q, Report, Waiting(q, Exception, Waiting(q, Shutdown, None))))))
  }

  lemma {:induction false} CommonOrder(order: seq<Kind>, q: PerKind<SyncRequest>, i: nat)
    requires |order| == i + 6 && order[i..] == [Finish, Voucher, Notice, Report, Exception, Shutdown]
    ensures FirstReady(order[i..], q) == FinishFirst(q)
  {
    assert forall j | 0 <= j < 6 :: order[i + j] == order[i..][j];
    Branches(order, q, i, Finish, Voucher, Notice, Report, Exception, Shutdown);
  }

  lemma {:induction false} FetchOrder(order: seq<Kind>, q: PerKind<SyncRequest>)
    requires order == [Inspect, Advance, Finish, Voucher, Notice, Report, Exception, Shutdown]
    ensures FirstReady(order, q) == Waiting(q, Inspect, Waiting(q, Advance, FinishFirst(q)))
  {
    FromBranch(order, q, 0, Inspect);
    FromBranch(order, q, 1, Advance);
    CommonOrder(order, q, 2);
    assert order[0..] == order;
  }

  lemma {:induction false} InspectOrder(order: seq<Kind>, q: PerKind<SyncRequest>)
    requires order == [Finish, Report, Exception, Voucher, Notice, Shutdown]
    ensures FirstReady(order, q)
         == Waiting(q, Finish, Waiting(q, Report, Waiting(q, Exception,
              Waiting(q, Voucher, Waiting(q, Notice, Waiting(q, Shutdown, None))))))
  {
    Branches(order, q, 0, Finish, Report, Exception, Voucher, Notice, Shutdown);
    assert order[0..] == order;
  }

  /**
   The kind that is taken, in each state: in the fetch state inspect requests come
   first and advance requests next; otherwise finish requests come first; shutdown is always last.
   */
  lemma {:induction false} PollingOrder(s: System)
    ensures var q := s.queues;
            Chosen(s) ==
            match s.mode
            case Idle => FinishFirst(q)
            case Advancing(_, _, _, _) => FinishFirst(q)
            case FetchRequest(_) => Waiting(q, Inspect, Waiting(q, Advance, FinishFirst(q)))
            case Inspecting(_, _) =>
              Waiting(q, Finish, Waiting(q, Report, Waiting(q, Exception,
                Waiting(q, Voucher, Waiting(q, Notice, Waiting(q, Shutdown, None))))))
            case Terminated => None
  {
    var order := SelectOrder(s.mode);
    assert order[0..] == order;
    match s.mode {
      case Idle => CommonOrder(order, s.queues, 0);
      case Advancing(_, _, _, _) => CommonOrder(order, s.queues, 0);
      case FetchRequest(_) => FetchOrder(order, s.queues);
      case Inspecting(_, _) => InspectOrder(order, s.queues);
      case Terminated =>
    }
  }

  // ------------------------------------------------------------------ what becomes of it

  /** `s` in state `next`, with more replies, and without the first request of kind `k`. */
  function Served(s: System, k: Kind, next: Mode, answers: seq<Answer>): System
    requires s.queues.Of(k) != []
  {
    s.(mode := next, queues := s.queues.With(k, s.queues.Of(k)[1..]), replies := s.replies + answers)
  }

  lemma {:induction false} Serves(s: System, k: Kind, next: Mode, answers: seq<Answer>)
    requires s.queues.Of(k) != [] && Chosen(s) == Some(k) && !next.Terminated?
    requires Handle(s.mode, s.queues.Of(k)[0].token, s.queues.Of(k)[0].request) == Outcome(answers, next)
    ensures ProcessStep(s, false) == Served(s, k, next, answers)
  {
  }

  /** The first request of a queue is of the kind of the queue. */
  lemma {:induction false} HeadKind(s: System, k: Kind)
    requires Tagged(s) && s.queues.Of(k) != []
    ensures KindOf(s.queues.Of(k)[0].request) == k
  {
    assert s.queues.Of(k)[0] in s.queues.Of(k);
  }

  lemma {:induction false} FetchTakes(s: System)
    requires s.mode.FetchRequest?
    ensures s.queues.inspect != [] ==> Chosen(s) == Some(Inspect)
    ensures s.queues.inspect == [] && s.queues.advance != [] ==> Chosen(s) == Some(Advance)
    ensures s.queues.inspect == [] && s.queues.advance == [] && s.queues.finish != [] ==> Chosen(s) == Some(Finish)
  {
    PollingOrder(s);
  }

  /** In the fetch state the application is given the first inspect request, whatever else waits. */
  lemma {:induction false} InspectIsDelivered(s: System)
    requires Tagged(s) && s.mode.FetchRequest? && s.queues.inspect != []
    ensures var head := s.queues.inspect[0];
            && head.request.InspectRequest?
            && ProcessStep(s, false)
               == Served(s, Inspect, Inspecting(head.token, []),
                         [Answer(s.mode.finish, FinishReply(Ok(InspectState(head.request.payload))))])
  {
    var head := s.queues.inspect[0];
    HeadKind(s, Inspect);
    FetchTakes(s);
    Serves(s, Inspect, Inspecting(head.token, []),
           [Answer(s.mode.finish, FinishReply(Ok(InspectState(head.request.payload))))]);
  }

  /** And the first advance request when no inspect request waits. */
  lemma {:induction false} AdvanceIsDelivered(s: System)
    requires Tagged(s) && s.mode.FetchRequest? && s.queues.inspect == [] && s.queues.advance != []
    ensures var head := s.queues.advance[0];
            && head.request.AdvanceRequest?
            && var next := AdvanceState(head.request.metadata, head.request.payload);
               ProcessStep(s, false)
               == Served(s, Advance, Advancing(head.token, [], [], []), [Answer(s.mode.finish, FinishReply(Ok(next)))])
  {
    var head := s.queues.advance[0];
    HeadKind(s, Advance);
    FetchTakes(s);
    Serves(s, Advance, Advancing(head.token, [], [], []),
           [Answer(s.mode.finish, FinishReply(Ok(AdvanceState(head.request.metadata, head.request.payload))))]);
  }

  /** A finish request in the fetch state times the one before it out. */
  lemma {:induction false} FinishIsReplaced(s: System)
    requires Tagged(s) && s.mode.FetchRequest?
    requires s.queues.inspect == [] && s.queues.advance == [] && s.queues.finish != []
    ensures ProcessStep(s, false)
            == Served(s, Finish, FetchRequest(s.queues.finish[0].token),
                      [Answer(s.mode.finish, FinishReply(Err(FetchRequestTimeout)))])
  {
    HeadKind(s, Finish);
    FetchTakes(s);
    Serves(s, Finish, FetchRequest(s.queues.finish[0].token),
           [Answer(s.mode.finish, FinishReply(Err(FetchRequestTimeout)))]);
  }

  /** The answer that a finish request with this status gives to the request in progress. */
  function ResultOf(m: Mode, status: FinishStatus): seq<Answer> {
    match m
    case Inspecting(t, reports) =>
      [Answer(t, InspectReply(if status == Accept then InspectAccepted else InspectRejected, reports))]
    case Advancing(t, vouchers, notices, reports) =>
      [Answer(t, AdvanceReply(if status == Accept then Accepted(vouchers, notices) else Rejected, reports))]
    case _ => []
  }

  /** In the other states a finish request is taken before anything else, and ends the request in progress. */
  lemma {:induction false} FinishComesFirst(s: System)
    requires Tagged(s) && s.queues.finish != [] && (s.mode.Idle? || s.mode.Inspecting? || s.mode.Advancing?)
    ensures var head := s.queues.finish[0];
            && head.request.FinishRequest?
            && ProcessStep(s, false) == Served(s, Finish, FetchRequest(head.token), ResultOf(s.mode, head.request.status))
  {
    var head := s.queues.finish[0];
    HeadKind(s, Finish);
    PollingOrder(s);
    Serves(s, Finish, FetchRequest(head.token), ResultOf(s.mode, head.request.status));
  }

  /** An exception ends the request in progress; both of its callers are answered. */
  lemma {:induction false} ExceptionEndsRequest(s: System)
    requires Tagged(s) && s.queues.exception != [] && Chosen(s) == Some(Exception)
    requires s.mode.Inspecting? || s.mode.Advancing?
    ensures var head := s.queues.exception[0];
            && head.request.ExceptionRequest?
            && var e, m := head.request.exception, s.mode;
               var result := if m.Inspecting? then Answer(m.inspect, InspectReply(InspectFailed(e), m.collected))
                             else Answer(m.advance, AdvanceReply(Failed(e), m.reports));
               ProcessStep(s, false) == Served(s, Exception, Idle, [result, Answer(head.token, ExceptionReply(Ok(())))])
  {
    var head := s.queues.exception[0];
    HeadKind(s, Exception);
    var e, m := head.request.exception, s.mode;
    var result := if m.Inspecting? then Answer(m.inspect, InspectReply(InspectFailed(e), m.collected))
                  else Answer(m.advance, AdvanceReply(Failed(e), m.reports));
    Serves(s, Exception, Idle, [result, Answer(head.token, ExceptionReply(Ok(())))]);
  }

  /** The name that a refusal gives to the state. */
  function NameOf(m: Mode): string {
    if m.Idle? then "idle"
    else if m.FetchRequest? then "fetch request"
    else if m.Inspecting? then "inspect"
    else "advance"
  }

  /** What each kind of request is answered when it is refused. */
  function Refusal(k: Kind, state: string): Reply {
    match k
    case Voucher => VoucherReply(Err(InvalidRequest("voucher", state)))
    case Notice => NoticeReply(Err(InvalidRequest("notice", state)))
    case Report => ReportReply(Err(InvalidRequest("report", state)))
    case _ => ExceptionReply(Err(InvalidRequest("exception", state)))
  }

  lemma {:induction false} RefusedInState(m: Mode, token: nat, r: Request, k: Kind)
    requires KindOf(r) == k && (m.Idle? || m.FetchRequest? || m.Inspecting?)
    requires k == Voucher || k == Notice || ((k == Report || k == Exception) && !m.Inspecting?)
    ensures Handle(m, token, r) == Outcome([Answer(token, Refusal(k, NameOf(m)))], m)
  {
  }

  /**
   Outputs are refused without a request in progress, and vouchers and notices
   while inspecting; the refusal names the request and the state, and nothing else changes.
   */
  lemma {:induction false} RefusalsNameState(s: System, k: Kind)
    requires Tagged(s) && s.queues.Of(k) != [] && Chosen(s) == Some(k)
    requires k == Voucher || k == Notice || ((k == Report || k == Exception) && !s.mode.Inspecting?)
    requires s.mode.Idle? || s.mode.FetchRequest? || s.mode.Inspecting?
    ensures ProcessStep(s, false) == Served(s, k, s.mode, [Answer(s.queues.Of(k)[0].token, Refusal(k, NameOf(s.mode)))])
  {
    var head := s.queues.Of(k)[0];
    HeadKind(s, k);
    RefusedInState(s.mode, head.token, head.request, k);
    Serves(s, k, s.mode, [Answer(head.token, Refusal(k, NameOf(s.mode)))]);
  }

  /** The first shutdown request is answered; every other channel is closed. */
  ghost predicate Ends(s: System, s': System)
    requires s.queues.shutdown != []
  {
    && s'.mode.Terminated? && s'.queues == Nothing() && s'.issued == s.issued
    && s'.replies == s.replies + [Answer(s.queues.shutdown[0].token, ShutdownReply)]
    && forall k: Kind ::
         s'.dropped.Of(k) == Held(s.mode, k) + Tokens(if k == Shutdown then s.queues.shutdown[1..] else s.queues.Of(k))
  }

  /** What shutdown leaves of the queues and the channels of a system. */
  lemma {:induction false} EndsOnShutdown(s: System, token: nat)
    requires s.queues.Of(Shutdown) != [] && token == s.queues.Of(Shutdown)[0].token
    ensures Ends(s, Apply(Pop(s, Shutdown), Handle(s.mode, token, ShutdownRequest)))
  {
    var rest := s.queues.With(Shutdown, s.queues.Of(Shutdown)[1..]);
    var closed := Close(s.mode, rest);
    forall k: Kind
      ensures closed.Of(k)
           == Held(s.mode, k) + Tokens(if k == Shutdown then s.queues.shutdown[1..] else s.queues.Of(k))
    {
      assert closed.Of(k) == Held(s.mode, k) + Tokens(rest.Of(k));
    }
  }

  lemma {:induction false} ShutsDown(s: System)
    requires Tagged(s) && s.queues.Of(Shutdown) != [] && Chosen(s) == Some(Shutdown)
    ensures Ends(s, ProcessStep(s, false))
  {
    HeadKind(s, Shutdown);
    EndsOnShutdown(s, s.queues.Of(Shutdown)[0].token);
  }

  /** Nothing that the state polls waits, but for shutdown. */
  predicate OnlyShutdownWaits(s: System) {
    && s.queues.finish == [] && s.queues.voucher == [] && s.queues.notice == []
    && s.queues.report == [] && s.queues.exception == []
    && (s.mode.FetchRequest? ==> s.queues.inspect == [] && s.queues.advance == [])
  }

  lemma {:induction false} ShutdownIsChosen(s: System)
    requires !s.mode.Terminated? && s.queues.Of(Shutdown) != []
    ensures Chosen(s).Some? && (Chosen(s).value == Shutdown <==> OnlyShutdownWaits(s))
  {
    PollingOrder(s);
  }

  /** Shutdown is handled if and only if nothing else that the state polls waits. */
  lemma {:induction false} ShutdownComesLast(s: System)
    requires Tagged(s) && !s.mode.Terminated? && s.queues.shutdown != []
    ensures OnlyShutdownWaits(s) ==> Ends(s, ProcessStep(s, false))
    ensures !OnlyShutdownWaits(s) ==> ProcessStep(s, false).queues.shutdown == s.queues.shutdown
  {
    ShutdownIsChosen(s);
    if OnlyShutdownWaits(s) {
      ShutsDown(s);
    } else {
      var k := Chosen(s).value;
      HeadKind(s, k);
      OthersKeepShutdown(s, k, s.queues.Of(k)[0]);
    }
  }

  lemma {:induction false} OnlyShutdownEnds(m: Mode, token: nat, r: Request)
    requires !m.Terminated? && !r.ShutdownRequest?
    ensures !Handle(m, token, r).next.Terminated?
  {
  }

  lemma {:induction false} OtherQueueStays(q: PerKind<SyncRequest>, k: Kind, rest: seq<SyncRequest>)
    requires k != Shutdown
    ensures q.With(k, rest).shutdown == q.shutdown
  {
    assert q.With(k, rest).Of(Shutdown) == q.Of(Shutdown);
  }

  lemma {:induction false} ServedKeepsShutdown(s: System, k: Kind, next: Mode, answers: seq<Answer>)
    requires s.queues.Of(k) != [] && k != Shutdown
    ensures Served(s, k, next, answers).queues.shutdown == s.queues.shutdown
  {
    OtherQueueStays(s.queues, k, s.queues.Of(k)[1..]);
  }

  lemma {:induction false} HandledKeepsShutdown(s: System, k: Kind, o: Outcome)
    requires s.queues.Of(k) != [] && Chosen(s) == Some(k) && k != Shutdown && !o.next.Terminated?
    requires o == Handle(s.mode, s.queues.Of(k)[0].token, s.queues.Of(k)[0].request)
    ensures ProcessStep(s, false).queues.shutdown == s.queues.shutdown
  {
    Serves(s, k, o.next, o.answers);
    ServedKeepsShutdown(s, k, o.next, o.answers);
  }

  lemma {:induction false} OthersKeepShutdown(s: System, k: Kind, head: SyncRequest)
    requires !s.mode.Terminated? && s.queues.Of(k) != [] && head == s.queues.Of(k)[0]
    requires Chosen(s) == Some(k) && k != Shutdown && !head.request.ShutdownRequest?
    ensures ProcessStep(s, false).queues.shutdown == s.queues.shutdown
  {
    OnlyShutdownEnds(s.mode, head.token, head.request);
    HandledKeepsShutdown(s, k, Handle(s.mode, head.token, head.request));
  }

  /** An elapsed timeout answers the finish request before anything is polled; it matters in no other state. */
  lemma {:induction false} TimeoutStep(s: System)
    ensures if s.mode.FetchRequest? then
              var answer := Answer(s.mode.finish, FinishReply(Err(FetchRequestTimeout)));
              ProcessStep(s, true) == s.(mode := Idle, replies := s.replies + [answer])
            else ProcessStep(s, true) == ProcessStep(s, false)
  {
    assert s.mode.FetchRequest? ==> TimeOut(s.mode.finish).next == Idle;
  }

  // ------------------------------------------------------------------ over whole runs

  /** The reply delivers an advance request. */
  predicate DeliversAdvance(a: Answer) {
    a.reply.FinishReply? && a.reply.next.Ok? && a.reply.next.value.AdvanceState?
  }

  lemma {:induction false} OnlyFetchDelivers(m: Mode, token: nat, r: Request)
    requires !m.FetchRequest?
    ensures forall a | a in Handle(m, token, r).answers :: !DeliversAdvance(a)
  {
  }

  /** The replies that one step adds. */
  lemma {:induction false} AddsAnswers(s: System, o: Outcome, k: Kind)
    requires s.queues.Of(k) != []
    ensures Apply(Pop(s, k), o).replies == s.replies + o.answers
  {
  }

  lemma {:induction false} StepAdds(s: System)
    ensures ProcessStep(s, false).replies
         == if Chosen(s).None? then s.replies
            else
              var head := s.queues.Of(Chosen(s).value)[0];
              s.replies + Handle(s.mode, head.token, head.request).answers
  {
    if Chosen(s).Some? {
      var head := s.queues.Of(Chosen(s).value)[0];
      AddsAnswers(s, Handle(s.mode, head.token, head.request), Chosen(s).value);
    }
  }

  lemma {:induction false} LaterReply(before: seq<Answer>, more: seq<Answer>, i: nat)
    requires |before| <= i < |before + more|
    ensures (before + more)[i] in more
  {
    assert (before + more)[i] == more[i - |before|];
  }

  lemma {:induction false} NoAdvanceOutsideFetch(s: System, after: seq<Answer>, i: nat)
    requires !s.mode.FetchRequest? && Chosen(s).Some? && |s.replies| <= i < |after|
    requires var head := s.queues.Of(Chosen(s).value)[0];
             after == s.replies + Handle(s.mode, head.token, head.request).answers
    ensures !DeliversAdvance(after[i])
  {
    var head := s.queues.Of(Chosen(s).value)[0];
    OnlyFetchDelivers(s.mode, head.token, head.request);
    LaterReply(s.replies, Handle(s.mode, head.token, head.request).answers, i);
  }

  lemma {:induction false} NoAdvanceBeforeInspect(s: System, timedOut: bool, i: nat)
    requires Tagged(s) && s.queues.inspect != [] && |s.replies| <= i < |ProcessStep(s, timedOut).replies|
    ensures !DeliversAdvance(ProcessStep(s, timedOut).replies[i])
  {
    TimeoutStep(s);
    if s.mode.FetchRequest? {
      InspectIsDelivered(s);
    } else {
      StepAdds(s);
      NoAdvanceOutsideFetch(s, ProcessStep(s, false).replies, i);
    }
  }

  /** In every run, no advance request is delivered while an inspect request waits. */
  lemma {:induction false} InspectsGoFirst(actions: seq<Action>, timedOut: bool, i: nat)
    requires Run(Init(), actions).queues.inspect != []
    requires |Run(Init(), actions).replies| <= i < |Run(Init(), actions + [Process(timedOut)]).replies|
    ensures !DeliversAdvance(Run(Init(), actions + [Process(timedOut)]).replies[i])
  {
    assert Front(actions + [Process(timedOut)]) == actions;
    RunInvariant(actions);
    NoAdvanceBeforeInspect(Run(Init(), actions), timedOut, i);
  }
}
