/**
 The host-runner controller: a state machine over eight FIFO request queues.

 Every request carries a one-shot reply channel, written here as a token: the
 position of the request in `issued`, the list of all requests ever submitted.
 A bounded channel together with the senders that wait for room in it is one
 FIFO queue, so queues are unbounded here.
 */
module Controller {
  import opened Common

  datatype Kind = Advance | Inspect | Finish | Voucher | Notice | Report | Exception | Shutdown

  datatype FinishStatus = Accept | Reject

  datatype AdvanceMetadata = AdvanceMetadata(
    msgSender: Bytes, epochIndex: nat, inputIndex: nat, blockNumber: nat, timestamp: nat)

  datatype RollupRequest =
    | AdvanceState(metadata: AdvanceMetadata, payload: Bytes)
    | InspectState(payload: Bytes)

  datatype VoucherData = VoucherData(destination: Bytes, payload: Bytes)

  datatype Request =
    | AdvanceRequest(metadata: AdvanceMetadata, payload: Bytes)
    | InspectRequest(payload: Bytes)
    | FinishRequest(status: FinishStatus)
    | VoucherRequest(voucher: VoucherData)
    | NoticeRequest(notice: Bytes)
    | ReportRequest(report: Bytes)
    | ExceptionRequest(exception: Bytes)
    | ShutdownRequest

  datatype ControllerError =
    | FetchRequestTimeout
    | InvalidRequest(requestName: string, stateName: string)

  datatype AdvanceStatus =
    | Accepted(vouchers: seq<VoucherData>, notices: seq<Bytes>)
    | Rejected
    | Failed(exception: Bytes)

  datatype InspectStatus = InspectAccepted | InspectRejected | InspectFailed(exception: Bytes)

  datatype Reply =
    | AdvanceReply(status: AdvanceStatus, reports: seq<Bytes>)
    | InspectReply(inspectStatus: InspectStatus, reports: seq<Bytes>)
    | FinishReply(next: Result<RollupRequest, ControllerError>)
    | VoucherReply(index: Result<nat, ControllerError>)
    | NoticeReply(index: Result<nat, ControllerError>)
    | ReportReply(done: Result<(), ControllerError>)
    | ExceptionReply(done: Result<(), ControllerError>)
    | ShutdownReply

  /** A request together with its reply channel. */
  datatype SyncRequest = SyncRequest(token: nat, request: Request)

  datatype Answer = Answer(token: nat, reply: Reply)

  /** The state of the service; a request in progress holds its reply channel. */
  datatype Mode =
    | Idle
    | FetchRequest(finish: nat)
    | Inspecting(inspect: nat, collected: seq<Bytes>)
    | Advancing(advance: nat, vouchers: seq<VoucherData>, notices: seq<Bytes>, reports: seq<Bytes>)
    | Terminated

  /** One sequence per request kind. */
  datatype PerKind<T> = PerKind(
    advance: seq<T>, inspect: seq<T>, finish: seq<T>, voucher: seq<T>,
    notice: seq<T>, report: seq<T>, exception: seq<T>, shutdown: seq<T>)
  {
    function Of(k: Kind): seq<T> {
      match k
      case Advance => advance
      case Inspect => inspect
      case Finish => finish
      case Voucher => voucher
      case Notice => notice
      case Report => report
      case Exception => exception
      case Shutdown => shutdown
    }

    function With(k: Kind, q: seq<T>): (r: PerKind<T>)
      ensures forall j: Kind :: r.Of(j) == if j == k then q else Of(j)
    {
      match k
      case Advance => this.(advance := q)
      case Inspect => this.(inspect := q)
      case Finish => this.(finish := q)
      case Voucher => this.(voucher := q)
      case Notice => this.(notice := q)
      case Report => this.(report := q)
      case Exception => this.(exception := q)
      case Shutdown => this.(shutdown := q)
    }
  }

  datatype System = System(
    mode: Mode,
    queues: PerKind<SyncRequest>,
    issued: seq<Request>,   // every request submitted so far
    replies: seq<Answer>,   // every reply sent so far, in order
    dropped: PerKind<nat>)  // reply channels closed without a reply

  datatype Action =
    | Submit(request: Request)
    | Process(timedOut: bool)  // whether the finish timeout has elapsed

  function KindOf(r: Request): Kind {
    match r
    case AdvanceRequest(_, _) => Advance
    case InspectRequest(_) => Inspect
    case FinishRequest(_) => Finish
    case VoucherRequest(_) => Voucher
    case NoticeRequest(_) => Notice
    case ReportRequest(_) => Report
    case ExceptionRequest(_) => Exception
    case ShutdownRequest => Shutdown
  }

  function KindOfReply(r: Reply): Kind {
    match r
    case AdvanceReply(_, _) => Advance
    case InspectReply(_, _) => Inspect
    case FinishReply(_) => Finish
    case VoucherReply(_) => Voucher
    case NoticeReply(_) => Notice
    case ReportReply(_) => Report
    case ExceptionReply(_) => Exception
    case ShutdownReply => Shutdown
  }

  function StateName(m: Mode): string {
    match m
    case Idle => "idle"
    case FetchRequest(_) => "fetch request"
    case Inspecting(_, _) => "inspect"
    case Advancing(_, _, _, _) => "advance"
    case Terminated => "terminated"
  }

  /** The branches of the biased select of a state, in polling order. */
  function SelectOrder(m: Mode): seq<Kind> {
    match m
    case Idle => [Finish, Voucher, Notice, Report, Exception, Shutdown]
    case FetchRequest(_) => [Inspect, Advance, Finish, Voucher, Notice, Report, Exception, Shutdown]
    case Inspecting(_, _) => [Finish, Report, Exception, Voucher, Notice, Shutdown]
    case Advancing(_, _, _, _) => [Finish, Voucher, Notice, Report, Exception, Shutdown]
    case Terminated => []
  }

  function Nothing<T>(): (m: PerKind<T>)
    ensures forall k: Kind :: m.Of(k) == []
  {
    PerKind([], [], [], [], [], [], [], [])
  }

  function Init(): System {
    System(Idle, Nothing(), [], [], Nothing())
  }

  /** The first kind in `order` that has a request waiting. */
  function FirstReady(order: seq<Kind>, queues: PerKind<SyncRequest>): (r: Option<Kind>)
    ensures r.Some? ==> r.value in order && queues.Of(r.value) != []
    ensures r.None? ==> forall k | k in order :: queues.Of(k) == []
  {
    if order == [] then None
    else if queues.Of(order[0]) != [] then Some(order[0])
    else FirstReady(order[1..], queues)
  }

  function Tokens(q: seq<SyncRequest>): (r: seq<nat>)
    ensures |r| == |q|
  {
    seq(|q|, i requires 0 <= i < |q| => q[i].token)
  }

  /** The reply channel of kind `k` that the current state holds, if any. */
  function Held(m: Mode, k: Kind): seq<nat> {
    match m
    case FetchRequest(f) => if k == Finish then [f] else []
    case Inspecting(t, _) => if k == Inspect then [t] else []
    case Advancing(t, _, _, _) => if k == Advance then [t] else []
    case _ => []
  }

  /** The replies sent while handling one request, in order, and the next state. */
  datatype Outcome = Outcome(answers: seq<Answer>, next: Mode)

  /** A request that is not legal in the current state is answered with an error. */
  function Refuse(m: Mode, token: nat, r: Request): Outcome {
    var reply := match r
      case VoucherRequest(_) => VoucherReply(Err(InvalidRequest("voucher", StateName(m))))
      case NoticeRequest(_) => NoticeReply(Err(InvalidRequest("notice", StateName(m))))
      case ReportRequest(_) => ReportReply(Err(InvalidRequest("report", StateName(m))))
      case _ => ExceptionReply(Err(InvalidRequest("exception", StateName(m))));
    Outcome([Answer(token, reply)], m)
  }

  /** The body of the select branch that received request `r`. */
  function Handle(m: Mode, token: nat, r: Request): Outcome {
    match (m, r)
    case (_, ShutdownRequest) => Outcome([Answer(token, ShutdownReply)], Terminated)
    case (Idle, FinishRequest(_)) => Outcome([], FetchRequest(token))
    case (FetchRequest(f), InspectRequest(p)) =>
      Outcome([Answer(f, FinishReply(Ok(InspectState(p))))], Inspecting(token, []))
    case (FetchRequest(f), AdvanceRequest(md, p)) =>
      Outcome([Answer(f, FinishReply(Ok(AdvanceState(md, p))))], Advancing(token, [], [], []))
    case (FetchRequest(f), FinishRequest(_)) =>
      Outcome([Answer(f, FinishReply(Err(FetchRequestTimeout)))], FetchRequest(token))
    case (Inspecting(t, reports), FinishRequest(status)) =>
      var result := if status.Accept? then InspectAccepted else InspectRejected;
      Outcome([Answer(t, InspectReply(result, reports))], FetchRequest(token))
    case (Inspecting(t, reports), ReportRequest(report)) =>
      Outcome([Answer(token, ReportReply(Ok(())))], Inspecting(t, reports + [report]))
    case (Inspecting(t, reports), ExceptionRequest(e)) =>
      Outcome([Answer(t, InspectReply(InspectFailed(e), reports)),
               Answer(token, ExceptionReply(Ok(())))], Idle)
    case (Advancing(t, vs, ns, reports), FinishRequest(status)) =>
      var result := if status.Accept? then Accepted(vs, ns) else Rejected;
      Outcome([Answer(t, AdvanceReply(result, reports))], FetchRequest(token))
    case (Advancing(t, vs, ns, reports), VoucherRequest(v)) =>
      Outcome([Answer(token, VoucherReply(Ok(|vs|)))], Advancing(t, vs + [v], ns, reports))
    case (Advancing(t, vs, ns, reports), NoticeRequest(n)) =>
      Outcome([Answer(token, NoticeReply(Ok(|ns|)))], Advancing(t, vs, ns + [n], reports))
    case (Advancing(t, vs, ns, reports), ReportRequest(report)) =>
      Outcome([Answer(token, ReportReply(Ok(())))], Advancing(t, vs, ns, reports + [report]))
    case (Advancing(t, vs, ns, reports), ExceptionRequest(e)) =>
      Outcome([Answer(t, AdvanceReply(Failed(e), reports)),
               Answer(token, ExceptionReply(Ok(())))], Idle)
    case (_, _) => Refuse(m, token, r)
  }

  /** Waiting for a request took longer than the finish timeout. */
  function TimeOut(finish: nat): Outcome {
    Outcome([Answer(finish, FinishReply(Err(FetchRequestTimeout)))], Idle)
  }

  /** Ending the service drops its state and everything the state owns. */
  function Close(m: Mode, queues: PerKind<SyncRequest>): (lost: PerKind<nat>)
    ensures forall k: Kind :: lost.Of(k) == Held(m, k) + Tokens(queues.Of(k))
  {
    var of := (k: Kind) => Held(m, k) + Tokens(queues.Of(k));
    PerKind(of(Advance), of(Inspect), of(Finish), of(Voucher),
            of(Notice), of(Report), of(Exception), of(Shutdown))
  }

  function Apply(s: System, o: Outcome): System {
    if o.next.Terminated?
    then System(Terminated, Nothing(), s.issued, s.replies + o.answers, Close(s.mode, s.queues))
    else s.(mode := o.next, replies := s.replies + o.answers)
  }

  /** The kind that the select of the current state picks, if any branch is ready. */
  function Chosen(s: System): (r: Option<Kind>)
  {
    FirstReady(SelectOrder(s.mode), s.queues)
  }

  /** Remove the head of queue `k`. */
  function Pop(s: System, k: Kind): System
    requires s.queues.Of(k) != []
  {
    s.(queues := s.queues.With(k, s.queues.Of(k)[1..]))
  }

  /** One call to `process`. It leaves the state alone when no branch is ready. */
  function ProcessStep(s: System, timedOut: bool): System {
    if s.mode.FetchRequest? && timedOut then
      Apply(s, TimeOut(s.mode.finish))
    else
      match Chosen(s)
      case None => s
      case Some(k) => Apply(Pop(s, k), Handle(s.mode, s.queues.Of(k)[0].token, s.queues.Of(k)[0].request))
  }

  /** Submission puts the request in its queue, or closes its channel after shutdown. */
  function SubmitStep(s: System, r: Request): System
  {
    var k, token := KindOf(r), |s.issued|;
    if s.mode.Terminated? then
      s.(issued := s.issued + [r], dropped := s.dropped.With(k, s.dropped.Of(k) + [token]))
    else
      s.(issued := s.issued + [r],
         queues := s.queues.With(k, s.queues.Of(k) + [SyncRequest(token, r)]))
  }

  function Step(s: System, a: Action): (s': System)
  {
    match a
    case Submit(r) => SubmitStep(s, r)
    case Process(timedOut) => ProcessStep(s, timedOut)
  }

  /** The state after the actions in order. */
  function Run(s: System, actions: seq<Action>): (s': System)
  {
    if actions == [] then s else Step(Run(s, Front(actions)), Last(actions))
  }
}
