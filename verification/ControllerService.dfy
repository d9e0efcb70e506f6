/**
 The controller service as an object that is updated in place. Every method is
 proved against the step functions of Controller.
 */
module ControllerService {
  import opened Common
  import opened Controller
  import opened ControllerRuns
  import opened ControllerSteps

  class Service {
    var mode: Mode
    var queues: PerKind<SyncRequest>
    var issued: seq<Request>
    var replies: seq<Answer>
    var dropped: PerKind<nat>

    function View(): System
      reads this
    {
      System(mode, queues, issued, replies, dropped)
    }

    constructor ()
      ensures View() == Init()
    {
      mode, queues, issued, replies, dropped := Idle, Nothing(), [], [], Nothing();
    }

    /** Put a request in its queue; the caller keeps the receiving end of its channel. */
    method Submit(request: Request) returns (token: nat)
      modifies this
      ensures View() == SubmitStep(old(View()), request)
      ensures token == old(|issued|)
    {
      token := |issued|;
      var k := KindOf(request);
      if mode.Terminated? {
        dropped := dropped.With(k, dropped.Of(k) + [token]);
      } else {
        queues := queues.With(k, queues.Of(k) + [SyncRequest(token, request)]);
      }
      issued := issued + [request];
    }

    method SendResponse(token: nat, reply: Reply)
      modifies this`replies
      ensures replies == old(replies) + [Answer(token, reply)]
    {
      replies := replies + [Answer(token, reply)];
    }

    /** Receive the head of queue `k`. */
    method Receive(k: Kind) returns (head: SyncRequest)
      requires queues.Of(k) != []
      modifies this`queues
      ensures head == old(queues.Of(k))[0]
      ensures queues == old(queues).With(k, old(queues.Of(k))[1..])
    {
      head := queues.Of(k)[0];
      queues := queues.With(k, queues.Of(k)[1..]);
    }

    /** Poll the branches of the select in order and return the first ready one. */
    method Select() returns (ready: Option<Kind>)
      ensures ready == Chosen(View())
    {
      var order := SelectOrder(mode);
      for i := 0 to |order|
        invariant forall j | 0 <= j < i :: queues.Of(order[j]) == []
      {
        if queues.Of(order[i]) != [] {
          SelectIsBiased(order, queues, i);
          return Some(order[i]);
        }
      }
      return None;
    }

    method HandleInvalid(token: nat, request: Request)
      requires !mode.Terminated?
      modifies this`replies
      ensures View() == Apply(old(View()), Refuse(mode, token, request))
    {
      var name := StateName(mode);
      match request
      case VoucherRequest(_) => SendResponse(token, VoucherReply(Err(InvalidRequest("voucher", name))));
      case NoticeRequest(_) => SendResponse(token, NoticeReply(Err(InvalidRequest("notice", name))));
      case ReportRequest(_) => SendResponse(token, ReportReply(Err(InvalidRequest("report", name))));
      case _ => SendResponse(token, ExceptionReply(Err(InvalidRequest("exception", name))));
    }

    method ShutDown(token: nat)
      modifies this
      ensures View() == Apply(old(View()), Handle(old(mode), token, ShutdownRequest))
    {
      SendResponse(token, ShutdownReply);
      dropped := Close(mode, queues);
      mode, queues := Terminated, Nothing();
    }

    /** The controller waits for a finish request from the application. */
    method HandleInIdle(token: nat, request: Request)
      requires mode.Idle? && KindOf(request) in SelectOrder(mode)
      modifies this
      ensures View() == Apply(old(View()), Handle(old(mode), token, request))
    {
      if request.FinishRequest? {
        mode := FetchRequest(token);
      } else if request.ShutdownRequest? {
        ShutDown(token);
      } else {
        HandleInvalid(token, request);
      }
    }

    /** The controller waits for an inspect or an advance request. */
    method HandleInFetchRequest(token: nat, request: Request)
      requires mode.FetchRequest? && KindOf(request) in SelectOrder(mode)
      modifies this
      ensures View() == Apply(old(View()), Handle(old(mode), token, request))
    {
      match request
      case InspectRequest(payload) =>
        SendResponse(mode.finish, FinishReply(Ok(InspectState(payload))));
        mode := Inspecting(token, []);
      case AdvanceRequest(metadata, payload) =>
        SendResponse(mode.finish, FinishReply(Ok(AdvanceState(metadata, payload))));
        mode := Advancing(token, [], [], []);
      case FinishRequest(_) =>
        SendResponse(mode.finish, FinishReply(Err(FetchRequestTimeout)));
        mode := FetchRequest(token);
      case ShutdownRequest => ShutDown(token);
      case _ => HandleInvalid(token, request);
    }

    /** The controller waits for reports, an exception, or finish. */
    method HandleInInspect(token: nat, request: Request)
      requires mode.Inspecting? && KindOf(request) in SelectOrder(mode)
      modifies this
      ensures View() == Apply(old(View()), Handle(old(mode), token, request))
    {
      match request
      case FinishRequest(status) =>
        var result := match status case Accept => InspectAccepted case Reject => InspectRejected;
        SendResponse(mode.inspect, InspectReply(result, mode.collected));
        mode := FetchRequest(token);
      case ReportRequest(report) =>
        mode := mode.(collected := mode.collected + [report]);
        SendResponse(token, ReportReply(Ok(())));
      case ExceptionRequest(exception) =>
        SendResponse(mode.inspect, InspectReply(InspectFailed(exception), mode.collected));
        SendResponse(token, ExceptionReply(Ok(())));
        mode := Idle;
      case ShutdownRequest => ShutDown(token);
      case _ => HandleInvalid(token, request);
    }

    /** The controller waits for vouchers, notices, reports, an exception, or finish. */
    method HandleInAdvance(token: nat, request: Request)
      requires mode.Advancing? && KindOf(request) in SelectOrder(mode)
      modifies this
      ensures View() == Apply(old(View()), Handle(old(mode), token, request))
    {
      match request
      case FinishRequest(status) =>
        var result := match status case Accept => Accepted(mode.vouchers, mode.notices) case Reject => Rejected;
        SendResponse(mode.advance, AdvanceReply(result, mode.reports));
        mode := FetchRequest(token);
      case VoucherRequest(voucher) =>
        mode := mode.(vouchers := mode.vouchers + [voucher]);
        SendResponse(token, VoucherReply(Ok(|mode.vouchers| - 1)));
      case NoticeRequest(notice) =>
        mode := mode.(notices := mode.notices + [notice]);
        SendResponse(token, NoticeReply(Ok(|mode.notices| - 1)));
      case ReportRequest(report) =>
        mode := mode.(reports := mode.reports + [report]);
        SendResponse(token, ReportReply(Ok(())));
      case ExceptionRequest(exception) =>
        SendResponse(mode.advance, AdvanceReply(Failed(exception), mode.reports));
        SendResponse(token, ExceptionReply(Ok(())));
        mode := Idle;
      case ShutdownRequest => ShutDown(token);
    }

    /** One call to `process`; it returns whether the service goes on. */
    method Process(timedOut: bool) returns (goesOn: bool)
      requires Tagged(View())
      modifies this
      ensures View() == ProcessStep(old(View()), timedOut)
      ensures goesOn <==> !mode.Terminated?
    {
      if mode.FetchRequest? && timedOut {
        SendResponse(mode.finish, FinishReply(Err(FetchRequestTimeout)));
        mode := Idle;
        return true;
      }
      var ready := Select();
      if ready.Some? {
        assert queues.Of(ready.value)[0] in queues.Of(ready.value);
        var head := Receive(ready.value);
        match mode
        case Idle => HandleInIdle(head.token, head.request);
        case FetchRequest(_) => HandleInFetchRequest(head.token, head.request);
        case Inspecting(_, _) => HandleInInspect(head.token, head.request);
        case Advancing(_, _, _, _) => HandleInAdvance(head.token, head.request);
      }
      goesOn := !mode.Terminated?;
    }

    /** The service from its creation, under any interleaving with its callers. */
    method RunAll(actions: seq<Action>)
      requires View() == Init()
      modifies this
      ensures View() == Run(Init(), actions) && Invariant(View())
    {
      assert actions[..0] == [];
      RunInvariant([]);
      for i := 0 to |actions|
        invariant View() == Run(Init(), actions[..i]) && Invariant(View())
      {
        assert Front(actions[..i + 1]) == actions[..i] && Last(actions[..i + 1]) == actions[i];
        RunInvariant(actions[..i + 1]);
        match actions[i]
        case Submit(request) => var token := Submit(request);
        case Process(timedOut) => var goesOn := Process(timedOut);
      }
      assert actions[..|actions|] == actions;
    }
  }
}
