/**
 What every run of the controller keeps.

 `Ledger` accounts for all reply channels of one kind. `Justified` explains each
 reply from the requests submitted and the replies sent before it, without
 mentioning the state of the service.
 */
module ControllerRuns {
  import opened Common
  import opened Controller

  // ------------------------------------------------------------------ accounting

  /** The tokens of the requests of kind `k`, in submission order. */
  function OfKind(issued: seq<Request>, k: Kind): seq<nat> {
    if issued == [] then []
    else OfKind(Front(issued), k) + if KindOf(Last(issued)) == k then [|issued| - 1] else []
  }

  /** The tokens of kind `k` that were answered, in the order of their replies. */
  function AnsweredOf(replies: seq<Answer>, k: Kind): seq<nat> {
    if replies == [] then []
    else
      var last := if KindOfReply(Last(replies).reply) == k then [Last(replies).token] else [];
      AnsweredOf(Front(replies), k) + last
  }

  /** Reply channels of kind `k` without a reply: held and queued, or closed after shutdown. */
  function Unanswered(s: System, k: Kind): seq<nat> {
    if s.mode.Terminated? then s.dropped.Of(k) else Held(s.mode, k) + Tokens(s.queues.Of(k))
  }

  /** Every reply channel of kind `k`. */
  function Ledger(s: System, k: Kind): seq<nat> {
    AnsweredOf(s.replies, k) + Unanswered(s, k)
  }

  ghost predicate Fifo(s: System) {
    forall k: Kind :: Ledger(s, k) == OfKind(s.issued, k)
  }

  /** Queued requests sit in the queue of their kind with their own channel. */
  ghost predicate Tagged(s: System) {
    forall k: Kind, r | r in s.queues.Of(k) ::
      r.token < |s.issued| && s.issued[r.token] == r.request && KindOf(r.request) == k
  }

  /** Channels are closed without a reply by shutdown only. */
  ghost predicate DropsOnlyOnShutdown(s: System) {
    forall k: Kind :: if s.mode.Terminated? then s.queues.Of(k) == [] else s.dropped.Of(k) == []
  }

  ghost predicate Accounted(s: System) {
    Fifo(s) && Tagged(s) && DropsOnlyOnShutdown(s)
  }

  lemma {:induction false} AnsweredAppend(replies: seq<Answer>, a: Answer, k: Kind)
    ensures AnsweredOf(replies + [a], k) == AnsweredOf(replies, k) + AnsweredOf([a], k)
  {
    assert Front(replies + [a]) == replies;
  }

  lemma {:induction false} AnsweredConcat(replies: seq<Answer>, more: seq<Answer>, k: Kind)
    ensures AnsweredOf(replies + more, k) == AnsweredOf(replies, k) + AnsweredOf(more, k)
  {
    if more == [] {
      assert replies + more == replies;
    } else {
      AnsweredConcat(replies, Front(more), k);
      AnsweredAppend(replies + Front(more), Last(more), k);
      AnsweredAppend(Front(more), Last(more), k);
      assert replies + more == (replies + Front(more)) + [Last(more)];
      assert more == Front(more) + [Last(more)];
    }
  }

  lemma {:induction false} OfKindAppend(issued: seq<Request>, r: Request, k: Kind)
    ensures OfKind(issued + [r], k)
         == OfKind(issued, k) + if KindOf(r) == k then [|issued|] else []
  {
    assert Front(issued + [r]) == issued;
  }

  lemma {:induction false} TokensAppend(q: seq<SyncRequest>, r: SyncRequest)
    ensures Tokens(q + [r]) == Tokens(q) + [r.token]
  {
  }

  lemma {:induction false} TokensHead(q: seq<SyncRequest>)
    requires q != []
    ensures Tokens(q) == [q[0].token] + Tokens(q[1..])
  {
  }

  lemma {:induction false} SubmitUnanswered(s: System, r: Request, k: Kind)
    ensures Unanswered(SubmitStep(s, r), k)
         == Unanswered(s, k) + if k == KindOf(r) then [|s.issued|] else []
  {
    if k == KindOf(r) && !s.mode.Terminated? {
      TokensAppend(s.queues.Of(k), SyncRequest(|s.issued|, r));
    }
  }

  lemma {:induction false} SubmitLedger(s: System, r: Request, k: Kind)
    requires Ledger(s, k) == OfKind(s.issued, k)
    ensures Ledger(SubmitStep(s, r), k) == OfKind(SubmitStep(s, r).issued, k)
  {
    var more := if k == KindOf(r) then [|s.issued|] else [];
    OfKindAppend(s.issued, r, k);
    SubmitUnanswered(s, r, k);
    assert AnsweredOf(s.replies, k) + (Unanswered(s, k) + more) == Ledger(s, k) + more;
  }

  lemma {:induction false} SubmitAccounted(s: System, r: Request)
    requires Accounted(s)
    ensures Accounted(SubmitStep(s, r))
  {
    var s' := SubmitStep(s, r);
    forall k: Kind ensures Ledger(s', k) == OfKind(s'.issued, k) {
      SubmitLedger(s, r, k);
    }
    forall k: Kind, q | q in s'.queues.Of(k)
      ensures q.token < |s'.issued| && s'.issued[q.token] == q.request && KindOf(q.request) == k
    {
      assert q in s.queues.Of(k) || q == SyncRequest(|s.issued|, r);
    }
  }

  lemma {:induction false} AnsweredOne(a: Answer, k: Kind)
    ensures AnsweredOf([a], k) == if KindOfReply(a.reply) == k then [a.token] else []
  {
    assert Front([a]) == [];
  }

  lemma {:induction false} AnsweredTwo(a: Answer, b: Answer, k: Kind)
    ensures AnsweredOf([a, b], k) == AnsweredOf([a], k) + AnsweredOf([b], k)
  {
    AnsweredAppend([a], b, k);
    assert [a, b] == [a] + [b];
  }

  /** What the select of a state lets through. */
  predicate Selectable(m: Mode, r: Request) {
    !m.Terminated? && (r.AdvanceRequest? || r.InspectRequest? ==> m.FetchRequest?)
  }

  lemma {:induction false} SelectedIsSelectable(m: Mode, r: Request)
    requires KindOf(r) in SelectOrder(m)
    ensures Selectable(m, r)
  {
  }

  /** The outcome of request `c` with channel `token` answers or holds it and the channel that `m` held. */
  ghost predicate Settles(o: Outcome, m: Mode, c: Kind, token: nat, k: Kind) {
    && !o.next.Terminated?
    && AnsweredOf(o.answers, k) + Held(o.next, k) == Held(m, k) + (if k == c then [token] else [])
  }

  /** An outcome with one reply. */
  lemma {:induction false} OneReplySettles(o: Outcome, a: Answer, m: Mode, c: Kind, token: nat, k: Kind)
    requires o.answers == [a] && !o.next.Terminated?
    requires (if KindOfReply(a.reply) == k then [a.token] else []) + Held(o.next, k)
          == Held(m, k) + (if k == c then [token] else [])
    ensures Settles(o, m, c, token, k)
  {
    AnsweredOne(a, k);
  }

  lemma {:induction false} RefuseSettles(m: Mode, token: nat, r: Request, k: Kind)
    requires r.VoucherRequest? || r.NoticeRequest? || r.ReportRequest? || r.ExceptionRequest?
    requires !m.Terminated?
    ensures Settles(Refuse(m, token, r), m, KindOf(r), token, k)
  {
    var o := Refuse(m, token, r);
    OneReplySettles(o, o.answers[0], m, KindOf(r), token, k);
  }

  lemma {:induction false} QuietSettles(m: Mode, token: nat, r: Request, k: Kind)
    requires Selectable(m, r) && !r.ShutdownRequest? && (m.Idle? || m.FetchRequest?)
    ensures Settles(Handle(m, token, r), m, KindOf(r), token, k)
  {
    var o := Handle(m, token, r);
    if r.VoucherRequest? || r.NoticeRequest? || r.ReportRequest? || r.ExceptionRequest? {
      RefuseSettles(m, token, r, k);
    } else if m.FetchRequest? {
      OneReplySettles(o, o.answers[0], m, KindOf(r), token, k);
    }
  }

  lemma {:induction false} InspectSettles(m: Mode, token: nat, r: Request, k: Kind)
    requires Selectable(m, r) && !r.ShutdownRequest? && !r.ExceptionRequest? && m.Inspecting?
    ensures Settles(Handle(m, token, r), m, KindOf(r), token, k)
  {
    var o := Handle(m, token, r);
    OneReplySettles(o, o.answers[0], m, KindOf(r), token, k);
  }

  lemma {:induction false} AdvanceSettles(m: Mode, token: nat, r: Request, k: Kind)
    requires Selectable(m, r) && !r.ShutdownRequest? && !r.ExceptionRequest? && m.Advancing?
    ensures Settles(Handle(m, token, r), m, KindOf(r), token, k)
  {
    var o := Handle(m, token, r);
    OneReplySettles(o, o.answers[0], m, KindOf(r), token, k);
  }

  lemma {:induction false} ExceptionSettles(m: Mode, token: nat, r: Request, k: Kind)
    requires r.ExceptionRequest? && (m.Inspecting? || m.Advancing?)
    ensures Settles(Handle(m, token, r), m, KindOf(r), token, k)
  {
    var o := Handle(m, token, r);
    AnsweredOne(o.answers[0], k);
    AnsweredOne(o.answers[1], k);
    AnsweredTwo(o.answers[0], o.answers[1], k);
    assert o.answers == [o.answers[0], o.answers[1]];
  }

  /** Handling a request answers or holds its channel and the one the state held. */
  lemma {:induction false} HandleSettles(m: Mode, token: nat, r: Request, k: Kind)
    requires Selectable(m, r) && !r.ShutdownRequest?
    ensures Settles(Handle(m, token, r), m, KindOf(r), token, k)
  {
    if m.Idle? || m.FetchRequest? {
      QuietSettles(m, token, r, k);
    } else if r.ExceptionRequest? {
      ExceptionSettles(m, token, r, k);
    } else if m.Inspecting? {
      InspectSettles(m, token, r, k);
    } else {
      AdvanceSettles(m, token, r, k);
    }
  }

  lemma {:induction false} CloseTokens(m: Mode, queues: PerKind<SyncRequest>, k: Kind)
    requires queues.Of(Shutdown) != []
    ensures var t := queues.Of(Shutdown)[0].token;
            var rest := queues.With(Shutdown, queues.Of(Shutdown)[1..]);
            AnsweredOf([Answer(t, ShutdownReply)], k) + (Held(m, k) + Tokens(rest.Of(k)))
            == Held(m, k) + Tokens(queues.Of(k))
  {
    var t := queues.Of(Shutdown)[0].token;
    var rest := queues.With(Shutdown, queues.Of(Shutdown)[1..]);
    AnsweredOne(Answer(t, ShutdownReply), k);
    if k == Shutdown {
      TokensHead(queues.Of(Shutdown));
      assert Held(m, k) == [];
    } else {
      assert rest.Of(k) == queues.Of(k);
    }
  }

  /** Shutdown closes the channels that are held or queued. */
  lemma {:induction false} CloseUnanswered(s: System, k: Kind)
    requires s.queues.Of(Shutdown) != [] && !s.mode.Terminated?
    ensures var t := s.queues.Of(Shutdown)[0].token;
            var s' := Apply(Pop(s, Shutdown), Handle(s.mode, t, ShutdownRequest));
            && s'.replies == s.replies + [Answer(t, ShutdownReply)]
            && AnsweredOf([Answer(t, ShutdownReply)], k) + Unanswered(s', k) == Unanswered(s, k)
  {
    CloseTokens(s.mode, s.queues, k);
  }

  lemma RegroupRest<T>(a: seq<T>, b: seq<T>, c: seq<T>, d: seq<T>, rest: seq<T>)
    requires a + b == c + d
    ensures a + (b + rest) == c + (d + rest)
  {
    assert a + (b + rest) == (a + b) + rest;
    assert c + (d + rest) == (c + d) + rest;
  }

  lemma {:induction false} HandleUnanswered(s: System, c: Kind, o: Outcome, k: Kind)
    requires s.queues.Of(c) != [] && !s.mode.Terminated? && Settles(o, s.mode, c, s.queues.Of(c)[0].token, k)
    ensures AnsweredOf(o.answers, k) + Unanswered(Apply(Pop(s, c), o), k) == Unanswered(s, k)
  {
    TokensHead(s.queues.Of(c));
    var moved := if k == c then [s.queues.Of(c)[0].token] else [];
    var rest := Tokens(Pop(s, c).queues.Of(k));
    assert Tokens(s.queues.Of(k)) == moved + rest;
    RegroupRest(AnsweredOf(o.answers, k), Held(o.next, k), Held(s.mode, k), moved, rest);
  }

  lemma {:induction false} SameLedger(s: System, s': System, sent: seq<Answer>, k: Kind)
    requires s'.replies == s.replies + sent
    requires AnsweredOf(sent, k) + Unanswered(s', k) == Unanswered(s, k)
    ensures Ledger(s', k) == Ledger(s, k)
  {
    AnsweredConcat(s.replies, sent, k);
  }

  lemma {:induction false} TimeOutLedger(s: System, k: Kind)
    requires s.mode.FetchRequest?
    ensures Ledger(Apply(s, TimeOut(s.mode.finish)), k) == Ledger(s, k)
  {
    var o := TimeOut(s.mode.finish);
    AnsweredOne(o.answers[0], k);
    assert Held(o.next, k) + Tokens(s.queues.Of(k)) == Tokens(s.queues.Of(k));
    SameLedger(s, Apply(s, o), o.answers, k);
  }

  lemma {:induction false} CloseLedger(s: System, k: Kind)
    requires s.queues.Of(Shutdown) != [] && !s.mode.Terminated?
    ensures var t := s.queues.Of(Shutdown)[0].token;
            Ledger(Apply(Pop(s, Shutdown), Handle(s.mode, t, ShutdownRequest)), k) == Ledger(s, k)
  {
    var t := s.queues.Of(Shutdown)[0].token;
    CloseUnanswered(s, k);
    SameLedger(s, Apply(Pop(s, Shutdown), Handle(s.mode, t, ShutdownRequest)), [Answer(t, ShutdownReply)], k);
  }

  lemma {:induction false} HandledLedger(s: System, c: Kind, o: Outcome, k: Kind)
    requires s.queues.Of(c) != [] && !s.mode.Terminated? && Settles(o, s.mode, c, s.queues.Of(c)[0].token, k)
    ensures Ledger(Apply(Pop(s, c), o), k) == Ledger(s, k)
  {
    HandleUnanswered(s, c, o, k);
    SameLedger(s, Apply(Pop(s, c), o), o.answers, k);
  }

  /** Handling a request leaves the other queues alone, and shutdown empties them. */
  lemma {:induction false} ApplyTagged(s: System, c: Kind, o: Outcome)
    requires Tagged(s) && DropsOnlyOnShutdown(s) && !s.mode.Terminated? && s.queues.Of(c) != []
    ensures var s' := Apply(Pop(s, c), o); Tagged(s') && DropsOnlyOnShutdown(s')
  {
    var s' := Apply(Pop(s, c), o);
    assert forall k: Kind, q | q in s'.queues.Of(k) :: q in s.queues.Of(k);
  }

  lemma {:induction false} TimeOutAccounted(s: System)
    requires Accounted(s) && s.mode.FetchRequest?
    ensures Accounted(Apply(s, TimeOut(s.mode.finish)))
  {
    var s' := Apply(s, TimeOut(s.mode.finish));
    forall k: Kind ensures Ledger(s', k) == OfKind(s'.issued, k) {
      TimeOutLedger(s, k);
    }
  }

  lemma {:induction false} HandledFifo(s: System, c: Kind, r: Request, token: nat, k: Kind)
    requires s.queues.Of(c) != [] && s.queues.Of(c)[0] == SyncRequest(token, r)
    requires Selectable(s.mode, r) && !r.ShutdownRequest? && KindOf(r) == c
    ensures Ledger(Apply(Pop(s, c), Handle(s.mode, token, r)), k) == Ledger(s, k)
  {
    HandleSettles(s.mode, token, r, k);
    HandledLedger(s, c, Handle(s.mode, token, r), k);
  }

  lemma {:induction false} ApplyKeepsIssued(s: System, c: Kind, o: Outcome)
    requires s.queues.Of(c) != []
    ensures Apply(Pop(s, c), o).issued == s.issued
  {
  }

  lemma {:induction false} ShutdownKeepsFifo(s: System, token: nat)
    requires Fifo(s) && !s.mode.Terminated?
    requires s.queues.Of(Shutdown) != [] && s.queues.Of(Shutdown)[0].token == token
    ensures Fifo(Apply(Pop(s, Shutdown), Handle(s.mode, token, ShutdownRequest)))
  {
    var s' := Apply(Pop(s, Shutdown), Handle(s.mode, token, ShutdownRequest));
    ApplyKeepsIssued(s, Shutdown, Handle(s.mode, token, ShutdownRequest));
    forall k: Kind ensures Ledger(s', k) == OfKind(s'.issued, k) {
      CloseLedger(s, k);
    }
  }

  lemma {:induction false} HandleKeepsFifo(s: System, c: Kind, r: Request, token: nat)
    requires Fifo(s) && s.queues.Of(c) != [] && s.queues.Of(c)[0] == SyncRequest(token, r)
    requires Selectable(s.mode, r) && !r.ShutdownRequest? && KindOf(r) == c
    ensures Fifo(Apply(Pop(s, c), Handle(s.mode, token, r)))
  {
    var s' := Apply(Pop(s, c), Handle(s.mode, token, r));
    ApplyKeepsIssued(s, c, Handle(s.mode, token, r));
    forall k: Kind ensures Ledger(s', k) == OfKind(s'.issued, k) {
      HandledFifo(s, c, r, token, k);
    }
  }

  /** The head of a queue, as the select hands it over. */
  lemma {:induction false} HeadIsTagged(s: System, c: Kind)
    requires Tagged(s) && c in SelectOrder(s.mode) && s.queues.Of(c) != []
    ensures KindOf(s.queues.Of(c)[0].request) == c && Selectable(s.mode, s.queues.Of(c)[0].request)
  {
    assert s.queues.Of(c)[0] in s.queues.Of(c);
    SelectedIsSelectable(s.mode, s.queues.Of(c)[0].request);
  }

  lemma {:induction false} HandledAccounted(s: System, c: Kind, r: Request, token: nat)
    requires Accounted(s) && s.queues.Of(c) != [] && s.queues.Of(c)[0] == SyncRequest(token, r)
    requires Selectable(s.mode, r) && KindOf(r) == c
    ensures Accounted(Apply(Pop(s, c), Handle(s.mode, token, r)))
  {
    ApplyTagged(s, c, Handle(s.mode, token, r));
    if c == Shutdown {
      ShutdownKeepsFifo(s, token);
    } else {
      HandleKeepsFifo(s, c, r, token);
    }
  }

  lemma {:induction false} ProcessAccounted(s: System, timedOut: bool)
    requires Accounted(s)
    ensures Accounted(ProcessStep(s, timedOut))
  {
    if s.mode.FetchRequest? && timedOut {
      TimeOutAccounted(s);
    } else if Chosen(s).Some? {
      var c := Chosen(s).value;
      HeadIsTagged(s, c);
      HandledAccounted(s, c, s.queues.Of(c)[0].request, s.queues.Of(c)[0].token);
    }
  }

  // ------------------------------------------------------- explaining every reply

  /** The request delivered to the application and not answered yet. */
  function OpenRequest(replies: seq<Answer>): Option<RollupRequest> {
    if replies == [] then None
    else match Last(replies).reply
      case FinishReply(Ok(r)) => Some(r)
      case AdvanceReply(_, _) => None
      case InspectReply(_, _) => None
      case _ => OpenRequest(Front(replies))
  }

  /** The vouchers acknowledged since the last request was delivered. */
  function VouchersSince(issued: seq<Request>, replies: seq<Answer>): seq<VoucherData> {
    if replies == [] then []
    else
      var a := Last(replies);
      if a.reply.FinishReply? && a.reply.next.Ok? then []
      else
        var acknowledged := a.reply.VoucherReply? && a.reply.index.Ok?
                         && a.token < |issued| && issued[a.token].VoucherRequest?;
        VouchersSince(issued, Front(replies)) + if acknowledged then [issued[a.token].voucher] else []
  }

  /** The notices acknowledged since the last request was delivered. */
  function NoticesSince(issued: seq<Request>, replies: seq<Answer>): seq<Bytes> {
    if replies == [] then []
    else
      var a := Last(replies);
      if a.reply.FinishReply? && a.reply.next.Ok? then []
      else
        var acknowledged := a.reply.NoticeReply? && a.reply.index.Ok?
                         && a.token < |issued| && issued[a.token].NoticeRequest?;
        NoticesSince(issued, Front(replies)) + if acknowledged then [issued[a.token].notice] else []
  }

  /** The reports acknowledged since the last request was delivered. */
  function ReportsSince(issued: seq<Request>, replies: seq<Answer>): seq<Bytes> {
    if replies == [] then []
    else
      var a := Last(replies);
      if a.reply.FinishReply? && a.reply.next.Ok? then []
      else
        var acknowledged := a.reply.ReportReply? && a.reply.done.Ok?
                         && a.token < |issued| && issued[a.token].ReportRequest?;
        ReportsSince(issued, Front(replies)) + if acknowledged then [issued[a.token].report] else []
  }

  /** The first request of kind `k` that has no reply in `replies`. */
  function NextOf(issued: seq<Request>, replies: seq<Answer>, k: Kind): Option<Request> {
    var n, all := |AnsweredOf(replies, k)|, OfKind(issued, k);
    if n < |all| && all[n] < |issued| then Some(issued[all[n]]) else None
  }

  predicate AdvanceOpen(replies: seq<Answer>) {
    OpenRequest(replies).Some? && OpenRequest(replies).value.AdvanceState?
  }

  /** Why `a` is the right reply after the replies in `before`. */
  ghost predicate Justified(issued: seq<Request>, before: seq<Answer>, a: Answer) {
    && a.token < |issued|
    && KindOf(issued[a.token]) == KindOfReply(a.reply)
    && match a.reply
       case AdvanceReply(status, reports) =>
         && OpenRequest(before) == Some(AdvanceState(issued[a.token].metadata, issued[a.token].payload))
         && reports == ReportsSince(issued, before)
         && (match status
             case Accepted(vs, ns) =>
               && vs == VouchersSince(issued, before) && ns == NoticesSince(issued, before)
               && NextOf(issued, before, Finish) == Some(FinishRequest(Accept))
             case Rejected => NextOf(issued, before, Finish) == Some(FinishRequest(Reject))
             case Failed(e) => NextOf(issued, before, Exception) == Some(ExceptionRequest(e)))
       case InspectReply(status, reports) =>
         && OpenRequest(before) == Some(InspectState(issued[a.token].payload))
         && reports == ReportsSince(issued, before)
         && (match status
             case InspectAccepted => NextOf(issued, before, Finish) == Some(FinishRequest(Accept))
             case InspectRejected => NextOf(issued, before, Finish) == Some(FinishRequest(Reject))
             case InspectFailed(e) => NextOf(issued, before, Exception) == Some(ExceptionRequest(e)))
       case FinishReply(Ok(AdvanceState(m, p))) =>
         OpenRequest(before).None? && NextOf(issued, before, Advance) == Some(AdvanceRequest(m, p))
       case FinishReply(Ok(InspectState(p))) =>
         OpenRequest(before).None? && NextOf(issued, before, Inspect) == Some(InspectRequest(p))
       case FinishReply(Err(e)) =>
         OpenRequest(before).None? && e == FetchRequestTimeout
       case VoucherReply(index) =>
         (if AdvanceOpen(before) then index == Ok(|VouchersSince(issued, before)|)
          else index.Err? && index.error.InvalidRequest? && index.error.requestName == "voucher")
       case NoticeReply(index) =>
         (if AdvanceOpen(before) then index == Ok(|NoticesSince(issued, before)|)
          else index.Err? && index.error.InvalidRequest? && index.error.requestName == "notice")
       case ReportReply(done) =>
         (if OpenRequest(before).Some? then done == Ok(())
          else done.Err? && done.error.InvalidRequest? && done.error.requestName == "report")
       case ExceptionReply(done) =>
         // an accepted exception has just ended the open request
         (if done.Ok? then
            && before != []
            && (Last(before).reply.AdvanceReply? || Last(before).reply.InspectReply?)
          else
            OpenRequest(before).None? && done.error.InvalidRequest? && done.error.requestName == "exception")
       case ShutdownReply => true
  }

  ghost predicate AllJustified(issued: seq<Request>, replies: seq<Answer>) {
    forall j | 0 <= j < |replies| :: Justified(issued, replies[..j], replies[j])
  }

  /** State `m` agrees with the replies sent. */
  ghost predicate ModeMatches(issued: seq<Request>, replies: seq<Answer>, m: Mode) {
    match m
    case Idle => OpenRequest(replies).None?
    case FetchRequest(f) =>
      OpenRequest(replies).None? && f < |issued| && issued[f].FinishRequest?
    case Inspecting(t, reports) =>
      && t < |issued| && issued[t].InspectRequest?
      && OpenRequest(replies) == Some(InspectState(issued[t].payload))
      && reports == ReportsSince(issued, replies)
    case Advancing(t, vs, ns, reports) =>
      && t < |issued| && issued[t].AdvanceRequest?
      && OpenRequest(replies) == Some(AdvanceState(issued[t].metadata, issued[t].payload))
      && vs == VouchersSince(issued, replies)
      && ns == NoticesSince(issued, replies)
      && reports == ReportsSince(issued, replies)
    case Terminated => true
  }

  ghost predicate Explained(s: System) {
    AllJustified(s.issued, s.replies) && ModeMatches(s.issued, s.replies, s.mode)
  }

  ghost predicate Invariant(s: System) {
    Accounted(s) && Explained(s)
  }

  /** What was acknowledged does not depend on later submissions. */
  lemma {:induction false} SinceStable(issued: seq<Request>, r: Request, replies: seq<Answer>)
    requires forall j | 0 <= j < |replies| :: replies[j].token < |issued|
    ensures VouchersSince(issued + [r], replies) == VouchersSince(issued, replies)
    ensures NoticesSince(issued + [r], replies) == NoticesSince(issued, replies)
    ensures ReportsSince(issued + [r], replies) == ReportsSince(issued, replies)
  {
    if replies != [] {
      assert Last(replies).token < |issued|;
      SinceStable(issued, r, Front(replies));
    }
  }

  lemma {:induction false} NextStable(issued: seq<Request>, r: Request, replies: seq<Answer>, k: Kind)
    requires NextOf(issued, replies, k).Some?
    ensures NextOf(issued + [r], replies, k) == NextOf(issued, replies, k)
  {
    OfKindAppend(issued, r, k);
  }

  lemma {:induction false} JustifiedStable(issued: seq<Request>, r: Request, before: seq<Answer>, a: Answer)
    requires Justified(issued, before, a)
    requires forall j | 0 <= j < |before| :: before[j].token < |issued|
    ensures Justified(issued + [r], before, a)
  {
    SinceStable(issued, r, before);
    forall k: Kind | NextOf(issued, before, k).Some?
      ensures NextOf(issued + [r], before, k) == NextOf(issued, before, k)
    {
      NextStable(issued, r, before, k);
    }
  }

  lemma {:induction false} TokensBelow(issued: seq<Request>, replies: seq<Answer>)
    requires AllJustified(issued, replies)
    ensures forall j | 0 <= j < |replies| :: replies[j].token < |issued|
  {
    forall j | 0 <= j < |replies| ensures replies[j].token < |issued| {
      assert Justified(issued, replies[..j], replies[j]);
    }
  }

  lemma {:induction false} SubmitExplained(s: System, r: Request)
    requires Explained(s)
    ensures Explained(SubmitStep(s, r))
  {
    TokensBelow(s.issued, s.replies);
    forall j | 0 <= j < |s.replies|
      ensures Justified(s.issued + [r], s.replies[..j], s.replies[j])
    {
      JustifiedStable(s.issued, r, s.replies[..j], s.replies[j]);
    }
    SinceStable(s.issued, r, s.replies);
  }

  /** The head of a queue is the next request of its kind, when none is held. */
  lemma {:induction false} HeadIsNext(s: System, k: Kind)
    requires Accounted(s) && !s.mode.Terminated? && s.queues.Of(k) != [] && Held(s.mode, k) == []
    ensures NextOf(s.issued, s.replies, k) == Some(s.queues.Of(k)[0].request)
  {
    var head := s.queues.Of(k)[0];
    assert head in s.queues.Of(k);
    TokensHead(s.queues.Of(k));
    assert Ledger(s, k) == OfKind(s.issued, k);
    assert Ledger(s, k)[|AnsweredOf(s.replies, k)|] == head.token;
  }

  /** Each reply of the outcome is right when it is sent, and so is the next state. */
  ghost predicate Explains(issued: seq<Request>, replies: seq<Answer>, o: Outcome) {
    && (forall i | 0 <= i < |o.answers| :: Justified(issued, replies + o.answers[..i], o.answers[i]))
    && ModeMatches(issued, replies + o.answers, o.next)
  }

  /** Request `r` was taken from the head of its queue while the service was in state `m`. */
  ghost predicate Arrives(issued: seq<Request>, replies: seq<Answer>, m: Mode, token: nat, r: Request) {
    && token < |issued| && issued[token] == r
    && KindOf(r) in SelectOrder(m)
    && (Held(m, KindOf(r)) == [] ==> NextOf(issued, replies, KindOf(r)) == Some(r))
  }

  lemma {:induction false} OneAnswer(issued: seq<Request>, replies: seq<Answer>, a: Answer, next: Mode)
    requires Justified(issued, replies, a) && ModeMatches(issued, replies + [a], next)
    ensures Explains(issued, replies, Outcome([a], next))
  {
    assert [a][..0] == [] && replies + [] == replies;
  }

  lemma {:induction false} TwoAnswers(issued: seq<Request>, replies: seq<Answer>, a: Answer, b: Answer, next: Mode)
    requires Justified(issued, replies, a) && Justified(issued, replies + [a], b)
    requires ModeMatches(issued, replies + [a] + [b], next)
    ensures Explains(issued, replies, Outcome([a, b], next))
  {
    assert [a, b][..0] == [] && replies + [] == replies;
    assert [a, b][..1] == [a];
    assert replies + [a] + [b] == replies + [a, b];
  }

  lemma Unfold(replies: seq<Answer>, a: Answer)
    ensures Front(replies + [a]) == replies && Last(replies + [a]) == a && replies + [a] != []
  {
  }

  /** A request that is refused changes nothing. */
  lemma {:induction false} RefuseExplains(issued: seq<Request>, replies: seq<Answer>, m: Mode, token: nat, r: Request)
    requires token < |issued| && issued[token] == r && ModeMatches(issued, replies, m)
    requires r.VoucherRequest? || r.NoticeRequest? || r.ReportRequest? || r.ExceptionRequest?
    requires m.Idle? || m.FetchRequest? || (m.Inspecting? && (r.VoucherRequest? || r.NoticeRequest?))
    ensures Explains(issued, replies, Refuse(m, token, r))
  {
    var a := Refuse(m, token, r).answers[0];
    Unfold(replies, a);
    OneAnswer(issued, replies, a, m);
  }

  lemma {:induction false} ShutdownExplains(issued: seq<Request>, replies: seq<Answer>, m: Mode, token: nat)
    requires token < |issued| && issued[token] == ShutdownRequest
    ensures Explains(issued, replies, Handle(m, token, ShutdownRequest))
  {
    OneAnswer(issued, replies, Answer(token, ShutdownReply), Terminated);
  }

  lemma {:induction false} IdleExplains(issued: seq<Request>, replies: seq<Answer>, m: Mode, token: nat, r: Request)
    requires Arrives(issued, replies, m, token, r) && ModeMatches(issued, replies, m)
    requires m.Idle? && !r.ShutdownRequest?
    ensures Explains(issued, replies, Handle(m, token, r))
  {
    if r.FinishRequest? {
      assert replies + [] == replies;
    } else {
      RefuseExplains(issued, replies, m, token, r);
    }
  }

  lemma {:induction false} FetchExplains(issued: seq<Request>, replies: seq<Answer>, m: Mode, token: nat, r: Request)
    requires Arrives(issued, replies, m, token, r) && ModeMatches(issued, replies, m)
    requires m.FetchRequest? && !r.ShutdownRequest?
    ensures Explains(issued, replies, Handle(m, token, r))
  {
    if r.FinishRequest? || r.InspectRequest? || r.AdvanceRequest? {
      var o := Handle(m, token, r);
      Unfold(replies, o.answers[0]);
      OneAnswer(issued, replies, o.answers[0], o.next);
    } else {
      RefuseExplains(issued, replies, m, token, r);
    }
  }

  lemma {:induction false} InspectExplains(issued: seq<Request>, replies: seq<Answer>, m: Mode, token: nat, r: Request)
    requires Arrives(issued, replies, m, token, r) && ModeMatches(issued, replies, m)
    requires m.Inspecting? && !r.ExceptionRequest? && !r.ShutdownRequest?
    ensures Explains(issued, replies, Handle(m, token, r))
  {
    if r.FinishRequest? || r.ReportRequest? {
      var o := Handle(m, token, r);
      Unfold(replies, o.answers[0]);
      OneAnswer(issued, replies, o.answers[0], o.next);
    } else {
      RefuseExplains(issued, replies, m, token, r);
    }
  }

  lemma {:induction false} AdvanceEnds(issued: seq<Request>, replies: seq<Answer>, m: Mode, token: nat, r: Request)
    requires Arrives(issued, replies, m, token, r) && ModeMatches(issued, replies, m)
    requires m.Advancing? && r.FinishRequest?
    ensures Explains(issued, replies, Handle(m, token, r))
  {
    var o := Handle(m, token, r);
    Unfold(replies, o.answers[0]);
    OneAnswer(issued, replies, o.answers[0], o.next);
  }

  lemma {:induction false} AdvanceEmits(issued: seq<Request>, replies: seq<Answer>, m: Mode, token: nat, r: Request)
    requires Arrives(issued, replies, m, token, r) && ModeMatches(issued, replies, m)
    requires m.Advancing? && (r.VoucherRequest? || r.NoticeRequest? || r.ReportRequest?)
    ensures Explains(issued, replies, Handle(m, token, r))
  {
    var o := Handle(m, token, r);
    Unfold(replies, o.answers[0]);
    OneAnswer(issued, replies, o.answers[0], o.next);
  }

  lemma {:induction false} AdvanceExplains(issued: seq<Request>, replies: seq<Answer>, m: Mode, token: nat, r: Request)
    requires Arrives(issued, replies, m, token, r) && ModeMatches(issued, replies, m)
    requires m.Advancing? && !r.ExceptionRequest? && !r.ShutdownRequest?
    ensures Explains(issued, replies, Handle(m, token, r))
  {
    if r.FinishRequest? {
      AdvanceEnds(issued, replies, m, token, r);
    } else {
      AdvanceEmits(issued, replies, m, token, r);
    }
  }

  /** An exception ends the open request and is then acknowledged. */
  lemma {:induction false} ExceptionExplains(
      issued: seq<Request>, replies: seq<Answer>, m: Mode, token: nat, r: Request)
    requires Arrives(issued, replies, m, token, r) && ModeMatches(issued, replies, m)
    requires (m.Inspecting? || m.Advancing?) && r.ExceptionRequest?
    ensures Explains(issued, replies, Handle(m, token, r))
  {
    var o := Handle(m, token, r);
    var a, b := o.answers[0], o.answers[1];
    Unfold(replies, a);
    Unfold(replies + [a], b);
    TwoAnswers(issued, replies, a, b, o.next);
  }

  lemma {:induction false} TimeOutExplains(issued: seq<Request>, replies: seq<Answer>, f: nat)
    requires ModeMatches(issued, replies, FetchRequest(f))
    ensures Explains(issued, replies, TimeOut(f))
  {
    Unfold(replies, TimeOut(f).answers[0]);
    OneAnswer(issued, replies, TimeOut(f).answers[0], Idle);
  }

  lemma {:induction false} HandleExplains(issued: seq<Request>, replies: seq<Answer>, m: Mode, token: nat, r: Request)
    requires Arrives(issued, replies, m, token, r) && ModeMatches(issued, replies, m)
    ensures Explains(issued, replies, Handle(m, token, r))
  {
    if r.ShutdownRequest? {
      ShutdownExplains(issued, replies, m, token);
    } else if m.Idle? {
      IdleExplains(issued, replies, m, token, r);
    } else if m.FetchRequest? {
      FetchExplains(issued, replies, m, token, r);
    } else if r.ExceptionRequest? {
      ExceptionExplains(issued, replies, m, token, r);
    } else if m.Inspecting? {
      InspectExplains(issued, replies, m, token, r);
    } else {
      AdvanceExplains(issued, replies, m, token, r);
    }
  }

  lemma {:induction false} ApplyExplained(issued: seq<Request>, replies: seq<Answer>, o: Outcome)
    requires AllJustified(issued, replies) && Explains(issued, replies, o)
    ensures AllJustified(issued, replies + o.answers)
  {
    var all := replies + o.answers;
    forall j | 0 <= j < |all| ensures Justified(issued, all[..j], all[j]) {
      assert all[..j] == if j < |replies| then replies[..j] else replies + o.answers[..j - |replies|];
    }
  }

  lemma {:induction false} ProcessExplained(s: System, timedOut: bool)
    requires Invariant(s)
    ensures Explained(ProcessStep(s, timedOut))
  {
    if s.mode.FetchRequest? && timedOut {
      TimeOutExplains(s.issued, s.replies, s.mode.finish);
      ApplyExplained(s.issued, s.replies, TimeOut(s.mode.finish));
    } else if Chosen(s).Some? {
      var c := Chosen(s).value;
      var head := s.queues.Of(c)[0];
      assert head in s.queues.Of(c);
      if Held(s.mode, c) == [] {
        HeadIsNext(s, c);
      }
      HandleExplains(s.issued, s.replies, s.mode, head.token, head.request);
      ApplyExplained(s.issued, s.replies, Handle(s.mode, head.token, head.request));
    }
  }

  // ------------------------------------------------------------------ whole runs

  lemma {:induction false} StepInvariant(s: System, a: Action)
    requires Invariant(s)
    ensures Invariant(Step(s, a))
  {
    match a
    case Submit(r) =>
      SubmitAccounted(s, r);
      SubmitExplained(s, r);
    case Process(timedOut) =>
      ProcessAccounted(s, timedOut);
      ProcessExplained(s, timedOut);
  }

  /** Every run keeps the ledger of every kind in submission order and explains every reply. */
  lemma {:induction false} RunInvariant(actions: seq<Action>)
    ensures Invariant(Run(Init(), actions))
  {
    if actions != [] {
      RunInvariant(Front(actions));
      StepInvariant(Run(Init(), Front(actions)), Last(actions));
    }
  }
}
