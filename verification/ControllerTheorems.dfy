/** Consequences, for every run of the controller, of the invariant of ControllerRuns. */
module ControllerTheorems {
  import opened Common
  import opened Controller
  import opened ControllerRuns

  // ------------------------------------------------------------------ reply channels

  lemma {:induction false} OfKindMembers(issued: seq<Request>, k: Kind, t: nat)
    ensures t in OfKind(issued, k) <==> t < |issued| && KindOf(issued[t]) == k
  {
    if issued != [] {
      OfKindMembers(Front(issued), k, t);
    }
  }

  lemma {:induction false} OfKindAscending(issued: seq<Request>, k: Kind)
    ensures forall i, j | 0 <= i < j < |OfKind(issued, k)| :: OfKind(issued, k)[i] < OfKind(issued, k)[j]
  {
    if issued != [] {
      OfKindAscending(Front(issued), k);
      var before := OfKind(Front(issued), k);
      forall i | 0 <= i < |before| ensures before[i] < |issued| - 1 {
        OfKindMembers(Front(issued), k, before[i]);
      }
    }
  }

  function Counted(b: bool): nat {
    if b then 1 else 0
  }

  /** In how many ways channel `t` of kind `k` is accounted for. */
  function Fates(s: System, k: Kind, t: nat): nat {
    Counted(t in AnsweredOf(s.replies, k)) + Counted(t in s.dropped.Of(k))
    + Counted(t in Held(s.mode, k)) + Counted(t in Tokens(s.queues.Of(k)))
  }

  lemma AscendingDisjoint(a: seq<nat>, b: seq<nat>, t: nat)
    requires forall i, j | 0 <= i < j < |a + b| :: (a + b)[i] < (a + b)[j]
    ensures !(t in a && t in b)
    ensures t in a + b <==> t in a || t in b
    ensures forall i, j | 0 <= i < j < |b| :: b[i] < b[j]
  {
    forall i, j | 0 <= i < |a| && 0 <= j < |b| ensures a[i] != b[j] {
      assert (a + b)[i] < (a + b)[|a| + j];
    }
    forall i, j | 0 <= i < j < |b| ensures b[i] < b[j] {
      assert (a + b)[|a| + i] < (a + b)[|a| + j];
    }
  }

  lemma {:induction false} OneFate(s: System, k: Kind, t: nat)
    requires Ledger(s, k) == OfKind(s.issued, k)
    requires if s.mode.Terminated? then s.queues.Of(k) == [] else s.dropped.Of(k) == []
    ensures Fates(s, k, t) == Counted(t < |s.issued| && KindOf(s.issued[t]) == k)
  {
    OfKindMembers(s.issued, k, t);
    OfKindAscending(s.issued, k);
    AscendingDisjoint(AnsweredOf(s.replies, k), Unanswered(s, k), t);
    if !s.mode.Terminated? {
      AscendingDisjoint(Held(s.mode, k), Tokens(s.queues.Of(k)), t);
    }
  }

  /**
   In every run, an issued channel is accounted for exactly once, under its own
   kind; anything else is not accounted for at all; and no channel is closed
   without a reply unless the service was shut down.
   */
  lemma {:induction false} EveryChannelHasOneFate(actions: seq<Action>, k: Kind, t: nat)
    ensures var s := Run(Init(), actions);
            && Fates(s, k, t) == Counted(t < |s.issued| && KindOf(s.issued[t]) == k)
            && (t in s.dropped.Of(k) ==> s.mode.Terminated?)
  {
    RunInvariant(actions);
    OneFate(Run(Init(), actions), k, t);
  }

  /** The position of a reply among the replies of its kind. */
  lemma {:induction false} AnsweredAt(replies: seq<Answer>, j: nat, k: Kind)
    requires j < |replies| && KindOfReply(replies[j].reply) == k
    ensures var n := |AnsweredOf(replies[..j], k)|;
            n < |AnsweredOf(replies, k)| && AnsweredOf(replies, k)[n] == replies[j].token
  {
    assert replies == replies[..j] + replies[j..];
    AnsweredConcat(replies[..j], replies[j..], k);
    assert replies[j..] == [replies[j]] + replies[j + 1..];
    AnsweredConcat([replies[j]], replies[j + 1..], k);
  }

  /** No channel is answered twice. */
  lemma {:induction false} NoChannelIsAnsweredTwice(actions: seq<Action>, i: nat, j: nat)
    requires i < j < |Run(Init(), actions).replies|
    ensures var s := Run(Init(), actions); s.replies[i].token != s.replies[j].token
  {
    var s := Run(Init(), actions);
    RunInvariant(actions);
    assert Justified(s.issued, s.replies[..i], s.replies[i]);
    assert Justified(s.issued, s.replies[..j], s.replies[j]);
    var k := KindOfReply(s.replies[i].reply);
    if k == KindOfReply(s.replies[j].reply) {
      AnsweredAt(s.replies, i, k);
      AnsweredAt(s.replies, j, k);
      AnsweredAt(s.replies[..j], i, k);
      assert s.replies[..j][..i] == s.replies[..i];
      assert Ledger(s, k) == OfKind(s.issued, k);
      OfKindAscending(s.issued, k);
      assert Ledger(s, k)[|AnsweredOf(s.replies[..i], k)|] < Ledger(s, k)[|AnsweredOf(s.replies[..j], k)|];
    }
  }

  // ------------------------------------------------------------------ linearization

  /** How many requests the application was given. */
  function Deliveries(replies: seq<Answer>): nat {
    if replies == [] then 0
    else
      var last := Last(replies).reply;
      Deliveries(Front(replies)) + if last.FinishReply? && last.next.Ok? then 1 else 0
  }

  /** The advance requests the application was given, in order. */
  function DeliveredAdvances(replies: seq<Answer>): seq<Request> {
    if replies == [] then []
    else
      match Last(replies).reply
      case FinishReply(Ok(AdvanceState(m, p))) => DeliveredAdvances(Front(replies)) + [AdvanceRequest(m, p)]
      case _ => DeliveredAdvances(Front(replies))
  }

  lemma {:induction false} FrontJustified(issued: seq<Request>, replies: seq<Answer>)
    requires AllJustified(issued, replies) && replies != []
    ensures AllJustified(issued, Front(replies)) && Justified(issued, Front(replies), Last(replies))
  {
    forall j | 0 <= j < |Front(replies)| ensures Justified(issued, Front(replies)[..j], Front(replies)[j]) {
      assert Front(replies)[..j] == replies[..j];
      assert Justified(issued, replies[..j], replies[j]);
    }
    assert Justified(issued, replies[..|replies| - 1], replies[|replies| - 1]);
  }

  /** Each delivered request is answered before the next one is delivered. */
  lemma {:induction false} DeliveriesMatchAnswers(issued: seq<Request>, replies: seq<Answer>)
    requires AllJustified(issued, replies)
    ensures Deliveries(replies) == |AnsweredOf(replies, Advance)| + |AnsweredOf(replies, Inspect)|
                                 + Counted(OpenRequest(replies).Some?)
  {
    if replies != [] {
      FrontJustified(issued, replies);
      DeliveriesMatchAnswers(issued, Front(replies));
    }
  }

  /** The first `n` advance requests, in submission order. */
  function FirstAdvances(issued: seq<Request>, n: nat): seq<Request>
    requires n <= |OfKind(issued, Advance)|
  {
    seq(n, i requires 0 <= i < n =>
      assert OfKind(issued, Advance)[i] in OfKind(issued, Advance);
      OfKindMembers(issued, Advance, OfKind(issued, Advance)[i]);
      issued[OfKind(issued, Advance)[i]])
  }

  lemma {:induction false} NextAdvance(issued: seq<Request>, replies: seq<Answer>)
    requires NextOf(issued, replies, Advance).Some?
    ensures var n := |AnsweredOf(replies, Advance)|;
            && n < |OfKind(issued, Advance)|
            && FirstAdvances(issued, n + 1)
            == FirstAdvances(issued, n) + [NextOf(issued, replies, Advance).value]
  {
  }

  /** How one more reply moves the number of advance requests delivered. */
  lemma {:induction false} OneMoreReply(issued: seq<Request>, replies: seq<Answer>)
    requires replies != [] && Justified(issued, Front(replies), Last(replies))
    ensures var last := Last(replies).reply;
            var delivers := last.FinishReply? && last.next.Ok? && last.next.value.AdvanceState?;
            |AnsweredOf(replies, Advance)| + Counted(AdvanceOpen(replies))
            == |AnsweredOf(Front(replies), Advance)| + Counted(AdvanceOpen(Front(replies))) + Counted(delivers)
  {
  }

  lemma {:induction false} DeliveredInOrder(issued: seq<Request>, replies: seq<Answer>)
    requires AllJustified(issued, replies)
    requires |AnsweredOf(replies, Advance)| <= |OfKind(issued, Advance)|
    ensures var n := |AnsweredOf(replies, Advance)| + Counted(AdvanceOpen(replies));
            n <= |OfKind(issued, Advance)| && DeliveredAdvances(replies) == FirstAdvances(issued, n)
  {
    if replies != [] {
      FrontJustified(issued, replies);
      OneMoreReply(issued, replies);
      DeliveredInOrder(issued, Front(replies));
      var last := Last(replies).reply;
      if last.FinishReply? && last.next.Ok? && last.next.value.AdvanceState? {
        NextAdvance(issued, Front(replies));
      }
    }
  }

  /**
   The application was given exactly the answered advance requests and the
   current one, in submission order; and one request was delivered for each one
   answered, plus one while a request is in progress.
   */
  ghost predicate Delivered(issued: seq<Request>, replies: seq<Answer>, m: Mode) {
    var n := |AnsweredOf(replies, Advance)| + |Held(m, Advance)|;
    && n <= |OfKind(issued, Advance)|
    && DeliveredAdvances(replies) == FirstAdvances(issued, n)
    && Deliveries(replies) == |AnsweredOf(replies, Advance)| + |AnsweredOf(replies, Inspect)|
                            + Counted(m.Advancing? || m.Inspecting?)
  }

  /**
   Besides, the answered, the current and the waiting advance requests are
   together the submitted ones, in submission order.
   */
  ghost predicate Linearized(s: System) {
    && AnsweredOf(s.replies, Advance) + (Held(s.mode, Advance) + Tokens(s.queues.advance)) == OfKind(s.issued, Advance)
    && Delivered(s.issued, s.replies, s.mode)
  }

  /** The state says which request is open. */
  lemma {:induction false} ModeTellsOpen(issued: seq<Request>, replies: seq<Answer>, m: Mode)
    requires !m.Terminated? && ModeMatches(issued, replies, m)
    ensures OpenRequest(replies).Some? <==> m.Advancing? || m.Inspecting?
    ensures |Held(m, Advance)| == Counted(AdvanceOpen(replies))
  {
  }

  lemma {:induction false} DeliveredState(issued: seq<Request>, replies: seq<Answer>, m: Mode)
    requires !m.Terminated? && AllJustified(issued, replies) && ModeMatches(issued, replies, m)
    requires |AnsweredOf(replies, Advance)| <= |OfKind(issued, Advance)|
    ensures Delivered(issued, replies, m)
  {
    ModeTellsOpen(issued, replies, m);
    DeliveriesMatchAnswers(issued, replies);
    DeliveredInOrder(issued, replies);
  }

  lemma {:induction false} LinearizedState(s: System)
    requires !s.mode.Terminated? && Explained(s) && Ledger(s, Advance) == OfKind(s.issued, Advance)
    ensures Linearized(s)
  {
    DeliveredState(s.issued, s.replies, s.mode);
  }

  /** Every run before shutdown is linearized. */
  lemma {:induction false} AdvancesAreLinearized(actions: seq<Action>)
    requires !Run(Init(), actions).mode.Terminated?
    ensures Linearized(Run(Init(), actions))
  {
    RunInvariant(actions);
    LinearizedState(Run(Init(), actions));
  }

  // ------------------------------------------------------------------ output isolation

  /** No request is delivered by the replies `i..j`. */
  ghost predicate SameRequest(replies: seq<Answer>, i: nat, j: nat)
    requires i <= j <= |replies|
  {
    forall m | i <= m < j :: !(replies[m].reply.FinishReply? && replies[m].reply.next.Ok?)
  }

  /** While the request stays the same, the outputs collected only grow. */
  lemma {:induction false} SinceGrows(issued: seq<Request>, replies: seq<Answer>, i: nat, j: nat)
    requires i <= j <= |replies| && SameRequest(replies, i, j)
    ensures VouchersSince(issued, replies[..i]) <= VouchersSince(issued, replies[..j])
    ensures NoticesSince(issued, replies[..i]) <= NoticesSince(issued, replies[..j])
    decreases j
  {
    if i < j {
      SinceGrows(issued, replies, i, j - 1);
      assert Front(replies[..j]) == replies[..j - 1] && Last(replies[..j]) == replies[j - 1];
      PrefixTransitive(VouchersSince(issued, replies[..i]), VouchersSince(issued, replies[..j - 1]),
                       VouchersSince(issued, replies[..j]));
      PrefixTransitive(NoticesSince(issued, replies[..i]), NoticesSince(issued, replies[..j - 1]),
                       NoticesSince(issued, replies[..j]));
    }
  }

  lemma {:induction false} VoucherIndexIsTrue(issued: seq<Request>, replies: seq<Answer>, i: nat, j: nat)
    requires i < j < |replies| && SameRequest(replies, i, j)
    requires Justified(issued, replies[..i], replies[i]) && replies[i].reply.VoucherReply? && replies[i].reply.index.Ok?
    ensures var index, vouchers := replies[i].reply.index.value, VouchersSince(issued, replies[..j]);
            index < |vouchers| && vouchers[index] == issued[replies[i].token].voucher
  {
    assert Front(replies[..i + 1]) == replies[..i] && Last(replies[..i + 1]) == replies[i];
    SinceGrows(issued, replies, i + 1, j);
  }

  lemma {:induction false} NoticeIndexIsTrue(issued: seq<Request>, replies: seq<Answer>, i: nat, j: nat)
    requires i < j < |replies| && SameRequest(replies, i, j)
    requires Justified(issued, replies[..i], replies[i]) && replies[i].reply.NoticeReply? && replies[i].reply.index.Ok?
    ensures var index, notices := replies[i].reply.index.value, NoticesSince(issued, replies[..j]);
            index < |notices| && notices[index] == issued[replies[i].token].notice
  {
    assert Front(replies[..i + 1]) == replies[..i] && Last(replies[..i + 1]) == replies[i];
    SinceGrows(issued, replies, i + 1, j);
  }

  /**
   The result of an advance request is about the request that was open, and holds
   exactly what was acknowledged since that was delivered: the reports in any
   case, and the vouchers and notices if it was accepted. It was accepted,
   rejected or failed as the application said.
   */
  ghost predicate ExactAdvance(issued: seq<Request>, before: seq<Answer>, a: Answer)
    requires a.reply.AdvanceReply?
  {
    && a.token < |issued| && issued[a.token].AdvanceRequest?
    && OpenRequest(before) == Some(AdvanceState(issued[a.token].metadata, issued[a.token].payload))
    && a.reply.reports == ReportsSince(issued, before)
    && match a.reply.status
       case Accepted(vouchers, notices) =>
         && vouchers == VouchersSince(issued, before) && notices == NoticesSince(issued, before)
         && NextOf(issued, before, Finish) == Some(FinishRequest(Accept))
       case Rejected => NextOf(issued, before, Finish) == Some(FinishRequest(Reject))
       case Failed(e) => NextOf(issued, before, Exception) == Some(ExceptionRequest(e))
  }

  /** Likewise for an inspect request, which has reports only. */
  ghost predicate ExactInspect(issued: seq<Request>, before: seq<Answer>, a: Answer)
    requires a.reply.InspectReply?
  {
    && a.token < |issued| && issued[a.token].InspectRequest?
    && OpenRequest(before) == Some(InspectState(issued[a.token].payload))
    && a.reply.reports == ReportsSince(issued, before)
    && match a.reply.inspectStatus
       case InspectAccepted => NextOf(issued, before, Finish) == Some(FinishRequest(Accept))
       case InspectRejected => NextOf(issued, before, Finish) == Some(FinishRequest(Reject))
       case InspectFailed(e) => NextOf(issued, before, Exception) == Some(ExceptionRequest(e))
  }

  lemma {:induction false} JustifiedMeansExact(issued: seq<Request>, before: seq<Answer>, a: Answer)
    requires Justified(issued, before, a)
    ensures a.reply.AdvanceReply? ==> ExactAdvance(issued, before, a)
    ensures a.reply.InspectReply? ==> ExactInspect(issued, before, a)
  {
  }

  /** In every run the result of every advance and inspect request is exact. */
  lemma {:induction false} ResultsAreExact(actions: seq<Action>, j: nat)
    requires j < |Run(Init(), actions).replies|
    ensures var s := Run(Init(), actions);
            var a, before := s.replies[j], s.replies[..j];
            && (a.reply.AdvanceReply? ==> ExactAdvance(s.issued, before, a))
            && (a.reply.InspectReply? ==> ExactInspect(s.issued, before, a))
  {
    var s := Run(Init(), actions);
    RunInvariant(actions);
    assert Justified(s.issued, s.replies[..j], s.replies[j]);
    JustifiedMeansExact(s.issued, s.replies[..j], s.replies[j]);
  }

  /** Nothing of an earlier request leaks: a request that ends right after its delivery has an empty result. */
  lemma {:induction false} FreshRequestIsEmpty(actions: seq<Action>, j: nat)
    requires 0 < j < |Run(Init(), actions).replies| && Run(Init(), actions).replies[j].reply.AdvanceReply?
    requires var delivery := Run(Init(), actions).replies[j - 1].reply; delivery.FinishReply? && delivery.next.Ok?
    ensures var reply := Run(Init(), actions).replies[j].reply;
            reply.reports == [] && (reply.status.Accepted? ==> reply.status == Accepted([], []))
  {
    var before := Run(Init(), actions).replies[..j];
    ResultsAreExact(actions, j);
    assert Last(before) == Run(Init(), actions).replies[j - 1];
  }

  /** The index returned for a voucher or a notice is its position in the accepted result. */
  lemma {:induction false} AcceptedIndexes(actions: seq<Action>, i: nat, j: nat)
    requires i < j < |Run(Init(), actions).replies| && SameRequest(Run(Init(), actions).replies, i, j)
    requires var reply := Run(Init(), actions).replies[j].reply;
             reply.AdvanceReply? && reply.status.Accepted?
    ensures var s := Run(Init(), actions);
            var a, status := s.replies[i], s.replies[j].reply.status;
            && a.token < |s.issued|
            && (a.reply.VoucherReply? && a.reply.index.Ok? ==>
                  && a.reply.index.value < |status.vouchers|
                  && s.issued[a.token] == VoucherRequest(status.vouchers[a.reply.index.value]))
            && (a.reply.NoticeReply? && a.reply.index.Ok? ==>
                  && a.reply.index.value < |status.notices|
                  && s.issued[a.token] == NoticeRequest(status.notices[a.reply.index.value]))
  {
    var s := Run(Init(), actions);
    ResultsAreExact(actions, j);
    RunInvariant(actions);
    assert Justified(s.issued, s.replies[..i], s.replies[i]);
    if s.replies[i].reply.VoucherReply? && s.replies[i].reply.index.Ok? {
      VoucherIndexIsTrue(s.issued, s.replies, i, j);
    } else if s.replies[i].reply.NoticeReply? && s.replies[i].reply.index.Ok? {
      NoticeIndexIsTrue(s.issued, s.replies, i, j);
    }
  }

  // ------------------------------------------------------------------ progress

  function Waiting(s: System): nat {
    |s.queues.advance| + |s.queues.inspect| + |s.queues.finish| + |s.queues.voucher|
    + |s.queues.notice| + |s.queues.report| + |s.queues.exception| + |s.queues.shutdown|
  }

  /** A bound on the steps the service can take without new requests. */
  function Potential(s: System): nat {
    2 * Waiting(s) + if s.mode.FetchRequest? then 1 else 0
  }

  lemma PopWaiting(s: System, c: Kind)
    requires s.queues.Of(c) != []
    ensures Waiting(Pop(s, c)) == Waiting(s) - 1
  {
  }

  lemma {:induction false} StepsUsePotential(s: System, timedOut: bool)
    ensures ProcessStep(s, timedOut) == s || Potential(ProcessStep(s, timedOut)) < Potential(s)
  {
    if !(s.mode.FetchRequest? && timedOut) && Chosen(s).Some? {
      PopWaiting(s, Chosen(s).value);
    }
  }

  /** How many of the steps changed something. */
  function BusySteps(s: System, timeouts: seq<bool>): nat
    decreases |timeouts|
  {
    if timeouts == [] then 0
    else
      var s' := ProcessStep(s, timeouts[0]);
      (if s' == s then 0 else 1) + BusySteps(s', timeouts[1..])
  }

  /** Without new requests the service does a bounded amount of work, whatever the timeouts. */
  lemma {:induction false} ProcessingIsBounded(s: System, timeouts: seq<bool>)
    ensures BusySteps(s, timeouts) <= Potential(s)
    decreases |timeouts|
  {
    if timeouts != [] {
      StepsUsePotential(s, timeouts[0]);
      ProcessingIsBounded(ProcessStep(s, timeouts[0]), timeouts[1..]);
    }
  }

  /** What can be left waiting when the service has no ready branch. */
  lemma BlockedMeansDrained(s: System, k: Kind)
    requires !s.mode.Terminated? && Chosen(s).None? && s.queues.Of(k) != []
    ensures (k == Advance || k == Inspect) && !s.mode.FetchRequest?
  {
    assert k !in SelectOrder(s.mode);
  }
}
