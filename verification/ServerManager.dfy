/**
 The server-manager session that the advance-runner drives, and the facade that
 turns its results into broker events.

 The machine is any deterministic function of the inputs it was given: `process`
 tells the result of the last input of a history, and `seal` the root hash and
 the proofs of the epoch that starts at a given input.
 */
module ServerManager {
  import opened Common
  import opened Conversions
  import opened RollupsEvents

  datatype MachineInput = MachineInput(metadata: InputMetadata, payload: Bytes)

  datatype AcceptedData = AcceptedData(vouchers: seq<VoucherResponse>, notices: seq<Bytes>)

  datatype Processed = Processed(status: CompletionStatus, reports: seq<Bytes>, accepted: Option<AcceptedData>)

  datatype Machine = Machine(
    process: seq<MachineInput> -> Processed,
    seal: (seq<MachineInput>, nat) -> Sealed,
    hash: Bytes -> Bytes)

  /** `first` is the index of the first input of the active epoch. */
  datatype Session = Session(activeEpoch: nat, first: nat, history: seq<MachineInput>)

  const START_SESSION := Session(0, 0, [])

  // ------------------------------------------------------------------ results

  function Reports(index: nat, reports: seq<Bytes>): (r: seq<RollupsOutput>)
    ensures |r| == |reports|
  {
    seq(|reports|, i requires 0 <= i < |reports| => Report(i, index, reports[i]))
  }

  predicate HasAddress(v: VoucherResponse) {
    v.destination.Some? && |v.destination.value| == ADDRESS_SIZE
  }

  /** The destination; a voucher without one is refused before it becomes an output. */
  function Destination(v: VoucherResponse): Bytes {
    if v.destination.Some? then v.destination.value else []
  }

  function Vouchers(index: nat, vouchers: seq<VoucherResponse>): (r: seq<RollupsOutput>)
    ensures |r| == |vouchers|
  {
    seq(|vouchers|, i requires 0 <= i < |vouchers| =>
      Voucher(i, index, Destination(vouchers[i]), vouchers[i].payload))
  }

  function Notices(index: nat, notices: seq<Bytes>): (r: seq<RollupsOutput>)
    ensures |r| == |notices|
  {
    seq(|notices|, i requires 0 <= i < |notices| => Notice(i, index, notices[i]))
  }

  /** All the outputs of one input: its result, its reports, and what it emitted if accepted. */
  function OutputsOf(index: nat, p: Processed): seq<RollupsOutput> {
    [AdvanceResult(index, p.status)] + Reports(index, p.reports)
    + match p.accepted
      case Some(data) => Vouchers(index, data.vouchers) + Notices(index, data.notices)
      case None => []
  }

  function ReportsIn(outputs: seq<RollupsOutput>): seq<Bytes> {
    if outputs == [] then []
    else
      var last := if Last(outputs).Report? then [Last(outputs).payload] else [];
      ReportsIn(Front(outputs)) + last
  }

  function VouchersIn(outputs: seq<RollupsOutput>): seq<VoucherResponse> {
    if outputs == [] then []
    else
      var o := Last(outputs);
      var last := if o.Voucher? then [VoucherResponse(Some(o.destination), o.payload)] else [];
      VouchersIn(Front(outputs)) + last
  }

  function NoticesIn(outputs: seq<RollupsOutput>): seq<Bytes> {
    if outputs == [] then []
    else
      var last := if Last(outputs).Notice? then [Last(outputs).payload] else [];
      NoticesIn(Front(outputs)) + last
  }

  lemma {:induction false} ReportsConcat(a: seq<RollupsOutput>, b: seq<RollupsOutput>)
    ensures ReportsIn(a + b) == ReportsIn(a) + ReportsIn(b)
  {
    if b == [] {
      assert a + b == a;
    } else {
      ReportsConcat(a, Front(b));
      assert Front(a + b) == a + Front(b);
    }
  }

  lemma {:induction false} VouchersConcat(a: seq<RollupsOutput>, b: seq<RollupsOutput>)
    ensures VouchersIn(a + b) == VouchersIn(a) + VouchersIn(b)
  {
    if b == [] {
      assert a + b == a;
    } else {
      VouchersConcat(a, Front(b));
      assert Front(a + b) == a + Front(b);
    }
  }

  lemma {:induction false} NoticesConcat(a: seq<RollupsOutput>, b: seq<RollupsOutput>)
    ensures NoticesIn(a + b) == NoticesIn(a) + NoticesIn(b)
  {
    if b == [] {
      assert a + b == a;
    } else {
      NoticesConcat(a, Front(b));
      assert Front(a + b) == a + Front(b);
    }
  }

  lemma {:induction false} OnlyReports(index: nat, reports: seq<Bytes>)
    ensures ReportsIn(Reports(index, reports)) == reports
    ensures VouchersIn(Reports(index, reports)) == [] && NoticesIn(Reports(index, reports)) == []
  {
    if reports != [] {
      OnlyReports(index, Front(reports));
      assert Front(Reports(index, reports)) == Reports(index, Front(reports));
      assert reports == Front(reports) + [Last(reports)];
    }
  }

  lemma {:induction false} OnlyVouchers(index: nat, vouchers: seq<VoucherResponse>)
    requires forall i | 0 <= i < |vouchers| :: HasAddress(vouchers[i])
    ensures VouchersIn(Vouchers(index, vouchers)) == vouchers
    ensures ReportsIn(Vouchers(index, vouchers)) == [] && NoticesIn(Vouchers(index, vouchers)) == []
  {
    if vouchers != [] {
      OnlyVouchers(index, Front(vouchers));
      assert Front(Vouchers(index, vouchers)) == Vouchers(index, Front(vouchers));
      assert vouchers == Front(vouchers) + [Last(vouchers)];
    }
  }

  lemma {:induction false} OnlyNotices(index: nat, notices: seq<Bytes>)
    ensures NoticesIn(Notices(index, notices)) == notices
    ensures ReportsIn(Notices(index, notices)) == [] && VouchersIn(Notices(index, notices)) == []
  {
    if notices != [] {
      OnlyNotices(index, Front(notices));
      assert Front(Notices(index, notices)) == Notices(index, Front(notices));
      assert notices == Front(notices) + [Last(notices)];
    }
  }

  /** The outputs of an input that was accepted with these vouchers and notices. */
  function AllParts(index: nat, status: CompletionStatus, reports: seq<Bytes>, data: AcceptedData): seq<RollupsOutput> {
    [AdvanceResult(index, status)] + Reports(index, reports)
    + (Vouchers(index, data.vouchers) + Notices(index, data.notices))
  }

  lemma {:induction false} ReportsOfFour(
      a: seq<RollupsOutput>, b: seq<RollupsOutput>, c: seq<RollupsOutput>, d: seq<RollupsOutput>)
    ensures ReportsIn(a + b + (c + d)) == ReportsIn(a) + ReportsIn(b) + (ReportsIn(c) + ReportsIn(d))
  {
    ReportsConcat(a, b);
    ReportsConcat(c, d);
    ReportsConcat(a + b, c + d);
  }

  lemma {:induction false} ReportsOfParts(
      index: nat, status: CompletionStatus, reports: seq<Bytes>, data: AcceptedData)
    requires forall i | 0 <= i < |data.vouchers| :: HasAddress(data.vouchers[i])
    ensures ReportsIn(AllParts(index, status, reports, data)) == reports
  {
    var first := [AdvanceResult(index, status)];
    OnlyReports(index, reports);
    OnlyVouchers(index, data.vouchers);
    OnlyNotices(index, data.notices);
    assert Front(first) == [] && ReportsIn(first) == [];
    ReportsOfFour(first, Reports(index, reports), Vouchers(index, data.vouchers), Notices(index, data.notices));
    Units(reports);
  }

  lemma {:induction false} VouchersOfFour(
      a: seq<RollupsOutput>, b: seq<RollupsOutput>, c: seq<RollupsOutput>, d: seq<RollupsOutput>)
    ensures VouchersIn(a + b + (c + d)) == VouchersIn(a) + VouchersIn(b) + (VouchersIn(c) + VouchersIn(d))
  {
    VouchersConcat(a, b);
    VouchersConcat(c, d);
    VouchersConcat(a + b, c + d);
  }

  lemma {:induction false} VouchersOfParts(
      index: nat, status: CompletionStatus, reports: seq<Bytes>, data: AcceptedData)
    requires forall i | 0 <= i < |data.vouchers| :: HasAddress(data.vouchers[i])
    ensures VouchersIn(AllParts(index, status, reports, data)) == data.vouchers
  {
    var first := [AdvanceResult(index, status)];
    OnlyReports(index, reports);
    OnlyVouchers(index, data.vouchers);
    OnlyNotices(index, data.notices);
    assert Front(first) == [] && VouchersIn(first) == [];
    VouchersOfFour(first, Reports(index, reports), Vouchers(index, data.vouchers), Notices(index, data.notices));
    Units(data.vouchers);
  }

  lemma {:induction false} NoticesOfFour(
      a: seq<RollupsOutput>, b: seq<RollupsOutput>, c: seq<RollupsOutput>, d: seq<RollupsOutput>)
    ensures NoticesIn(a + b + (c + d)) == NoticesIn(a) + NoticesIn(b) + (NoticesIn(c) + NoticesIn(d))
  {
    NoticesConcat(a, b);
    NoticesConcat(c, d);
    NoticesConcat(a + b, c + d);
  }

  lemma {:induction false} NoticesOfParts(
      index: nat, status: CompletionStatus, reports: seq<Bytes>, data: AcceptedData)
    requires forall i | 0 <= i < |data.vouchers| :: HasAddress(data.vouchers[i])
    ensures NoticesIn(AllParts(index, status, reports, data)) == data.notices
  {
    var first := [AdvanceResult(index, status)];
    OnlyReports(index, reports);
    OnlyVouchers(index, data.vouchers);
    OnlyNotices(index, data.notices);
    assert Front(first) == [] && NoticesIn(first) == [];
    NoticesOfFour(first, Reports(index, reports), Vouchers(index, data.vouchers), Notices(index, data.notices));
    Units(data.notices);
  }

  /** The outputs tell the whole result: its status, its reports, and its vouchers and notices if it was accepted. */
  lemma {:induction false} OutputsTellResult(index: nat, p: Processed)
    requires Addressed(p)
    ensures var outputs := OutputsOf(index, p);
            && outputs[0] == AdvanceResult(index, p.status)
            && ReportsIn(outputs) == p.reports
            && VouchersIn(outputs) == Emitted(p).vouchers
            && NoticesIn(outputs) == Emitted(p).notices
  {
    var data := Emitted(p);
    ReportsOfParts(index, p.status, p.reports, data);
    VouchersOfParts(index, p.status, p.reports, data);
    NoticesOfParts(index, p.status, p.reports, data);
    assert OutputsOf(index, p) == AllParts(index, p.status, p.reports, data);
  }

  /** Every destination is there and is an address. */
  predicate Addressed(p: Processed) {
    p.accepted.Some? ==>
      forall i | 0 <= i < |p.accepted.value.vouchers| :: HasAddress(p.accepted.value.vouchers[i])
  }

  /** The error is about the first voucher whose destination is not an address. */
  ghost predicate RefusesVoucher(p: Processed, e: ServerManagerError) {
    && p.accepted.Some?
    && exists k | 0 <= k < |p.accepted.value.vouchers| ::
         && (forall j | 0 <= j < k :: HasAddress(p.accepted.value.vouchers[j]))
         && !HasAddress(p.accepted.value.vouchers[k])
         && var destination := p.accepted.value.vouchers[k].destination;
            e == if destination.None? then MissingFieldError("voucher.destination")
                 else WrongArraySizeError("address", ADDRESS_SIZE, |destination.value|)
  }

  /** From position `at` on, the reports of an input, numbered from zero. */
  ghost predicate ReportsAt(outputs: seq<RollupsOutput>, at: nat, index: nat, reports: seq<Bytes>) {
    && at + |reports| <= |outputs|
    && forall i | 0 <= i < |reports| :: outputs[at + i] == Report(i, index, reports[i])
  }

  /** From position `at` on, the vouchers of an input, numbered from zero. */
  ghost predicate VouchersAt(outputs: seq<RollupsOutput>, at: nat, index: nat, vouchers: seq<VoucherResponse>) {
    && at + |vouchers| <= |outputs|
    && forall i | 0 <= i < |vouchers| ::
         && vouchers[i].destination.Some?
         && outputs[at + i] == Voucher(i, index, vouchers[i].destination.value, vouchers[i].payload)
  }

  /** From position `at` on, the notices of an input, numbered from zero. */
  ghost predicate NoticesAt(outputs: seq<RollupsOutput>, at: nat, index: nat, notices: seq<Bytes>) {
    && at + |notices| <= |outputs|
    && forall i | 0 <= i < |notices| :: outputs[at + i] == Notice(i, index, notices[i])
  }

  /** What the machine emitted; nothing, unless it accepted the input. */
  function Emitted(p: Processed): AcceptedData {
    if p.accepted.Some? then p.accepted.value else AcceptedData([], [])
  }

  lemma {:induction false} PlacedReports(
      a: seq<RollupsOutput>, index: nat, reports: seq<Bytes>, rest: seq<RollupsOutput>)
    ensures ReportsAt(a + Reports(index, reports) + rest, |a|, index, reports)
  {
  }

  lemma {:induction false} PlacedVouchers(
      a: seq<RollupsOutput>, index: nat, vouchers: seq<VoucherResponse>, rest: seq<RollupsOutput>)
    requires forall i | 0 <= i < |vouchers| :: HasAddress(vouchers[i])
    ensures VouchersAt(a + Vouchers(index, vouchers) + rest, |a|, index, vouchers)
  {
  }

  lemma {:induction false} PlacedNotices(a: seq<RollupsOutput>, index: nat, notices: seq<Bytes>)
    ensures NoticesAt(a + Notices(index, notices), |a|, index, notices)
  {
  }

  /**
   Where each output of an input is: its result, then its reports, its vouchers
   and its notices, each kind numbered from zero in the order of the machine.
   */
  lemma {:induction false} OutputsAreNumbered(index: nat, p: Processed)
    requires Addressed(p)
    ensures var outputs, r, v := OutputsOf(index, p), |p.reports|, |Emitted(p).vouchers|;
            && |outputs| == 1 + r + v + |Emitted(p).notices|
            && outputs[0] == AdvanceResult(index, p.status)
            && ReportsAt(outputs, 1, index, p.reports)
            && VouchersAt(outputs, 1 + r, index, Emitted(p).vouchers)
            && NoticesAt(outputs, 1 + r + v, index, Emitted(p).notices)
  {
    var result, reports := [AdvanceResult(index, p.status)], Reports(index, p.reports);
    var vouchers, notices := Vouchers(index, Emitted(p).vouchers), Notices(index, Emitted(p).notices);
    var outputs := OutputsOf(index, p);
    assert outputs == result + reports + (vouchers + notices);
    PlacedReports(result, index, p.reports, vouchers + notices);
    Regroup(result + reports, vouchers, notices);
    PlacedVouchers(result + reports, index, Emitted(p).vouchers, notices);
    PlacedNotices(result + reports + vouchers, index, Emitted(p).notices);
  }

  // ------------------------------------------------------------------ the session

  predicate AcceptsInput(s: Session, epoch: nat, index: nat) {
    epoch == s.activeEpoch && index == |s.history|
  }

  function Feed(s: Session, input: MachineInput): Session {
    s.(history := s.history + [input])
  }

  function NextEpoch(s: Session): Session {
    Session(s.activeEpoch + 1, |s.history|, s.history)
  }

  function EpochHash(m: Machine, sealed: Sealed): Bytes {
    if EpochPreimage(sealed).Ok? then m.hash(EpochPreimage(sealed).value) else []
  }

  /** The claim of the active epoch, which must have inputs. */
  function ClaimOf(m: Machine, dapp: Bytes, s: Session): RollupsClaim
    requires s.first < |s.history|
  {
    RollupsClaim(dapp, s.activeEpoch, EpochHash(m, m.seal(s.history, s.first)), s.first, |s.history| - 1)
  }

  class ServerManagerFacade {
    const machine: Machine
    const dapp: Bytes
    const pendingInputsMaxRetries: nat
    var session: Session

    /** Any previous session is deleted and a new one is started. */
    constructor (machine: Machine, dapp: Bytes, pendingInputsMaxRetries: nat)
      ensures session == START_SESSION
      ensures this.machine == machine && this.dapp == dapp
      ensures this.pendingInputsMaxRetries == pendingInputsMaxRetries
    {
      this.machine, this.dapp := machine, dapp;
      this.pendingInputsMaxRetries := pendingInputsMaxRetries;
      session := START_SESSION;
    }

    /**
     Poll until no input is pending, at most `pendingInputsMaxRetries` times.
     `pending` gives the answers of the polls. The result lists the indexes of
     the inputs processed in the active epoch.
     */
    method WaitForPendingInputs(epoch: nat, pending: nat -> nat) returns (r: Result<seq<nat>, ServerManagerError>)
      requires session.first <= |session.history|
      ensures r.Ok? <==> epoch == session.activeEpoch && exists i | 0 <= i < pendingInputsMaxRetries :: pending(i) == 0
      ensures r.Ok? ==>
                && |r.value| == |session.history| - session.first
                && forall i | 0 <= i < |r.value| :: r.value[i] == session.first + i
      ensures r.Err? ==>
                r.error == if epoch == session.activeEpoch || pendingInputsMaxRetries == 0
                           then PendingInputsExceededError else MethodCallError
    {
      for n := 0 to pendingInputsMaxRetries
        invariant forall i | 0 <= i < n :: pending(i) != 0
        invariant n > 0 ==> epoch == session.activeEpoch
      {
        if epoch != session.activeEpoch {
          return Err(MethodCallError);
        }
        if pending(n) == 0 {
          var first, count := session.first, |session.history| - session.first;
          var processed: seq<nat> := seq(count, i requires 0 <= i < count => first + i);
          return Ok(processed);
        }
      }
      return Err(PendingInputsExceededError);
    }

    /** Send an input and wait for its outputs. */
    method AdvanceState(epoch: nat, index: nat, input: MachineInput, pending: nat -> nat)
      returns (r: Result<seq<RollupsOutput>, ServerManagerError>)
      requires session.first <= |session.history|
      modifies this
      ensures session == if AcceptsInput(old(session), epoch, index) then Feed(old(session), input) else old(session)
      ensures var polled := exists i | 0 <= i < pendingInputsMaxRetries :: pending(i) == 0;
              var processed := machine.process(old(session).history + [input]);
              if !AcceptsInput(old(session), epoch, index) then r == Err(MethodCallError)
              else if !polled then r == Err(PendingInputsExceededError)
              else if Addressed(processed) then r == Ok(OutputsOf(index, processed))
              else r.Err? && RefusesVoucher(processed, r.error)
    {
      if epoch != session.activeEpoch || index != |session.history| {
        return Err(MethodCallError);
      }
      session := session.(history := session.history + [input]);
      var waited := WaitForPendingInputs(epoch, pending);
      if waited.Err? {
        return Err(waited.error);
      }
      if waited.value == [] {
        return Err(MissingProcessedInputError);
      }
      var last := Last(waited.value);
      if last != index {
        return Err(InvalidProcessedInputError(index, last));
      }
      var processed := machine.process(session.history[..last + 1]);
      assert session.history[..last + 1] == old(session).history + [input];
      r := CollectOutputs(index, processed);
    }

    /** Turn the result of an input into broker events. */
    method CollectOutputs(index: nat, processed: Processed) returns (r: Result<seq<RollupsOutput>, ServerManagerError>)
      ensures r.Ok? <==> Addressed(processed)
      ensures r.Ok? ==> r.value == OutputsOf(index, processed)
      ensures r.Err? ==> RefusesVoucher(processed, r.error)
    {
      var outputs := [AdvanceResult(index, processed.status)];
      for i := 0 to |processed.reports|
        invariant outputs == [AdvanceResult(index, processed.status)] + Reports(index, processed.reports)[..i]
      {
        outputs := outputs + [Report(i, index, processed.reports[i])];
      }
      assert Reports(index, processed.reports)[..|processed.reports|] == Reports(index, processed.reports);
      if processed.accepted.Some? {
        var data := processed.accepted.value;
        ghost var base := outputs;
        for i := 0 to |data.vouchers|
          invariant outputs == base + Vouchers(index, data.vouchers)[..i]
          invariant forall j | 0 <= j < i :: HasAddress(data.vouchers[j])
        {
          var destination := ConvertAddress("voucher.destination", data.vouchers[i].destination);
          if destination.Err? {
            return Err(destination.error);
          }
          outputs := outputs + [Voucher(i, index, destination.value, data.vouchers[i].payload)];
        }
        assert Vouchers(index, data.vouchers)[..|data.vouchers|] == Vouchers(index, data.vouchers);
        ghost var base2 := outputs;
        for i := 0 to |data.notices|
          invariant outputs == base2 + Notices(index, data.notices)[..i]
        {
          outputs := outputs + [Notice(i, index, data.notices[i])];
        }
        assert Notices(index, data.notices)[..|data.notices|] == Notices(index, data.notices);
      }
      return Ok(outputs);
    }

    /**
     Finish the epoch; an epoch without inputs is finished but has no claim. The
     epoch is finished even when the answer turns out not to be convertible.
     */
    method FinishEpoch(epoch: nat, pending: nat -> nat)
      returns (r: Result<(RollupsClaim, seq<RollupsOutput>), ServerManagerError>)
      requires session.first <= |session.history|
      modifies this
      ensures var polled := epoch == old(session).activeEpoch
                            && exists i | 0 <= i < pendingInputsMaxRetries :: pending(i) == 0;
              var s := old(session);
              var sealed := machine.seal(s.history, s.first);
              if !polled then
                && session == s
                && (r == Err(PendingInputsExceededError) || (r == Err(MethodCallError) && epoch != s.activeEpoch))
              else if s.first == |s.history| then r == Err(EmptyEpochError(epoch)) && session == NextEpoch(s)
              else if EpochPreimage(sealed).Err? then
                r == Err(EpochPreimage(sealed).error) && session == NextEpoch(s)
              else if ConvertProofs(sealed.proofs).Err? then
                r == Err(ConvertProofs(sealed.proofs).error) && session == NextEpoch(s)
              else r == Ok((ClaimOf(machine, dapp, s), ProofsOf(sealed))) && session == NextEpoch(s)
    {
      var waited := WaitForPendingInputs(epoch, pending);
      if waited.Err? {
        return Err(waited.error);
      }
      var sealed := machine.seal(session.history, session.first);
      session := Session(session.activeEpoch + 1, |session.history|, session.history);
      if waited.value == [] {
        return Err(EmptyEpochError(epoch));
      }
      var preimage := EpochPreimage(sealed);
      if preimage.Err? {
        return Err(preimage.error);
      }
      var proofs := CollectProofs(sealed.proofs);
      if proofs.Err? {
        return Err(proofs.error);
      }
      var claim := RollupsClaim(dapp, epoch, machine.hash(preimage.value), waited.value[0], Last(waited.value));
      return Ok((claim, proofs.value));
    }

    /** Convert the proofs one by one, up to the first that cannot be converted. */
    method CollectProofs(responses: seq<ProofResponse>) returns (r: Converted<seq<RollupsOutput>>)
      ensures r == ConvertProofs(responses)
    {
      var proofs: seq<RollupsOutput> := [];
      for i := 0 to |responses|
        invariant ConvertProofs(responses[..i]) == Ok(proofs)
      {
        assert Front(responses[..i + 1]) == responses[..i] && Last(responses[..i + 1]) == responses[i];
        var proof := ConvertProof(responses[i]);
        if proof.Err? {
          FirstErrorStays(responses, i + 1);
          return Err(proof.error);
        }
        proofs := proofs + [proof.value];
      }
      assert responses[..|responses|] == responses;
      return Ok(proofs);
    }
  }

  lemma {:induction false} FirstErrorStays(proofs: seq<ProofResponse>, n: nat)
    requires n <= |proofs| && ConvertProofs(proofs[..n]).Err?
    ensures ConvertProofs(proofs) == ConvertProofs(proofs[..n])
    decreases |proofs|
  {
    if n < |proofs| {
      assert Front(proofs)[..n] == proofs[..n];
      FirstErrorStays(Front(proofs), n);
    } else {
      assert proofs[..n] == proofs;
    }
  }
}
