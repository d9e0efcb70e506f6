/** The runner and the indexer together: what the tables hold, in terms of the inputs. */
module IndexerPipeline {
  import opened Common
  import opened Streams
  import opened Conversions
  import opened RollupsEvents
  import opened InputsStream
  import opened ServerManager
  import opened Repository
  import I = Indexer
  import opened IndexerRuns
  import R = Runner
  import P = RunnerProofs
  import D = Dispatcher
  import S = CleanPass

  predicate IndexFits(o: RollupsOutput) {
    match o
    case AdvanceResult(_, _) => true
    case Voucher(n, _, _, _) => n < TWO_32
    case Notice(n, _, _) => n < TWO_32
    case Report(n, _, _) => n < TWO_32
    case Proof(i, n, _, _, _) => i < TWO_32 && n < TWO_32
  }

  /** What is asked of the machine: indexes fit, and no two proofs contradict each other. */
  ghost predicate Tame(setup: R.Setup, events: Inputs) {
    && (forall o | o in R.CanonicalOutputs(setup, events) :: IndexFits(o))
    && (forall a, b | a in R.CanonicalOutputs(setup, events) && b in R.CanonicalOutputs(setup, events) ::
          a.Proof? && I.SameSlot(a, b) ==> a == b)
  }

  // ------------------------------------------------------------------ canonical outputs are deterministic

  /** The outputs of one input are about that input, and no two are for the same slot. */
  lemma {:induction false} OutputsOfOneInput(index: nat, p: Processed, i: nat, j: nat)
    requires i < |OutputsOf(index, p)| && j < |OutputsOf(index, p)|
    ensures !OutputsOf(index, p)[i].Proof? && OutputsOf(index, p)[i].inputIndex == index
    ensures I.SameSlot(OutputsOf(index, p)[i], OutputsOf(index, p)[j]) ==> i == j
  {
  }

  lemma {:induction false} AboutSentInputs(setup: R.Setup, events: Inputs, o: RollupsOutput)
    requires o in R.CanonicalOutputs(setup, events) && !o.Proof?
    ensures o.inputIndex < Advances(events)
  {
    var before := Front(events);
    P.ReplayCounts(before);
    if o in R.CanonicalOutputs(setup, before) {
      AboutSentInputs(setup, before, o);
    } else if Last(events).payload.data.Advance? {
      var s := R.Replay(before);
      var input := Last(events).payload.data.input;
      var p := setup.machine.process(s.history + [MachineInput(input.metadata, input.payload)]);
      var i :| 0 <= i < |OutputsOf(|s.history|, p)| && OutputsOf(|s.history|, p)[i] == o;
      OutputsOfOneInput(|s.history|, p, i, i);
    }
  }

  /** The new outputs of an input, against those before it and among themselves. */
  lemma {:induction false} NewOutputsAgree(
      setup: R.Setup, events: Inputs, p: Processed, a: RollupsOutput, b: RollupsOutput)
    requires a in R.CanonicalOutputs(setup, events) || a in OutputsOf(Advances(events), p)
    requires b in OutputsOf(Advances(events), p) && I.SameSlot(a, b)
    ensures a == b
  {
    var index := Advances(events);
    var j :| 0 <= j < |OutputsOf(index, p)| && OutputsOf(index, p)[j] == b;
    OutputsOfOneInput(index, p, j, j);
    if a in OutputsOf(index, p) {
      var i :| 0 <= i < |OutputsOf(index, p)| && OutputsOf(index, p)[i] == a;
      OutputsOfOneInput(index, p, i, j);
    } else {
      AboutSentInputs(setup, events, a);
    }
  }

  /** An epoch end adds proofs only. */
  lemma {:induction false} EndsAddProofs(setup: R.Setup, events: Inputs, o: RollupsOutput)
    requires o in R.CanonicalOutputs(setup, events) && !o.Proof? && Last(events).payload.data.FinishEpoch?
    ensures o in R.CanonicalOutputs(setup, Front(events))
  {
  }

  lemma {:induction false} CanonicalOutputsAgree(setup: R.Setup, events: Inputs, a: RollupsOutput, b: RollupsOutput)
    requires a in R.CanonicalOutputs(setup, events) && b in R.CanonicalOutputs(setup, events)
    requires !a.Proof? && !b.Proof? && I.SameSlot(a, b)
    ensures a == b
  {
    var before := Front(events);
    var earlier := R.CanonicalOutputs(setup, before);
    P.ReplayCounts(before);
    match Last(events).payload.data {
      case FinishEpoch =>
        EndsAddProofs(setup, events, a);
        EndsAddProofs(setup, events, b);
        CanonicalOutputsAgree(setup, before, a, b);
      case Advance(input) =>
        var p := setup.machine.process(R.Replay(before).history + [MachineInput(input.metadata, input.payload)]);
        assert R.CanonicalOutputs(setup, events) == earlier + OutputsOf(Advances(before), p);
        if b in OutputsOf(Advances(before), p) {
          NewOutputsAgree(setup, before, p, a, b);
        } else if a in OutputsOf(Advances(before), p) {
          NewOutputsAgree(setup, before, p, b, a);
        } else {
          CanonicalOutputsAgree(setup, before, a, b);
        }
    }
  }

  lemma {:induction false} CanonicalOutputsAreSound(setup: R.Setup, events: Inputs)
    requires Tame(setup, events) && I.Numbered(events) && Advances(events) <= TWO_32
    ensures I.Sound(events, R.CanonicalOutputs(setup, events))
  {
    var outputs := R.CanonicalOutputs(setup, events);
    forall o | o in outputs ensures I.Fits(o, Advances(events)) {
      if !o.Proof? {
        AboutSentInputs(setup, events, o);
      }
    }
    forall a, b | a in outputs && b in outputs && I.SameSlot(a, b) ensures a == b {
      if !a.Proof? {
        CanonicalOutputsAgree(setup, events, a, b);
      }
    }
  }

  // ------------------------------------------------------------------ theorems

  /** A stream that the dispatcher wrote is numbered as the indexer relies on. */
  lemma {:induction false} DispatcherNumbers(config: D.Config, events: Inputs, chain: seq<D.ChainInput>, epoch: nat)
    requires D.Data(events) == D.Expected(config, chain, epoch)
    ensures I.Numbered(events)
  {
    forall i | 0 <= i < |events| && events[i].payload.data.Advance?
      ensures events[i].payload.data.input.metadata.inputIndex == Advances(events[..i])
    {
      D.StreamNumbers(config, events, chain, epoch, i);
    }
  }

  /** In every run of the runner, crashes included, the streams are what the indexer relies on. */
  lemma {:induction false} RunnerFeedsIndexer(setup: R.Setup, actions: seq<R.Action>)
    requires var inputs := R.Run(setup, actions).inputs;
             Tame(setup, inputs) && I.Numbered(inputs) && Advances(inputs) <= TWO_32
    ensures var node := R.Run(setup, actions);
            Increasing(node.inputs) && I.Sound(node.inputs, node.outputs)
  {
    var node := R.Run(setup, actions);
    P.OutputsAreCanonical(setup, actions);
    CanonicalOutputsAreSound(setup, node.inputs);
    P.ClaimsArePrefixOfCanonical(setup, actions);
  }

  lemma {:induction false} SameWrites(inputs: Inputs, a: seq<RollupsOutput>, b: seq<RollupsOutput>)
    requires P.Holds(a, b)
    ensures forall w | w in I.CleanPass(inputs, b) :: w in I.CleanPass(inputs, a)
  {
    forall w | w in I.CleanPass(inputs, b) ensures w in I.CleanPass(inputs, a) {
      if w !in I.InputWrites(inputs) {
        var i :| 0 <= i < |b| && I.OutputWrites(b)[i] == w;
        assert b[i] in b;
        var k :| 0 <= k < |a| && a[k] == b[i];
        assert I.OutputWrites(a)[k] == w;
      }
    }
  }

  /** The runner and then the indexer have caught up with their streams. */
  ghost predicate CaughtUp(setup: R.Setup, node: R.Node, w: I.World) {
    && Tame(setup, node.inputs) && I.Numbered(node.inputs) && Advances(node.inputs) <= TWO_32
    && node.lastId == LastId(node.inputs)
    && w.inputs == node.inputs && Payloads(w.outputs) == node.outputs
    && w.inputsLastId == LastId(w.inputs) && w.outputsLastId == LastId(w.outputs)
  }

  /**
   End to end: when the runner and then the indexer have caught up, however often
   either of them crashed and repeated its work, the tables are those of every
   input and of every output of one clean pass over the inputs.
   */
  lemma {:induction false} TablesAreCanonical(setup: R.Setup, runs: seq<R.Action>, actions: seq<I.Action>)
    requires I.LegalRun(actions) && CaughtUp(setup, R.Run(setup, runs), I.Run(actions))
    ensures var w := I.Run(actions);
            ExecuteAll(EMPTY, I.CleanPass(w.inputs, R.CanonicalOutputs(setup, w.inputs))) == Ok(w.db)
  {
    var node, w := R.Run(setup, runs), I.Run(actions);
    var canonical := R.CanonicalOutputs(setup, w.inputs);
    ReplayLeavesNoTrace(actions);
    P.CaughtUpMeansComplete(setup, runs);
    P.OutputsAreCanonical(setup, runs);
    SameWrites(w.inputs, node.outputs, canonical);
    SameWrites(w.inputs, canonical, node.outputs);
    RunnerFeedsIndexer(setup, runs);
    CanonicalOutputsAreSound(setup, w.inputs);
    I.CleanPassIsConsistent(w.inputs, canonical);
    I.CleanPassIsOrdered(w.inputs, canonical);
    I.CleanPassIsOrdered(w.inputs, node.outputs);
    OrderAndRepetitionDoNotMatter(I.CleanPass(w.inputs, canonical), I.CleanPass(w.inputs, node.outputs));
  }

  // ------------------------------------------------------------------ what is found in the tables

  /** The tables of one clean pass over the inputs. */
  ghost predicate Filled(setup: R.Setup, inputs: Inputs, db: Database) {
    && I.Sound(inputs, R.CanonicalOutputs(setup, inputs))
    && ExecuteAll(EMPTY, I.CleanPass(inputs, R.CanonicalOutputs(setup, inputs))) == Ok(db)
  }

  /** The write is in the tables. */
  predicate InTables(db: Database, w: Write) {
    && (w.NewStatus? ==> w.of in db.inputs && db.inputs[w.of].status == Completed(w.result))
    && (w.NewOutput? ==> w.key in db.outputs && db.outputs[w.key] == w.row)
  }

  lemma {:induction false} OutputIsStored(setup: R.Setup, inputs: Inputs, db: Database, o: RollupsOutput)
    requires Filled(setup, inputs, db) && o in R.CanonicalOutputs(setup, inputs)
    ensures InTables(db, I.OutputWrite(o))
  {
    var outputs := R.CanonicalOutputs(setup, inputs);
    var k :| 0 <= k < |outputs| && outputs[k] == o;
    assert I.CleanPass(inputs, outputs)[|inputs| + k] == I.OutputWrite(o);
    I.CleanPassIsConsistent(inputs, outputs);
    I.CleanPassIsOrdered(inputs, outputs);
    EveryWriteIsStored(I.CleanPass(inputs, outputs), I.OutputWrite(o));
  }

  lemma {:induction false} InputIsStored(setup: R.Setup, inputs: Inputs, db: Database, q: nat)
    requires Filled(setup, inputs, db) && q < |inputs| && inputs[q].payload.data.Advance?
    ensures HoldsInput(db, Advances(inputs[..q]), inputs[q].payload.data.input)
  {
    var outputs := R.CanonicalOutputs(setup, inputs);
    var write := I.InputWrite(inputs[q].payload);
    assert I.CleanPass(inputs, outputs)[q] == write;
    I.CleanPassIsConsistent(inputs, outputs);
    I.CleanPassIsOrdered(inputs, outputs);
    EveryWriteIsStored(I.CleanPass(inputs, outputs), write);
  }

  /** What the machine makes of an input is among the outputs of the pass. */
  lemma {:induction false} MadeOfInput(setup: R.Setup, inputs: Inputs, q: nat, o: RollupsOutput)
    requires q < |inputs| && inputs[q].payload.data.Advance?
    requires var i, history := Advances(inputs[..q]), R.Replay(inputs).history;
             i < |history| && o in OutputsOf(i, setup.machine.process(history[..i + 1]))
    ensures o in R.CanonicalOutputs(setup, inputs)
  {
    S.OutputsOfInput(setup, inputs, q);
    P.PrefixOutputs(setup, inputs, q + 1);
    assert o in R.CanonicalOutputs(setup, inputs[..q + 1]);
  }

  ghost predicate HoldsReports(db: Database, i: nat, reports: seq<Bytes>) {
    forall n | 0 <= n < |reports| ::
      var key := Key(Reports, ToI32(i), ToI32(n));
      key in db.outputs && db.outputs[key] == ReportRow(reports[n])
  }

  ghost predicate HoldsVouchers(db: Database, i: nat, vouchers: seq<VoucherResponse>) {
    forall n | 0 <= n < |vouchers| ::
      var key := Key(Vouchers, ToI32(i), ToI32(n));
      && vouchers[n].destination.Some? && key in db.outputs
      && db.outputs[key] == VoucherRow(vouchers[n].destination.value, vouchers[n].payload)
  }

  ghost predicate HoldsNotices(db: Database, i: nat, notices: seq<Bytes>) {
    forall n | 0 <= n < |notices| ::
      var key := Key(Notices, ToI32(i), ToI32(n));
      key in db.outputs && db.outputs[key] == NoticeRow(notices[n])
  }

  /** The result, the reports, the vouchers and the notices of input `i`, each under its own key. */
  ghost predicate HoldsResult(db: Database, i: nat, p: Processed) {
    && ToI32(i) in db.inputs && db.inputs[ToI32(i)].status == Completed(p.status)
    && HoldsReports(db, i, p.reports)
    && HoldsVouchers(db, i, Emitted(p).vouchers)
    && HoldsNotices(db, i, Emitted(p).notices)
  }

  /** The input, as it was sent, under its number. */
  ghost predicate HoldsInput(db: Database, i: nat, input: AdvanceStateInput) {
    && ToI32(i) in db.inputs
    && db.inputs[ToI32(i)].fields
       == InputFields(input.metadata.msgSender, input.txHash, ToI64(input.metadata.blockNumber),
                      input.metadata.timestamp, input.payload)
  }

  ghost predicate AllInTables(db: Database, outputs: seq<RollupsOutput>) {
    forall k | 0 <= k < |outputs| :: InTables(db, I.OutputWrite(outputs[k]))
  }

  lemma {:induction false} ReportsInTables(
      db: Database, i: nat, reports: seq<Bytes>, outputs: seq<RollupsOutput>, at: nat)
    requires AllInTables(db, outputs) && ReportsAt(outputs, at, i, reports)
    ensures HoldsReports(db, i, reports)
  {
    forall n | 0 <= n < |reports|
      ensures var key := Key(Reports, ToI32(i), ToI32(n));
              key in db.outputs && db.outputs[key] == ReportRow(reports[n])
    {
      assert outputs[at + n] == Report(n, i, reports[n]);
    }
  }

  lemma {:induction false} VouchersInTables(
      db: Database, i: nat, vouchers: seq<VoucherResponse>, outputs: seq<RollupsOutput>, at: nat)
    requires AllInTables(db, outputs) && VouchersAt(outputs, at, i, vouchers)
    ensures HoldsVouchers(db, i, vouchers)
  {
    forall n | 0 <= n < |vouchers|
      ensures var key := Key(Vouchers, ToI32(i), ToI32(n));
              && vouchers[n].destination.Some? && key in db.outputs
              && db.outputs[key] == VoucherRow(vouchers[n].destination.value, vouchers[n].payload)
    {
      assert outputs[at + n] == Voucher(n, i, vouchers[n].destination.value, vouchers[n].payload);
    }
  }

  lemma {:induction false} NoticesInTables(
      db: Database, i: nat, notices: seq<Bytes>, outputs: seq<RollupsOutput>, at: nat)
    requires AllInTables(db, outputs) && NoticesAt(outputs, at, i, notices)
    ensures HoldsNotices(db, i, notices)
  {
    forall n | 0 <= n < |notices|
      ensures var key := Key(Notices, ToI32(i), ToI32(n));
              key in db.outputs && db.outputs[key] == NoticeRow(notices[n])
    {
      assert outputs[at + n] == Notice(n, i, notices[n]);
    }
  }

  lemma {:induction false} ResultInTables(db: Database, i: nat, p: Processed, outputs: seq<RollupsOutput>)
    requires Addressed(p) && outputs == OutputsOf(i, p) && AllInTables(db, outputs)
    ensures HoldsResult(db, i, p)
  {
    OutputsAreNumbered(i, p);
    assert InTables(db, I.OutputWrite(outputs[0]));
    ReportsInTables(db, i, p.reports, outputs, 1);
    VouchersInTables(db, i, Emitted(p).vouchers, outputs, 1 + |p.reports|);
    NoticesInTables(db, i, Emitted(p).notices, outputs, 1 + |p.reports| + |Emitted(p).vouchers|);
  }

  /** What the machine makes of the input that event `q` carries. */
  function MadeOf(setup: R.Setup, inputs: Inputs, q: nat): Processed
    requires q < |inputs| && Advances(inputs[..q]) < |R.Replay(inputs).history|
  {
    setup.machine.process(R.Replay(inputs).history[..Advances(inputs[..q]) + 1])
  }

  lemma {:induction false} AllMadeIsStored(
      setup: R.Setup, inputs: Inputs, db: Database, q: nat, outputs: seq<RollupsOutput>)
    requires Filled(setup, inputs, db) && q < |inputs| && inputs[q].payload.data.Advance?
    requires Advances(inputs[..q]) < |R.Replay(inputs).history|
    requires outputs == OutputsOf(Advances(inputs[..q]), MadeOf(setup, inputs, q))
    ensures AllInTables(db, outputs)
  {
    forall k | 0 <= k < |outputs| ensures InTables(db, I.OutputWrite(outputs[k])) {
      MadeOfInput(setup, inputs, q, outputs[k]);
      OutputIsStored(setup, inputs, db, outputs[k]);
    }
  }

  /** All that the tables hold of the input that event `q` carries. */
  lemma {:induction false} FilledHolds(setup: R.Setup, inputs: Inputs, db: Database, q: nat)
    requires Filled(setup, inputs, db) && P.Passed(setup, inputs) && q < |inputs| && inputs[q].payload.data.Advance?
    ensures Advances(inputs[..q]) < |R.Replay(inputs).history|
    ensures HoldsInput(db, Advances(inputs[..q]), inputs[q].payload.data.input)
    ensures HoldsResult(db, Advances(inputs[..q]), MadeOf(setup, inputs, q))
  {
    PassedIsAddressed(setup, inputs, q);
    var outputs := OutputsOf(Advances(inputs[..q]), MadeOf(setup, inputs, q));
    InputIsStored(setup, inputs, db, q);
    AllMadeIsStored(setup, inputs, db, q, outputs);
    ResultInTables(db, Advances(inputs[..q]), MadeOf(setup, inputs, q), outputs);
  }

  /** What a runner has passed has addresses in all its vouchers. */
  lemma {:induction false} PassedIsAddressed(setup: R.Setup, events: Inputs, q: nat)
    requires P.Passed(setup, events) && q < |events| && events[q].payload.data.Advance?
    ensures Advances(events[..q]) < |R.Replay(events).history|
    ensures Addressed(setup.machine.process(R.Replay(events).history[..Advances(events[..q]) + 1]))
    decreases |events|
  {
    S.HistoryWithInput(events, q);
    var before := Front(events);
    if q < |before| {
      PassedIsAddressed(setup, before, q);
      S.HistoryWithInput(before, q);
      assert before[..q] == events[..q] && before[..q + 1] == events[..q + 1];
    } else {
      assert events[..q] == before && events[..q + 1] == events;
    }
  }

  /** A runner that has followed all the inputs has passed all of them. */
  lemma {:induction false} CaughtUpMeansPassed(setup: R.Setup, runs: seq<R.Action>)
    requires var node := R.Run(setup, runs); node.lastId == LastId(node.inputs)
    ensures P.Passed(setup, R.Run(setup, runs).inputs)
  {
    var node := R.Run(setup, runs);
    var n, high := P.RunKeeps(setup, runs);
    LastReadMeansAll(node.inputs, n);
    assert node.inputs[..high] == node.inputs;
  }

  /**
   When the runner and then the indexer have caught up, after whatever crashes, the
   tables hold each input as it was sent, and under its number its result, its
   reports, its vouchers and its notices as the machine made them, in order.
   */
  lemma {:induction false} TablesHoldResults(setup: R.Setup, runs: seq<R.Action>, actions: seq<I.Action>, q: nat)
    requires I.LegalRun(actions) && CaughtUp(setup, R.Run(setup, runs), I.Run(actions))
    requires q < |I.Run(actions).inputs| && I.Run(actions).inputs[q].payload.data.Advance?
    ensures var inputs, db := I.Run(actions).inputs, I.Run(actions).db;
            && Advances(inputs[..q]) < |R.Replay(inputs).history|
            && HoldsInput(db, Advances(inputs[..q]), inputs[q].payload.data.input)
            && HoldsResult(db, Advances(inputs[..q]), MadeOf(setup, inputs, q))
  {
    var w := I.Run(actions);
    TablesAreCanonical(setup, runs, actions);
    CanonicalOutputsAreSound(setup, w.inputs);
    CaughtUpMeansPassed(setup, runs);
    FilledHolds(setup, w.inputs, w.db, q);
  }
}
