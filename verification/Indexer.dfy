/** The indexer: two streams are read in step and stored in the tables, across restarts. */
module Indexer {
  import opened Common
  import opened Streams
  import opened RollupsEvents
  import opened InputsStream
  import opened Repository

  type Outputs = seq<Event<RollupsOutput>>

  // ------------------------------------------------------------------ conversions

  function InputWrite(event: RollupsInput): Write {
    match event.data
    case Advance(input) =>
      NewInput(ToI32(input.metadata.inputIndex),
               InputFields(input.metadata.msgSender, input.txHash, ToI64(input.metadata.blockNumber),
                           input.metadata.timestamp, input.payload))
    case FinishEpoch => Nothing
  }

  function OutputWrite(output: RollupsOutput): Write {
    match output
    case AdvanceResult(input, status) => NewStatus(ToI32(input), status)
    case Voucher(index, input, destination, payload) =>
      NewOutput(Key(Vouchers, ToI32(input), ToI32(index)), VoucherRow(destination, payload))
    case Notice(index, input, payload) => NewOutput(Key(Notices, ToI32(input), ToI32(index)), NoticeRow(payload))
    case Report(index, input, payload) => NewOutput(Key(Reports, ToI32(input), ToI32(index)), ReportRow(payload))
    case Proof(input, index, kind, v, context) =>
      NewOutput(Key(if kind.VoucherOutput? then VoucherProofs else NoticeProofs, ToI32(input), ToI32(index)),
                ProofRow(ToI32(v.inputIndexWithinEpoch), ToI32(v.outputIndexWithinInput),
                         v.outputHashesRootHash, v.vouchersEpochRootHash, v.noticesEpochRootHash, v.machineStateHash,
                         v.outputHashInOutputHashesSiblings, v.outputHashesInEpochSiblings, context))
  }

  /** The output that a write tells of, if its numbers can be indexes. */
  function OutputOf(w: Write): Option<RollupsOutput> {
    match w
    case NewStatus(k, result) => if k < 0 then None else Some(AdvanceResult(k, result))
    case NewOutput(Key(table, i, n), row) =>
      if i < 0 || n < 0 then None
      else (
        match (table, row)
        case (Vouchers, VoucherRow(destination, payload)) => Some(Voucher(n, i, destination, payload))
        case (Notices, NoticeRow(payload)) => Some(Notice(n, i, payload))
        case (Reports, ReportRow(payload)) => Some(Report(n, i, payload))
        case (VoucherProofs, ProofRow(_, _, _, _, _, _, _, _, _)) => ProofOf(i, n, VoucherOutput, row)
        case (NoticeProofs, ProofRow(_, _, _, _, _, _, _, _, _)) => ProofOf(i, n, NoticeOutput, row)
        case (_, _) => None)
    case _ => None
  }

  function ProofOf(i: nat, n: nat, kind: OutputEnum, row: Row): Option<RollupsOutput>
    requires row.ProofRow?
  {
    if row.inputIndexWithinEpoch < 0 || row.outputIndexWithinInput < 0 then None
    else
      Some(Proof(i, n, kind,
                 Validity(row.inputIndexWithinEpoch, row.outputIndexWithinInput,
                          row.outputHashesRootHash, row.vouchersEpochRootHash,
                          row.noticesEpochRootHash, row.machineStateHash,
                          row.outputHashInOutputHashesSiblings, row.outputHashesInEpochSiblings),
                 row.context))
  }

  /** Every number of the output is below 2^31. */
  predicate Small(output: RollupsOutput) {
    match output
    case AdvanceResult(i, _) => i < TWO_31
    case Voucher(n, i, _, _) => i < TWO_31 && n < TWO_31
    case Notice(n, i, _) => i < TWO_31 && n < TWO_31
    case Report(n, i, _) => i < TWO_31 && n < TWO_31
    case Proof(i, n, _, v, _) =>
      i < TWO_31 && n < TWO_31 && v.inputIndexWithinEpoch < TWO_31 && v.outputIndexWithinInput < TWO_31
  }

  /** What is written tells the output back, if and only if all its numbers are below 2^31. */
  lemma {:induction false} OutputIsKept(output: RollupsOutput)
    ensures OutputOf(OutputWrite(output)) == Some(output) <==> Small(output)
  {
    KeysCollide(output.inputIndex, 0);
    match output {
      case AdvanceResult(_, _) =>
      case Voucher(n, _, _, _) => KeysCollide(n, 0);
      case Notice(n, _, _) => KeysCollide(n, 0);
      case Report(n, _, _) => KeysCollide(n, 0);
      case Proof(_, n, _, v, _) =>
        KeysCollide(n, 0);
        KeysCollide(v.inputIndexWithinEpoch, 0);
        KeysCollide(v.outputIndexWithinInput, 0);
    }
  }

  /** The input that a write tells of; the epoch is not stored. */
  function InputOf(w: Write, epoch: nat): Option<AdvanceStateInput> {
    if w.NewInput? && w.index >= 0 && w.fields.blockNumber >= 0 then
      Some(AdvanceStateInput(InputMetadata(w.fields.msgSender, w.fields.blockNumber, w.fields.timestamp, epoch, w.index),
                             w.fields.payload, w.fields.txHash))
    else None
  }

  /** And likewise for an input, whose block number may be as large as 2^63. */
  lemma {:induction false} InputIsKept(event: RollupsInput)
    requires event.data.Advance?
    ensures var input := event.data.input;
            InputOf(InputWrite(event), input.metadata.epochIndex) == Some(input) <==>
            input.metadata.inputIndex < TWO_31 && input.metadata.blockNumber < TWO_63
  {
    KeysCollide(event.data.input.metadata.inputIndex, 0);
  }

  // ------------------------------------------------------------------ the machine

  /** `inputsLastId` and `outputsLastId` belong to the indexer; the rest survives it. */
  datatype World = World(inputs: Inputs, outputs: Outputs, inputsLastId: nat, outputsLastId: nat, db: Database)

  datatype Action =
    | Extend(moreInputs: Inputs, moreOutputs: Outputs)
    | Consume(stored: bool)  // whether the indexer lives long enough to store the event
    | Crash

  function Start(): World {
    World([], [], INITIAL_ID, INITIAL_ID, EMPTY)
  }

  function Restart(w: World): World {
    w.(inputsLastId := INITIAL_ID, outputsLastId := INITIAL_ID)
  }

  datatype Next = InputEvent(input: Event<RollupsInput>) | OutputEvent(output: Event<RollupsOutput>) | Timeout

  /** An input if there is one, otherwise an output. */
  function Read(w: World): Next {
    match NextAfter(w.inputs, w.inputsLastId)
    case Some(input) => InputEvent(input)
    case None =>
      match NextAfter(w.outputs, w.outputsLastId)
      case Some(output) => OutputEvent(output)
      case None => Timeout
  }

  function WriteOf(next: Next): Write {
    match next
    case InputEvent(e) => InputWrite(e.payload)
    case OutputEvent(e) => OutputWrite(e.payload)
    case Timeout => Nothing
  }

  /** An error of the database ends the indexer. */
  function ConsumeStep(w: World, stored: bool): World {
    var next := Read(w);
    var result := Execute(w.db, WriteOf(next));
    if !stored || result.Err? then Restart(w)
    else
      match next
      case InputEvent(e) => w.(inputsLastId := e.id, db := result.value)
      case OutputEvent(e) => w.(outputsLastId := e.id, db := result.value)
      case Timeout => w
  }

  function Step(w: World, a: Action): World {
    match a
    case Extend(inputs, outputs) => w.(inputs := w.inputs + inputs, outputs := w.outputs + outputs)
    case Consume(stored) => ConsumeStep(w, stored)
    case Crash => Restart(w)
  }

  function Run(actions: seq<Action>): World {
    if actions == [] then Start() else Step(Run(Front(actions)), Last(actions))
  }

  // ------------------------------------------------------------------ the streams

  predicate SameSlot(a: RollupsOutput, b: RollupsOutput) {
    match (a, b)
    case (AdvanceResult(i, _), AdvanceResult(j, _)) => i == j
    case (Voucher(m, i, _, _), Voucher(n, j, _, _)) => i == j && m == n
    case (Notice(m, i, _), Notice(n, j, _)) => i == j && m == n
    case (Report(m, i, _), Report(n, j, _)) => i == j && m == n
    case (Proof(i, m, e, _, _), Proof(j, n, f, _, _)) => i == j && m == n && e == f
    case _ => false
  }

  /** The indexes fit, and all but proofs are about one of the first `sent` inputs. */
  predicate Fits(output: RollupsOutput, sent: nat) {
    match output
    case AdvanceResult(i, _) => i < sent
    case Voucher(n, i, _, _) => i < sent && n < TWO_32
    case Notice(n, i, _) => i < sent && n < TWO_32
    case Report(n, i, _) => i < sent && n < TWO_32
    case Proof(i, n, _, _, _) => i < TWO_32 && n < TWO_32
  }

  /** Input number `k` carries index `k`. */
  ghost predicate Numbered(inputs: Inputs) {
    forall i | 0 <= i < |inputs| && inputs[i].payload.data.Advance? ::
      inputs[i].payload.data.input.metadata.inputIndex == Advances(inputs[..i])
  }

  /** Outputs are deterministic: none contradicts another. */
  ghost predicate Agree(outputs: seq<RollupsOutput>) {
    forall a, b | a in outputs && b in outputs :: SameSlot(a, b) ==> a == b
  }

  ghost predicate Sound(inputs: Inputs, outputs: seq<RollupsOutput>) {
    && Numbered(inputs) && Advances(inputs) <= TWO_32
    && Agree(outputs)
    && forall o | o in outputs :: Fits(o, Advances(inputs))
  }

  /** The streams grow by outputs of inputs that are in the inputs stream already. */
  ghost predicate Legal(w: World, a: Action) {
    a.Extend? ==>
      var inputs, outputs := w.inputs + a.moreInputs, w.outputs + a.moreOutputs;
      Increasing(inputs) && Increasing(outputs) && Sound(inputs, Payloads(outputs))
  }

  ghost predicate LegalRun(actions: seq<Action>) {
    actions != [] ==> LegalRun(Front(actions)) && Legal(Run(Front(actions)), Last(actions))
  }

  // ------------------------------------------------------------------ one clean pass

  function InputWrites(inputs: Inputs): (r: seq<Write>)
    ensures |r| == |inputs|
  {
    seq(|inputs|, i requires 0 <= i < |inputs| => InputWrite(inputs[i].payload))
  }

  function OutputWrites(outputs: seq<RollupsOutput>): (r: seq<Write>)
    ensures |r| == |outputs|
  {
    seq(|outputs|, i requires 0 <= i < |outputs| => OutputWrite(outputs[i]))
  }

  /** Every input once, then every output once. */
  function CleanPass(inputs: Inputs, outputs: seq<RollupsOutput>): seq<Write> {
    InputWrites(inputs) + OutputWrites(outputs)
  }

  lemma {:induction false} AdvancesCount(s: Inputs, i: nat, j: nat)
    requires i < j <= |s| && s[i].payload.data.Advance?
    ensures Advances(s[..i]) < Advances(s[..j])
    decreases j
  {
    assert Front(s[..j]) == s[..j - 1] && Last(s[..j]) == s[j - 1];
    if i < j - 1 {
      AdvancesCount(s, i, j - 1);
    }
  }

  /** Different inputs have different keys. */
  lemma {:induction false} InputsAgree(inputs: Inputs, i: nat, j: nat)
    requires Numbered(inputs) && Advances(inputs) <= TWO_32
    requires i < |inputs| && j < |inputs|
    requires SlotOf(InputWrite(inputs[i].payload)) == SlotOf(InputWrite(inputs[j].payload))
    ensures InputWrite(inputs[i].payload) == InputWrite(inputs[j].payload)
  {
    if inputs[i].payload.data.Advance? && i != j {
      assert inputs[..|inputs|] == inputs;
      AdvancesCount(inputs, i, |inputs|);
      AdvancesCount(inputs, j, |inputs|);
      KeysCollide(Advances(inputs[..i]), Advances(inputs[..j]));
      AdvancesCount(inputs, if i < j then i else j, if i < j then j else i);
    }
  }

  /** Different outputs have different keys. */
  lemma {:induction false} OutputsAgree(a: RollupsOutput, b: RollupsOutput, sent: nat)
    requires Fits(a, sent) && Fits(b, sent) && sent <= TWO_32
    ensures SlotOf(OutputWrite(a)) == SlotOf(OutputWrite(b)) <==> SameSlot(a, b)
  {
    KeysCollide(a.inputIndex, b.inputIndex);
    if a.Proof? {
      if b.Proof? {
        KeysCollide(a.outputIndex, b.outputIndex);
      }
    } else if !a.AdvanceResult? && (b.Voucher? || b.Notice? || b.Report?) {
      KeysCollide(a.index, b.index);
    }
  }

  lemma {:induction false} CleanPassAgrees(inputs: Inputs, outputs: seq<RollupsOutput>, i: nat, j: nat)
    requires Sound(inputs, outputs) && i < |inputs| + |outputs| && j < |inputs| + |outputs|
    requires SlotOf(CleanPass(inputs, outputs)[i]) == SlotOf(CleanPass(inputs, outputs)[j])
    ensures CleanPass(inputs, outputs)[i] == CleanPass(inputs, outputs)[j]
  {
    var n := |inputs|;
    if i < n && j < n {
      InputsAgree(inputs, i, j);
    } else if n <= i && n <= j {
      assert outputs[i - n] in outputs && outputs[j - n] in outputs;
      OutputsAgree(outputs[i - n], outputs[j - n], Advances(inputs));
    }
  }

  lemma {:induction false} CleanPassIsConsistent(inputs: Inputs, outputs: seq<RollupsOutput>)
    requires Sound(inputs, outputs)
    ensures Consistent(CleanPass(inputs, outputs))
  {
    var ws := CleanPass(inputs, outputs);
    forall a, b | a in ws && b in ws && SlotOf(a) == SlotOf(b) ensures a == b {
      var i :| 0 <= i < |ws| && ws[i] == a;
      var j :| 0 <= j < |ws| && ws[j] == b;
      CleanPassAgrees(inputs, outputs, i, j);
    }
  }

  /** Input number `k` is stored under its key. */
  lemma {:induction false} InputIsFound(inputs: Inputs, k: nat)
    requires Numbered(inputs) && k < Advances(inputs)
    ensures FirstInput(InputWrites(inputs), ToI32(k)).Some?
  {
    var ws := InputWrites(inputs);
    var before := Front(inputs);
    assert Front(ws) == InputWrites(before);
    assert Last(ws) == InputWrite(Last(inputs).payload);
    if k < Advances(before) {
      assert Numbered(before) by {
        forall i | 0 <= i < |before| ensures before[..i] == inputs[..i] {
        }
      }
      InputIsFound(before, k);
    } else {
      assert inputs[..|inputs| - 1] == before;
    }
  }

  lemma {:induction false} InputsRefer(inputs: Inputs)
    ensures InputsFirst(InputWrites(inputs))
  {
    if inputs != [] {
      InputsRefer(Front(inputs));
      assert Front(InputWrites(inputs)) == InputWrites(Front(inputs));
    }
  }

  lemma {:induction false} FirstInputStays(ws: seq<Write>, more: seq<Write>, k: int)
    requires FirstInput(ws, k).Some?
    ensures FirstInput(ws + more, k).Some?
  {
    if more != [] {
      FirstInputStays(ws, Front(more), k);
      assert Front(ws + more) == ws + Front(more);
    } else {
      assert ws + more == ws;
    }
  }

  lemma {:induction false} CleanPassIsOrdered(inputs: Inputs, outputs: seq<RollupsOutput>)
    requires Numbered(inputs) && forall o | o in outputs :: Fits(o, Advances(inputs))
    ensures InputsFirst(CleanPass(inputs, outputs))
  {
    if outputs == [] {
      InputsRefer(inputs);
      assert CleanPass(inputs, outputs) == InputWrites(inputs);
    } else {
      CleanPassIsOrdered(inputs, Front(outputs));
      var o := Last(outputs);
      assert o in outputs;
      assert Front(CleanPass(inputs, outputs)) == CleanPass(inputs, Front(outputs));
      if Refers(OutputWrite(o)).Some? {
        InputIsFound(inputs, o.inputIndex);
        FirstInputStays(InputWrites(inputs), OutputWrites(Front(outputs)), ToI32(o.inputIndex));
      }
    }
  }
}
