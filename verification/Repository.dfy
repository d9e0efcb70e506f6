/**
 The tables that the indexer fills. The four output tables are kept in one map
 whose keys name the table, so that a key is a primary key of one of them;
 proofs of vouchers and of notices have different keys, as `output_enum` is part
 of their primary key.
 */
module Repository {
  import opened Common
  import opened RollupsEvents

  const TWO_31: int := 0x8000_0000
  const TWO_32: int := 0x1_0000_0000
  const TWO_63: int := 0x8000_0000_0000_0000
  const TWO_64: int := 0x1_0000_0000_0000_0000

  /** The truncating cast to a signed 32-bit number: 2^32 is taken off, or added, until the rest fits. */
  function ToI32(n: int): (r: int)
    ensures -TWO_31 <= r < TWO_31
    decreases if n >= TWO_31 then n else if n < -TWO_31 then -n else 0
  {
    if n >= TWO_31 then ToI32(n - TWO_32)
    else if n < -TWO_31 then ToI32(n + TWO_32)
    else n
  }

  /** It keeps the low bits. */
  lemma {:induction false} ToI32IsCongruent(n: int)
    ensures (ToI32(n) - n) % TWO_32 == 0
    decreases if n >= TWO_31 then n else if n < -TWO_31 then -n else 0
  {
    if n >= TWO_31 {
      ToI32IsCongruent(n - TWO_32);
    } else if n < -TWO_31 {
      ToI32IsCongruent(n + TWO_32);
    }
  }

  function ToI64(n: nat): (r: int)
    ensures -TWO_63 <= r < TWO_63 && (r - n) % TWO_64 == 0
  {
    var m := n % TWO_64;
    if m < TWO_63 then m else m - TWO_64
  }

  datatype Status = Unprocessed | Completed(result: CompletionStatus)

  datatype InputFields = InputFields(msgSender: Bytes, txHash: Bytes, blockNumber: int, timestamp: nat, payload: Bytes)

  datatype InputRow = InputRow(fields: InputFields, status: Status)

  datatype Table = Vouchers | Notices | Reports | VoucherProofs | NoticeProofs

  datatype Key = Key(table: Table, input: int, index: int)

  datatype Row =
    | VoucherRow(destination: Bytes, payload: Bytes)
    | NoticeRow(payload: Bytes)
    | ReportRow(payload: Bytes)
    | ProofRow(
        inputIndexWithinEpoch: int, outputIndexWithinInput: int,
        outputHashesRootHash: Bytes, vouchersEpochRootHash: Bytes,
        noticesEpochRootHash: Bytes, machineStateHash: Bytes,
        outputHashInOutputHashesSiblings: seq<Bytes>, outputHashesInEpochSiblings: seq<Bytes>,
        context: Bytes)

  datatype Database = Database(inputs: map<int, InputRow>, outputs: map<Key, Row>)

  const EMPTY := Database(map[], map[])

  datatype DatabaseError = ForeignKeyViolation(input: int)

  /** One statement sent to the database. */
  datatype Write =
    | Nothing
    | NewInput(index: int, fields: InputFields)
    | NewStatus(of: int, result: CompletionStatus)
    | NewOutput(key: Key, row: Row)

  /** Vouchers, notices and reports have a foreign key to their input; proofs have none. */
  predicate HasForeignKey(t: Table) {
    t == Vouchers || t == Notices || t == Reports
  }

  /** Inserts do nothing on conflict, and an update without a row to update is no error. */
  function Execute(db: Database, w: Write): Result<Database, DatabaseError> {
    match w
    case Nothing => Ok(db)
    case NewInput(k, fields) =>
      if k in db.inputs then Ok(db) else Ok(db.(inputs := db.inputs[k := InputRow(fields, Unprocessed)]))
    case NewStatus(k, result) =>
      if k in db.inputs then Ok(db.(inputs := db.inputs[k := db.inputs[k].(status := Completed(result))])) else Ok(db)
    case NewOutput(key, row) =>
      if key in db.outputs then Ok(db)
      else if HasForeignKey(key.table) && key.input !in db.inputs then Err(ForeignKeyViolation(key.input))
      else Ok(db.(outputs := db.outputs[key := row]))
  }

  function ExecuteAll(db: Database, ws: seq<Write>): Result<Database, DatabaseError> {
    if ws == [] then Ok(db)
    else
      match ExecuteAll(db, Front(ws))
      case Err(e) => Err(e)
      case Ok(before) => Execute(before, Last(ws))
  }

  // ------------------------------------------------------------------ what the tables hold

  function FirstInput(ws: seq<Write>, k: int): Option<InputFields> {
    if ws == [] then None
    else if FirstInput(Front(ws), k).Some? then FirstInput(Front(ws), k)
    else if Last(ws).NewInput? && Last(ws).index == k then Some(Last(ws).fields)
    else None
  }

  function FirstOutput(ws: seq<Write>, key: Key): Option<Row> {
    if ws == [] then None
    else if FirstOutput(Front(ws), key).Some? then FirstOutput(Front(ws), key)
    else if Last(ws).NewOutput? && Last(ws).key == key then Some(Last(ws).row)
    else None
  }

  /** The last result that came when the input was there already. */
  function StatusAfter(ws: seq<Write>, k: int): Status {
    if ws == [] then Unprocessed
    else if Last(ws).NewStatus? && Last(ws).of == k && FirstInput(Front(ws), k).Some? then Completed(Last(ws).result)
    else StatusAfter(Front(ws), k)
  }

  predicate ForeignKeysMet(ws: seq<Write>) {
    ws == [] || (
      && ForeignKeysMet(Front(ws))
      && (Last(ws).NewOutput? && HasForeignKey(Last(ws).key.table) ==> FirstInput(Front(ws), Last(ws).key.input).Some?))
  }

  ghost predicate InputsAre(db: Database, ws: seq<Write>) {
    && (forall k :: k in db.inputs <==> FirstInput(ws, k).Some?)
    && (forall k | k in db.inputs :: db.inputs[k] == InputRow(FirstInput(ws, k).value, StatusAfter(ws, k)))
  }

  ghost predicate OutputsAre(db: Database, ws: seq<Write>) {
    && (forall key :: key in db.outputs <==> FirstOutput(ws, key).Some?)
    && (forall key | key in db.outputs :: db.outputs[key] == FirstOutput(ws, key).value)
  }

  lemma {:induction false} StatusNeedsInput(ws: seq<Write>, k: int)
    requires FirstInput(ws, k).None?
    ensures StatusAfter(ws, k) == Unprocessed
  {
    if ws != [] {
      StatusNeedsInput(Front(ws), k);
    }
  }

  lemma {:induction false} OutputNeedsInput(ws: seq<Write>, key: Key)
    requires ForeignKeysMet(ws) && HasForeignKey(key.table) && FirstOutput(ws, key).Some?
    ensures FirstInput(ws, key.input).Some?
  {
    if FirstOutput(Front(ws), key).Some? {
      OutputNeedsInput(Front(ws), key);
    }
  }

  lemma {:induction false} InputsStep(db: Database, ws: seq<Write>)
    requires ws != [] && InputsAre(db, Front(ws)) && Execute(db, Last(ws)).Ok?
    ensures InputsAre(Execute(db, Last(ws)).value, ws)
  {
    var after := Execute(db, Last(ws)).value;
    forall k ensures k in after.inputs <==> FirstInput(ws, k).Some? {
    }
    forall k | k in after.inputs ensures after.inputs[k] == InputRow(FirstInput(ws, k).value, StatusAfter(ws, k)) {
      if k !in db.inputs {
        StatusNeedsInput(Front(ws), k);
      }
    }
  }

  /**
   For all writes: they all succeed if and only if every voucher, notice and report comes
   after its input. The tables then hold the first row given for each key, and
   for each input the last result that came after it.
   */
  lemma {:induction false} TablesAre(ws: seq<Write>)
    ensures ExecuteAll(EMPTY, ws).Ok? <==> ForeignKeysMet(ws)
    ensures ForeignKeysMet(ws) ==> InputsAre(ExecuteAll(EMPTY, ws).value, ws) && OutputsAre(ExecuteAll(EMPTY, ws).value, ws)
  {
    if ws != [] {
      TablesAre(Front(ws));
      if ForeignKeysMet(Front(ws)) {
        var db := ExecuteAll(EMPTY, Front(ws)).value;
        var w := Last(ws);
        if w.NewOutput? && w.key in db.outputs && HasForeignKey(w.key.table) {
          OutputNeedsInput(Front(ws), w.key);
        }
        if Execute(db, w).Ok? {
          InputsStep(db, ws);
        }
      }
    }
  }

  // ------------------------------------------------------------------ order and repetition

  /** What a write decides: two different writes of one slot contradict each other. */
  datatype Slot = NoSlot | InputSlot(index: int) | StatusSlot(of: int) | OutputSlot(key: Key)

  function SlotOf(w: Write): Slot {
    match w
    case Nothing => NoSlot
    case NewInput(k, _) => InputSlot(k)
    case NewStatus(k, _) => StatusSlot(k)
    case NewOutput(key, _) => OutputSlot(key)
  }

  ghost predicate Consistent(ws: seq<Write>) {
    forall a, b | a in ws && b in ws :: SlotOf(a) == SlotOf(b) ==> a == b
  }

  /** The input that has to be stored before. */
  function Refers(w: Write): Option<int> {
    match w
    case Nothing => None
    case NewInput(_, _) => None
    case NewStatus(k, _) => Some(k)
    case NewOutput(key, _) => if HasForeignKey(key.table) then Some(key.input) else None
  }

  predicate InputsFirst(ws: seq<Write>) {
    ws == [] || (
      && InputsFirst(Front(ws))
      && (Refers(Last(ws)).Some? ==> FirstInput(Front(ws), Refers(Last(ws)).value).Some?))
  }

  lemma {:induction false} InputsFirstMeetsKeys(ws: seq<Write>)
    requires InputsFirst(ws)
    ensures ForeignKeysMet(ws)
  {
    if ws != [] {
      InputsFirstMeetsKeys(Front(ws));
    }
  }

  lemma {:induction false} FirstInputIsWritten(ws: seq<Write>, k: int)
    ensures FirstInput(ws, k).Some? ==> NewInput(k, FirstInput(ws, k).value) in ws
    ensures FirstInput(ws, k).None? ==> forall fields :: NewInput(k, fields) !in ws
  {
    if ws != [] {
      FirstInputIsWritten(Front(ws), k);
      assert ws == Front(ws) + [Last(ws)];
    }
  }

  lemma {:induction false} FirstOutputIsWritten(ws: seq<Write>, key: Key)
    ensures FirstOutput(ws, key).Some? ==> NewOutput(key, FirstOutput(ws, key).value) in ws
    ensures FirstOutput(ws, key).None? ==> forall row :: NewOutput(key, row) !in ws
  {
    if ws != [] {
      FirstOutputIsWritten(Front(ws), key);
      assert ws == Front(ws) + [Last(ws)];
    }
  }

  lemma {:induction false} StatusIsWritten(ws: seq<Write>, k: int)
    requires InputsFirst(ws)
    ensures StatusAfter(ws, k).Completed? ==> NewStatus(k, StatusAfter(ws, k).result) in ws
    ensures StatusAfter(ws, k).Unprocessed? ==> forall result :: NewStatus(k, result) !in ws
  {
    if ws != [] {
      StatusIsWritten(Front(ws), k);
      assert ws == Front(ws) + [Last(ws)];
    }
  }

  lemma {:induction false} SameInputs(ws: seq<Write>, vs: seq<Write>, k: int)
    requires Consistent(ws) && (forall w :: w in ws <==> w in vs)
    ensures FirstInput(ws, k) == FirstInput(vs, k)
  {
    FirstInputIsWritten(ws, k);
    FirstInputIsWritten(vs, k);
    if FirstInput(vs, k).Some? && FirstInput(ws, k).Some? {
      var a, b := NewInput(k, FirstInput(ws, k).value), NewInput(k, FirstInput(vs, k).value);
      assert SlotOf(a) == SlotOf(b);
    }
  }

  lemma {:induction false} SameOutputs(ws: seq<Write>, vs: seq<Write>, key: Key)
    requires Consistent(ws) && (forall w :: w in ws <==> w in vs)
    ensures FirstOutput(ws, key) == FirstOutput(vs, key)
  {
    FirstOutputIsWritten(ws, key);
    FirstOutputIsWritten(vs, key);
    if FirstOutput(vs, key).Some? && FirstOutput(ws, key).Some? {
      var a, b := NewOutput(key, FirstOutput(ws, key).value), NewOutput(key, FirstOutput(vs, key).value);
      assert SlotOf(a) == SlotOf(b);
    }
  }

  lemma {:induction false} SameStatus(ws: seq<Write>, vs: seq<Write>, k: int)
    requires Consistent(ws) && InputsFirst(ws) && InputsFirst(vs) && (forall w :: w in ws <==> w in vs)
    ensures StatusAfter(ws, k) == StatusAfter(vs, k)
  {
    StatusIsWritten(ws, k);
    StatusIsWritten(vs, k);
    if StatusAfter(vs, k).Completed? && StatusAfter(ws, k).Completed? {
      var a, b := NewStatus(k, StatusAfter(ws, k).result), NewStatus(k, StatusAfter(vs, k).result);
      assert SlotOf(a) == SlotOf(b);
    }
  }

  /**
   Two deliveries of the same writes, in any orders and with any repetitions that put every
   input before its results, succeed and leave the same tables, if no two writes contradict each other.
   */
  lemma {:induction false} OrderAndRepetitionDoNotMatter(ws: seq<Write>, vs: seq<Write>)
    requires Consistent(ws) && InputsFirst(ws) && InputsFirst(vs) && (forall w :: w in ws <==> w in vs)
    ensures ExecuteAll(EMPTY, ws).Ok? && ExecuteAll(EMPTY, ws) == ExecuteAll(EMPTY, vs)
  {
    InputsFirstMeetsKeys(ws);
    InputsFirstMeetsKeys(vs);
    TablesAre(ws);
    TablesAre(vs);
    var a, b := ExecuteAll(EMPTY, ws).value, ExecuteAll(EMPTY, vs).value;
    assert a.inputs == b.inputs by {
      forall k ensures k in a.inputs <==> k in b.inputs {
        SameInputs(ws, vs, k);
      }
      forall k | k in a.inputs && k in b.inputs ensures a.inputs[k] == b.inputs[k] {
        SameInputs(ws, vs, k);
        SameStatus(ws, vs, k);
      }
    }
    assert a.outputs == b.outputs by {
      forall key ensures FirstOutput(ws, key) == FirstOutput(vs, key) {
        SameOutputs(ws, vs, key);
      }
    }
  }

  /** Every write of such a delivery is in the tables. */
  lemma {:induction false} EveryWriteIsStored(ws: seq<Write>, w: Write)
    requires Consistent(ws) && InputsFirst(ws) && w in ws
    ensures ExecuteAll(EMPTY, ws).Ok?
    ensures w.NewInput? ==>
              var db := ExecuteAll(EMPTY, ws).value;
              w.index in db.inputs && db.inputs[w.index].fields == w.fields
    ensures w.NewStatus? ==>
              var db := ExecuteAll(EMPTY, ws).value;
              w.of in db.inputs && db.inputs[w.of].status == Completed(w.result)
    ensures w.NewOutput? ==>
              var db := ExecuteAll(EMPTY, ws).value;
              w.key in db.outputs && db.outputs[w.key] == w.row
  {
    InputsFirstMeetsKeys(ws);
    TablesAre(ws);
    match w {
      case Nothing =>
      case NewInput(k, fields) =>
        FirstInputIsWritten(ws, k);
        assert SlotOf(NewInput(k, FirstInput(ws, k).value)) == SlotOf(w);
      case NewStatus(k, result) =>
        StatusIsWritten(ws, k);
        assert SlotOf(NewStatus(k, StatusAfter(ws, k).result)) == SlotOf(w);
        if FirstInput(ws, k).None? {
          StatusNeedsInput(ws, k);
        }
      case NewOutput(key, row) =>
        FirstOutputIsWritten(ws, key);
        assert SlotOf(NewOutput(key, FirstOutput(ws, key).value)) == SlotOf(w);
    }
  }

  lemma {:induction false} StatusIsKept(ws: seq<Write>, k: int, result: CompletionStatus)
    requires Consistent(ws) && NewStatus(k, result) in ws
    ensures StatusAfter(ws, k) == Completed(result) <==>
            exists j | 0 <= j < |ws| :: ws[j] == NewStatus(k, result) && FirstInput(ws[..j], k).Some?
    ensures StatusAfter(ws, k) == Completed(result) || StatusAfter(ws, k) == Unprocessed
  {
    var w := NewStatus(k, result);
    for n := 0 to |ws|
      invariant StatusAfter(ws[..n], k) == Completed(result) <==>
                exists j | 0 <= j < n :: ws[j] == w && FirstInput(ws[..j], k).Some?
      invariant StatusAfter(ws[..n], k) == Completed(result) || StatusAfter(ws[..n], k) == Unprocessed
    {
      assert Front(ws[..n + 1]) == ws[..n] && Last(ws[..n + 1]) == ws[n];
      assert ws[n] in ws && (SlotOf(ws[n]) == SlotOf(w) ==> ws[n] == w);
    }
    assert ws[..|ws|] == ws;
  }

  /**
   Without that order of results, the tables keep a result if and only if one of
   its deliveries comes after the input's; otherwise the input stays unprocessed.
   */
  lemma {:induction false} ResultsAreKept(ws: seq<Write>, k: int, result: CompletionStatus)
    requires Consistent(ws) && ForeignKeysMet(ws) && NewStatus(k, result) in ws
    ensures ExecuteAll(EMPTY, ws).Ok?
    ensures var db := ExecuteAll(EMPTY, ws).value;
            (k in db.inputs && db.inputs[k].status == Completed(result)) <==>
            exists j | 0 <= j < |ws| :: ws[j] == NewStatus(k, result) && FirstInput(ws[..j], k).Some?
    ensures var db := ExecuteAll(EMPTY, ws).value;
            k in db.inputs ==> db.inputs[k].status == Completed(result) || db.inputs[k].status == Unprocessed
  {
    TablesAre(ws);
    StatusIsKept(ws, k, result);
    if FirstInput(ws, k).None? {
      StatusNeedsInput(ws, k);
    }
  }

  /** A result that comes after its input is stored, whatever came before it. */
  lemma {:induction false} LastResultIsStored(ws: seq<Write>, k: int, result: CompletionStatus)
    requires ExecuteAll(EMPTY, ws).Ok? && k in ExecuteAll(EMPTY, ws).value.inputs
    ensures var before, r := ExecuteAll(EMPTY, ws).value, ExecuteAll(EMPTY, ws + [NewStatus(k, result)]);
            && r.Ok? && k in r.value.inputs
            && r.value.inputs[k] == InputRow(before.inputs[k].fields, Completed(result))
  {
    assert Front(ws + [NewStatus(k, result)]) == ws;
  }

  /** Vouchers, notices and reports are refused without their input; proofs are not. */
  lemma {:induction false} OnlyProofsStandAlone(db: Database, key: Key, row: Row)
    requires key !in db.outputs && key.input !in db.inputs
    ensures if key.table == VoucherProofs || key.table == NoticeProofs
            then Execute(db, NewOutput(key, row)) == Ok(Database(db.inputs, db.outputs[key := row]))
            else Execute(db, NewOutput(key, row)) == Err(ForeignKeyViolation(key.input))
  {
    assert key.table == Vouchers || key.table == Notices || key.table == Reports
        || key.table == VoucherProofs || key.table == NoticeProofs;
  }

  /** A result that comes before its input is lost, until it comes again. */
  lemma {:induction false} EarlyResultIsLost(k: int, fields: InputFields, result: CompletionStatus)
    ensures ExecuteAll(EMPTY, [NewStatus(k, result), NewInput(k, fields)])
            == Ok(Database(map[k := InputRow(fields, Unprocessed)], map[]))
    ensures ExecuteAll(EMPTY, [NewStatus(k, result), NewInput(k, fields), NewStatus(k, result)])
            == Ok(Database(map[k := InputRow(fields, Completed(result))], map[]))
  {
    var a, b := NewStatus(k, result), NewInput(k, fields);
    assert Front([a]) == [] && Front([a, b]) == [a] && Front([a, b, a]) == [a, b];
    assert ExecuteAll(EMPTY, [a]) == Ok(EMPTY);
    var db := Database(map[k := InputRow(fields, Unprocessed)], map[]);
    assert ExecuteAll(EMPTY, [a, b]) == Ok(db);
    assert ExecuteAll(EMPTY, [a, b, a]) == Execute(db, a);
    assert db.inputs[k := InputRow(fields, Completed(result))] == map[k := InputRow(fields, Completed(result))];
  }

  // ------------------------------------------------------------------ no write undoes another

  /** Rows stay, outputs are never overwritten, and a processed input stays processed. */
  ghost predicate Grows(before: Database, after: Database) {
    && (forall k | k in before.inputs ::
          && k in after.inputs && after.inputs[k].fields == before.inputs[k].fields
          && (before.inputs[k].status.Completed? ==> after.inputs[k].status.Completed?))
    && (forall key | key in before.outputs :: key in after.outputs && after.outputs[key] == before.outputs[key])
  }

  /** For every database and every sequence of writes, in whatever order they come. */
  lemma {:induction false} WritesOnlyAdd(db: Database, ws: seq<Write>)
    requires ExecuteAll(db, ws).Ok?
    ensures Grows(db, ExecuteAll(db, ws).value)
  {
    if ws != [] {
      WritesOnlyAdd(db, Front(ws));
    }
  }

  lemma {:induction false} SameCast(a: int, b: int)
    requires a % TWO_32 == b % TWO_32
    ensures ToI32(a) == ToI32(b)
  {
    ToI32IsCongruent(a);
    ToI32IsCongruent(b);
  }

  lemma {:induction false} SameLowBits(a: int, b: int)
    requires ToI32(a) == ToI32(b)
    ensures a % TWO_32 == b % TWO_32
  {
    ToI32IsCongruent(a);
    ToI32IsCongruent(b);
  }

  /** Keys collide exactly when the indexes agree modulo 2^32, so never below 2^32. */
  lemma {:induction false} KeysCollide(a: nat, b: nat)
    ensures ToI32(a) == ToI32(b) <==> a % TWO_32 == b % TWO_32
    ensures a < TWO_32 && b < TWO_32 ==> (ToI32(a) == ToI32(b) <==> a == b)
    ensures ToI32(a) == a <==> a < TWO_31
  {
    if a % TWO_32 == b % TWO_32 {
      SameCast(a, b);
    } else if ToI32(a) == ToI32(b) {
      SameLowBits(a, b);
    }
  }
}
