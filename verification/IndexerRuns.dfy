/** What holds after every run of the indexer, with any number of restarts. */
module IndexerRuns {
  import opened Common
  import opened Streams
  import opened RollupsEvents
  import opened InputsStream
  import opened Repository
  import opened Indexer

  /** The outputs before `m`. */
  function Upto(outputs: Outputs, m: nat): seq<RollupsOutput>
    requires m <= |outputs|
  {
    Payloads(outputs[..m])
  }

  /**
   The indexer has read `n` inputs and `m` outputs since it started; `highN` and
   `highM` were once stored, by this indexer or by one before it.
   */
  ghost predicate Inv(w: World, n: nat, m: nat, highN: nat, highM: nat) {
    && Increasing(w.inputs) && Increasing(w.outputs) && Sound(w.inputs, Payloads(w.outputs))
    && n <= highN <= |w.inputs| && m <= highM <= |w.outputs|
    && w.inputsLastId == LastId(w.inputs[..n]) && w.outputsLastId == LastId(w.outputs[..m])
    && Stored(w.inputs[..highN], Upto(w.outputs, highM), w.db)
  }

  /** The tables are those of one clean pass over these events. */
  ghost predicate Stored(inputs: Inputs, outputs: seq<RollupsOutput>, db: Database) {
    Sound(inputs, outputs) && ExecuteAll(EMPTY, CleanPass(inputs, outputs)) == Ok(db)
  }

  // ------------------------------------------------------------------ steps

  /** `vs` holds what `ws` holds, and `w`. */
  ghost predicate Adds<T(!new)>(vs: seq<T>, ws: seq<T>, w: T) {
    forall x :: x in vs <==> x in ws || x == w
  }

  lemma {:induction false} AddsLast<T(!new)>(ws: seq<T>, w: T)
    ensures Adds(ws + [w], ws, w)
  {
  }

  /** Executing one more write gives the tables of any ordered pass over the same writes and that one. */
  lemma {:induction false} Absorb(ws: seq<Write>, w: Write, vs: seq<Write>)
    requires Consistent(vs) && InputsFirst(ws) && InputsFirst(vs)
    requires Adds(vs, ws, w)
    requires Refers(w).Some? ==> FirstInput(ws, Refers(w).value).Some?
    ensures ExecuteAll(EMPTY, ws).Ok? && ExecuteAll(EMPTY, vs).Ok?
    ensures Execute(ExecuteAll(EMPTY, ws).value, w) == ExecuteAll(EMPTY, vs)
  {
    var all := ws + [w];
    assert Front(all) == ws && Last(all) == w;
    OrderAndRepetitionDoNotMatter(vs, all);
  }

  lemma {:induction false} PrefixIsNumbered(inputs: Inputs, n: nat)
    requires Numbered(inputs) && n <= |inputs|
    ensures Numbered(inputs[..n])
  {
    forall i | 0 <= i < n ensures inputs[..n][..i] == inputs[..i] {
    }
  }

  lemma {:induction false} FewerOutputsStaySound(inputs: Inputs, outputs: Outputs, m: nat)
    requires Sound(inputs, Payloads(outputs)) && m <= |outputs|
    ensures Sound(inputs, Upto(outputs, m))
  {
    forall o | o in Upto(outputs, m) ensures o in Payloads(outputs) {
      var i :| 0 <= i < m && Upto(outputs, m)[i] == o;
      assert o == Payloads(outputs)[i];
    }
  }

  lemma {:induction false} SameMembers(inputs: Inputs, outputs: seq<RollupsOutput>, n: nat)
    requires n < |inputs|
    ensures Adds(CleanPass(inputs[..n + 1], outputs), CleanPass(inputs[..n], outputs), InputWrite(inputs[n].payload))
  {
    assert InputWrites(inputs[..n + 1]) == InputWrites(inputs[..n]) + [InputWrite(inputs[n].payload)];
  }

  lemma {:induction false} Seen<T(!new)>(ws: seq<T>, w: T)
    requires w in ws
    ensures Adds(ws, ws, w)
  {
  }

  /** What storing input `n` does to the tables. */
  lemma {:induction false} InputStored(
      inputs: Inputs, outputs: seq<RollupsOutput>, n: nat, highN: nat)
    returns (highN': nat)
    requires n < |inputs| && n <= highN <= |inputs| && Numbered(inputs) && Advances(inputs) <= TWO_32
    requires Sound(inputs[..highN], outputs)
    ensures n < highN' && highN <= highN' <= |inputs| && Sound(inputs[..highN'], outputs)
    ensures ExecuteAll(EMPTY, CleanPass(inputs[..highN], outputs)).Ok?
    ensures var db := ExecuteAll(EMPTY, CleanPass(inputs[..highN], outputs)).value;
            && Execute(db, InputWrite(inputs[n].payload)).Ok?
            && Execute(db, InputWrite(inputs[n].payload)) == ExecuteAll(EMPTY, CleanPass(inputs[..highN'], outputs))
  {
    highN' := if n < highN then highN else n + 1;
    var ws, vs := CleanPass(inputs[..highN], outputs), CleanPass(inputs[..highN'], outputs);
    MoreInputsStaySound(inputs, outputs, highN, highN');
    CleanPassIsConsistent(inputs[..highN'], outputs);
    CleanPassIsOrdered(inputs[..highN], outputs);
    CleanPassIsOrdered(inputs[..highN'], outputs);
    var x := InputWrite(inputs[n].payload);
    if n < highN {
      assert ws[n] == x;
      Seen(ws, x);
      Absorb(ws, x, ws);
    } else {
      SameMembers(inputs, outputs, n);
      Absorb(ws, x, vs);
    }
  }

  lemma {:induction false} MoreInputsStaySound(inputs: Inputs, outputs: seq<RollupsOutput>, n: nat, n': nat)
    requires n <= n' <= |inputs| && Numbered(inputs) && Advances(inputs) <= TWO_32
    requires Sound(inputs[..n], outputs)
    ensures Sound(inputs[..n'], outputs)
  {
    PrefixIsNumbered(inputs, n');
    AdvancesGrow(inputs, n, n');
    AdvancesGrow(inputs, n', |inputs|);
    assert inputs[..|inputs|] == inputs;
  }

  /** Storing input `n`, for the first time or again. */
  lemma {:induction false} InputKeeps(w: World, n: nat, m: nat, highN: nat, highM: nat) returns (highN': nat)
    requires Inv(w, n, m, highN, highM) && n < |w.inputs|
    ensures Execute(w.db, InputWrite(w.inputs[n].payload)).Ok?
    ensures Inv(ConsumeStep(w, true), n + 1, m, highN', highM)
  {
    highN' := InputStored(w.inputs, Upto(w.outputs, highM), n, highN);
    ReadsInOrder(w.inputs, n);
    assert LastId(w.inputs[..n + 1]) == w.inputs[n].id;
  }

  lemma {:induction false} OutputIsOrdered(inputs: Inputs, outputs: seq<RollupsOutput>, o: RollupsOutput)
    requires Sound(inputs, outputs) && Fits(o, Advances(inputs))
    ensures var x := OutputWrite(o);
            Refers(x).Some? ==> FirstInput(CleanPass(inputs, outputs), Refers(x).value).Some?
  {
    if Refers(OutputWrite(o)).Some? {
      InputIsFound(inputs, o.inputIndex);
      FirstInputStays(InputWrites(inputs), OutputWrites(outputs), ToI32(o.inputIndex));
    }
  }

  /** Storing an output again changes nothing, when all the inputs are stored. */
  lemma {:induction false} OutputAgain(inputs: Inputs, outputs: seq<RollupsOutput>, m: nat)
    requires Sound(inputs, outputs) && m < |outputs|
    ensures ExecuteAll(EMPTY, CleanPass(inputs, outputs)).Ok?
    ensures Execute(ExecuteAll(EMPTY, CleanPass(inputs, outputs)).value, OutputWrite(outputs[m]))
            == ExecuteAll(EMPTY, CleanPass(inputs, outputs))
  {
    var ws, x := CleanPass(inputs, outputs), OutputWrite(outputs[m]);
    CleanPassIsConsistent(inputs, outputs);
    CleanPassIsOrdered(inputs, outputs);
    assert outputs[m] in outputs;
    OutputIsOrdered(inputs, outputs, outputs[m]);
    assert ws[|inputs| + m] == x;
    Seen(ws, x);
    Absorb(ws, x, ws);
  }

  /** Storing a new output gives the tables of the pass that ends with it. */
  lemma {:induction false} OutputAdded(inputs: Inputs, outputs: seq<RollupsOutput>, o: RollupsOutput)
    requires Sound(inputs, outputs) && Sound(inputs, outputs + [o])
    ensures ExecuteAll(EMPTY, CleanPass(inputs, outputs)).Ok? && ExecuteAll(EMPTY, CleanPass(inputs, outputs + [o])).Ok?
    ensures Execute(ExecuteAll(EMPTY, CleanPass(inputs, outputs)).value, OutputWrite(o))
            == ExecuteAll(EMPTY, CleanPass(inputs, outputs + [o]))
  {
    var ws, x := CleanPass(inputs, outputs), OutputWrite(o);
    CleanPassIsConsistent(inputs, outputs + [o]);
    CleanPassIsOrdered(inputs, outputs);
    CleanPassIsOrdered(inputs, outputs + [o]);
    assert (outputs + [o])[|outputs|] == o;
    OutputIsOrdered(inputs, outputs, o);
    assert OutputWrites(outputs + [o]) == OutputWrites(outputs) + [x];
    assert CleanPass(inputs, outputs + [o]) == ws + [x];
    AddsLast(ws, x);
    Absorb(ws, x, ws + [x]);
  }

  /** What storing output `m` does to the tables, when all the inputs are stored. */
  lemma {:induction false} OutputStored(inputs: Inputs, outputs: Outputs, m: nat, highM: nat) returns (highM': nat)
    requires Sound(inputs, Payloads(outputs)) && m < |outputs| && m <= highM <= |outputs|
    ensures m < highM' && highM <= highM' <= |outputs| && Sound(inputs, Upto(outputs, highM'))
    ensures ExecuteAll(EMPTY, CleanPass(inputs, Upto(outputs, highM))).Ok?
    ensures var db := ExecuteAll(EMPTY, CleanPass(inputs, Upto(outputs, highM))).value;
            && Execute(db, OutputWrite(outputs[m].payload)).Ok?
            && Execute(db, OutputWrite(outputs[m].payload)) == ExecuteAll(EMPTY, CleanPass(inputs, Upto(outputs, highM')))
  {
    FewerOutputsStaySound(inputs, outputs, highM);
    if m < highM {
      highM' := highM;
      OutputAgain(inputs, Upto(outputs, highM), m);
    } else {
      highM' := m + 1;
      FewerOutputsStaySound(inputs, outputs, highM');
      assert Upto(outputs, m + 1) == Upto(outputs, m) + [outputs[m].payload];
      OutputAdded(inputs, Upto(outputs, highM), outputs[m].payload);
    }
  }

  /** Storing output `m`, for the first time or again; all the inputs are stored. */
  lemma {:induction false} OutputKeeps(w: World, n: nat, m: nat, highN: nat, highM: nat) returns (highM': nat)
    requires Inv(w, n, m, highN, highM) && n == |w.inputs| && m < |w.outputs|
    ensures Execute(w.db, OutputWrite(w.outputs[m].payload)).Ok?
    ensures Inv(ConsumeStep(w, true), n, m + 1, highN, highM')
  {
    assert w.inputs[..highN] == w.inputs;
    highM' := OutputStored(w.inputs, w.outputs, m, highM);
    ReadsInOrder(w.inputs, n);
    ReadsInOrder(w.outputs, m);
    assert LastId(w.outputs[..m + 1]) == w.outputs[m].id;
  }

  lemma {:induction false} RestartKeeps(w: World, n: nat, m: nat, highN: nat, highM: nat)
    requires Inv(w, n, m, highN, highM)
    ensures Inv(Restart(w), 0, 0, highN, highM)
  {
    assert w.inputs[..0] == [] && w.outputs[..0] == [];
  }

  /** The database never refuses a write. */
  lemma {:induction false} StoreKeeps(w: World, n: nat, m: nat, highN: nat, highM: nat)
    returns (n': nat, m': nat, highN': nat, highM': nat)
    requires Inv(w, n, m, highN, highM)
    ensures Execute(w.db, WriteOf(Read(w))).Ok?
    ensures Inv(ConsumeStep(w, true), n', m', highN', highM')
    ensures n' + m' == if n + m < |w.inputs| + |w.outputs| then n + m + 1 else n + m
  {
    n', m', highN', highM' := n, m, highN, highM;
    ReadsInOrder(w.inputs, n);
    if n < |w.inputs| {
      highN' := InputKeeps(w, n, m, highN, highM);
      n' := n + 1;
    } else {
      ReadsInOrder(w.outputs, m);
      if m < |w.outputs| {
        highM' := OutputKeeps(w, n, m, highN, highM);
        m' := m + 1;
      }
    }
  }

  lemma {:induction false} ConsumeKeeps(w: World, n: nat, m: nat, highN: nat, highM: nat, stored: bool)
    returns (n': nat, m': nat, highN': nat, highM': nat)
    requires Inv(w, n, m, highN, highM)
    ensures Inv(ConsumeStep(w, stored), n', m', highN', highM')
  {
    if stored {
      n', m', highN', highM' := StoreKeeps(w, n, m, highN, highM);
    } else {
      RestartKeeps(w, n, m, highN, highM);
      n', m', highN', highM' := 0, 0, highN, highM;
    }
  }

  lemma {:induction false} SamePrefix<T>(s: seq<T>, more: seq<T>, n: nat)
    requires n <= |s|
    ensures (s + more)[..n] == s[..n]
  {
  }

  lemma {:induction false} ExtendKeeps(
      w: World, n: nat, m: nat, highN: nat, highM: nat, inputs: Inputs, outputs: Outputs)
    requires Inv(w, n, m, highN, highM) && Legal(w, Extend(inputs, outputs))
    ensures Inv(Step(w, Extend(inputs, outputs)), n, m, highN, highM)
  {
    SamePrefix(w.inputs, inputs, n);
    SamePrefix(w.inputs, inputs, highN);
    SamePrefix(w.outputs, outputs, m);
    SamePrefix(w.outputs, outputs, highM);
  }

  lemma {:induction false} RunKeeps(actions: seq<Action>) returns (n: nat, m: nat, highN: nat, highM: nat)
    requires LegalRun(actions)
    ensures Inv(Run(actions), n, m, highN, highM)
  {
    if actions == [] {
      assert CleanPass([], []) == [];
      return 0, 0, 0, 0;
    }
    n, m, highN, highM := RunKeeps(Front(actions));
    var w := Run(Front(actions));
    match Last(actions) {
      case Extend(inputs, outputs) => ExtendKeeps(w, n, m, highN, highM, inputs, outputs);
      case Consume(stored) => n, m, highN, highM := ConsumeKeeps(w, n, m, highN, highM, stored);
      case Crash =>
        RestartKeeps(w, n, m, highN, highM);
        n, m := 0, 0;
    }
  }

  // ------------------------------------------------------------------ theorems

  /** No write is ever refused, whatever the interleaving and the restarts. */
  lemma {:induction false} IndexerNeverFails(actions: seq<Action>)
    requires LegalRun(actions)
    ensures var w := Run(actions); Execute(w.db, WriteOf(Read(w))).Ok?
  {
    var n, m, highN, highM := RunKeeps(actions);
    var n', m', highN', highM' := StoreKeeps(Run(actions), n, m, highN, highM);
  }

  lemma {:induction false} ReadAll(w: World, n: nat, m: nat, highN: nat, highM: nat)
    requires Inv(w, n, m, highN, highM)
    ensures w.inputsLastId == LastId(w.inputs) ==> highN == |w.inputs|
    ensures w.outputsLastId == LastId(w.outputs) ==> highM == |w.outputs|
  {
    if w.inputsLastId == LastId(w.inputs) {
      LastReadMeansAll(w.inputs, n);
    }
    if w.outputsLastId == LastId(w.outputs) {
      LastReadMeansAll(w.outputs, m);
    }
  }

  lemma {:induction false} UptoIsPrefix(outputs: Outputs, m: nat)
    requires m <= |outputs|
    ensures Upto(outputs, m) == Payloads(outputs)[..m]
  {
  }

  /** In every state the tables are those of one clean pass over the first events of each stream. */
  lemma {:induction false} TablesAreOfOneCleanPass(actions: seq<Action>) returns (highN: nat, highM: nat)
    requires LegalRun(actions)
    ensures var w := Run(actions);
            && highN <= |w.inputs| && highM <= |w.outputs|
            && ExecuteAll(EMPTY, CleanPass(w.inputs[..highN], Payloads(w.outputs)[..highM])) == Ok(w.db)
            && (w.inputsLastId == LastId(w.inputs) ==> highN == |w.inputs|)
            && (w.outputsLastId == LastId(w.outputs) ==> highM == |w.outputs|)
  {
    var n, m;
    n, m, highN, highM := RunKeeps(actions);
    UptoIsPrefix(Run(actions).outputs, highM);
    ReadAll(Run(actions), n, m, highN, highM);
  }

  /** Once it has caught up, however often it restarted, replaying has left no trace. */
  lemma {:induction false} ReplayLeavesNoTrace(actions: seq<Action>)
    requires LegalRun(actions)
    requires var w := Run(actions); w.inputsLastId == LastId(w.inputs) && w.outputsLastId == LastId(w.outputs)
    ensures var w := Run(actions); ExecuteAll(EMPTY, CleanPass(w.inputs, Payloads(w.outputs))) == Ok(w.db)
  {
    var w := Run(actions);
    var highN, highM := TablesAreOfOneCleanPass(actions);
    assert w.inputs[..highN] == w.inputs && Payloads(w.outputs)[..highM] == Payloads(w.outputs);
  }

  // ------------------------------------------------------------------ progress

  /** `k` turns of the main loop in which the indexer does not stop. */
  function Turns(w: World, k: nat): World {
    Iterate(v => ConsumeStep(v, true), w, k)
  }

  /** The indexer has read `done` events of these streams since it started. */
  ghost predicate HasRead(w: World, inputs: Inputs, outputs: Outputs, done: nat) {
    && w.inputs == inputs && w.outputs == outputs
    && exists n: nat, m: nat, highN: nat, highM: nat :: Inv(w, n, m, highN, highM) && n + m == done
  }

  lemma {:induction false} OneTurn(w: World, inputs: Inputs, outputs: Outputs, done: nat)
    requires HasRead(w, inputs, outputs, done)
    ensures HasRead(ConsumeStep(w, true), inputs, outputs, if done < |inputs| + |outputs| then done + 1 else done)
  {
    var n: nat, m: nat, highN: nat, highM: nat :| Inv(w, n, m, highN, highM) && n + m == done;
    n, m, highN, highM := StoreKeeps(w, n, m, highN, highM);
  }

  /** Each turn reads one more event, until all are read. */
  lemma {:induction false} TurnsRead(w: World, inputs: Inputs, outputs: Outputs, done: nat, k: nat) returns (done': nat)
    requires HasRead(w, inputs, outputs, done)
    ensures HasRead(Turns(w, k), inputs, outputs, done')
    ensures done' >= |inputs| + |outputs| || k <= done'
  {
    var total := |inputs| + |outputs|;
    forall v: World, d: nat | HasRead(v, inputs, outputs, d)
      ensures HasRead(ConsumeStep(v, true), inputs, outputs, if d < total then d + 1 else d)
    {
      OneTurn(v, inputs, outputs, d);
    }
    done' := IterateReaches(v => ConsumeStep(v, true), (v: World, d: nat) => HasRead(v, inputs, outputs, d),
                            total, w, done, k);
  }

  lemma {:induction false} ReadMeansStored(w: World, done: nat)
    requires HasRead(w, w.inputs, w.outputs, done) && done >= |w.inputs| + |w.outputs|
    ensures ExecuteAll(EMPTY, CleanPass(w.inputs, Payloads(w.outputs))) == Ok(w.db)
  {
    var n: nat, m: nat, highN: nat, highM: nat :| Inv(w, n, m, highN, highM) && n + m == done;
    assert w.inputs[..highN] == w.inputs && w.outputs[..highM] == w.outputs;
  }

  /** After any legal run, as many turns as there are events complete the tables. */
  lemma {:induction false} EveryEventIsStored(actions: seq<Action>, k: nat)
    requires LegalRun(actions) && k >= |Run(actions).inputs| + |Run(actions).outputs|
    ensures var w := Run(actions);
            ExecuteAll(EMPTY, CleanPass(w.inputs, Payloads(w.outputs))) == Ok(Turns(w, k).db)
  {
    var w := Run(actions);
    var n, m, highN, highM := RunKeeps(actions);
    assert HasRead(w, w.inputs, w.outputs, n + m);
    var done := TurnsRead(w, w.inputs, w.outputs, n + m, k);
    ReadMeansStored(Turns(w, k), done);
  }
}
