/** The advance-runner and its broker facade as objects, proved against Runner. */
module RunnerService {
  import opened Common
  import opened Conversions
  import opened Streams
  import opened RollupsEvents
  import opened InputsStream
  import opened ServerManager
  import R = Runner

  datatype RunnerError =
    | BrokerInternalError
    | ParentIdMismatchError(expected: nat, got: nat)
    | AdvanceError(source: ServerManagerError)
    | FinishEpochError(source: ServerManagerError)

  class AdvanceRunner {
    const server: ServerManagerFacade
    const readerMode: bool
    var inputs: Inputs
    var outputs: seq<RollupsOutput>
    var claims: seq<RollupsClaim>
    var lastId: nat
    var credit: Option<nat>  // how many more appends the broker will take, if it is going to fail

    function Setup(): R.Setup
      reads this
    {
      R.Setup(server.machine, server.dapp, readerMode)
    }

    function View(): R.Node
      reads this, server
    {
      R.Node(inputs, outputs, claims, lastId, server.session)
    }

    /** A runner that starts on what earlier runners left in the broker. */
    constructor (server: ServerManagerFacade, readerMode: bool, inputs: Inputs,
                 outputs: seq<RollupsOutput>, claims: seq<RollupsClaim>, credit: Option<nat>)
      requires server.session == START_SESSION
      ensures this.server == server && this.readerMode == readerMode && this.credit == credit
      ensures View() == R.Restart(R.Node(inputs, outputs, claims, INITIAL_ID, START_SESSION))
    {
      this.server, this.readerMode := server, readerMode;
      this.inputs, this.outputs, this.claims := inputs, outputs, claims;
      this.lastId, this.credit := INITIAL_ID, credit;
    }

    /** The broker takes one more append, or the connection fails. */
    method Spend() returns (ok: bool)
      modifies this`credit
      ensures ok <==> old(credit) != Some(0)
      ensures credit == if ok && old(credit).Some? then Some(old(credit).value - 1) else old(credit)
    {
      ok := credit != Some(0);
      if ok && credit.Some? {
        credit := Some(credit.value - 1);
      }
    }

    /** Read the next event; the caller has made sure that there is one. */
    method ConsumeInput() returns (r: Result<RollupsInput, RunnerError>)
      requires NextAfter(inputs, lastId).Some?
      modifies this`lastId
      ensures var event := NextAfter(old(inputs), old(lastId)).value;
              if event.payload.parentId == old(lastId)
              then r == Ok(event.payload) && lastId == event.id
              else r == Err(ParentIdMismatchError(old(lastId), event.payload.parentId)) && lastId == old(lastId)
    {
      var event := NextAfter(inputs, lastId).value;
      if event.payload.parentId != lastId {
        return Err(ParentIdMismatchError(lastId, event.payload.parentId));
      }
      lastId := event.id;
      return Ok(event.payload);
    }

    method ProduceOutputs(more: seq<RollupsOutput>) returns (r: Result<(), RunnerError>)
      modifies this`outputs, this`credit
      ensures r.Ok? <==> old(credit).None? || old(credit).value >= |more|
      ensures r.Ok? ==> outputs == old(outputs) + more
      ensures r.Ok? ==> credit == if old(credit).Some? then Some(old(credit).value - |more|) else None
      ensures r.Err? ==> r.error == BrokerInternalError && outputs == old(outputs) + more[..old(credit).value]
    {
      for i := 0 to |more|
        invariant old(credit).Some? ==> i <= old(credit).value
        invariant credit == if old(credit).Some? then Some(old(credit).value - i) else None
        invariant outputs == old(outputs) + more[..i]
      {
        var ok := Spend();
        if !ok {
          return Err(BrokerInternalError);
        }
        outputs := outputs + [more[i]];
      }
      assert more[..|more|] == more;
      return Ok(());
    }

    /** Append the claim unless the latest claim shows that it was appended before. */
    method ProduceRollupsClaim(claim: RollupsClaim) returns (r: Result<(), RunnerError>)
      modifies this`claims, this`credit
      ensures var toClaim := R.NewClaim(Setup(), old(claims), Some(claim));
              if toClaim.Some? && old(credit) == Some(0)
              then r == Err(BrokerInternalError) && claims == old(claims)
              else r.Ok? && claims == old(claims) + R.AsSeq(toClaim)
    {
      if readerMode {
        return Ok(());
      }
      var produced := claims != [] && claim.epochIndex <= Last(claims).epochIndex;
      if !produced {
        var ok := Spend();
        if !ok {
          return Err(BrokerInternalError);
        }
        claims := claims + [claim];
      }
      return Ok(());
    }

    /** The retries of the facade saw the server-manager idle. */
    ghost predicate Idle(pending: nat -> nat)
      reads this
    {
      exists i | 0 <= i < server.pendingInputsMaxRetries :: pending(i) == 0
    }

    method HandleAdvance(event: RollupsInput, pending: nat -> nat) returns (r: Result<(), RunnerError>)
      requires event.data.Advance?
      requires server.session.first <= |server.session.history|
      modifies server, this`outputs, this`credit
      ensures var turn := R.Handle(Setup(), old(server.session), event);
              if turn.Failed? || !Idle(pending)
              then r.Err? && r.error.AdvanceError? && outputs == old(outputs)
              else if old(credit).Some? && old(credit).value < |turn.outputs|
              then r == Err(BrokerInternalError) && outputs == old(outputs) + turn.outputs[..old(credit).value]
              else r.Ok? && outputs == old(outputs) + turn.outputs && server.session == turn.session
    {
      var index := if event.inputsSentCount == 0 then R.U64_SIZE - 1 else event.inputsSentCount - 1;
      var input := event.data.input;
      var sent := server.AdvanceState(event.epochIndex, index, MachineInput(input.metadata, input.payload), pending);
      if sent.Err? {
        return Err(AdvanceError(sent.error));
      }
      r := ProduceOutputs(sent.value);
    }

    /** Append the proofs of an epoch, and then its claim. */
    method ProduceEpoch(proofs: seq<RollupsOutput>, claim: RollupsClaim) returns (r: Result<(), RunnerError>)
      modifies this`outputs, this`claims, this`credit
      ensures var toClaim := R.NewClaim(Setup(), old(claims), Some(claim));
              if old(credit).Some? && old(credit).value < |proofs| + |R.AsSeq(toClaim)|
              then && r == Err(BrokerInternalError) && claims == old(claims)
                   && var n := old(credit).value;
                      outputs == old(outputs) + if n < |proofs| then proofs[..n] else proofs
              else r.Ok? && claims == old(claims) + R.AsSeq(toClaim) && outputs == old(outputs) + proofs
    {
      r := ProduceOutputs(proofs);
      if r.Ok? {
        r := ProduceRollupsClaim(claim);
      } else {
        assert claims == old(claims);
      }
    }

    method HandleFinish(event: RollupsInput, pending: nat -> nat) returns (r: Result<(), RunnerError>)
      requires event.data.FinishEpoch?
      requires server.session.first <= |server.session.history|
      modifies server, this`outputs, this`claims, this`credit
      ensures var turn := R.Handle(Setup(), old(server.session), event);
              if turn.Failed? || !Idle(pending)
              then r.Err? && r.error.FinishEpochError? && outputs == old(outputs) && claims == old(claims)
              else
                var toClaim := R.NewClaim(Setup(), old(claims), turn.claim);
                if old(credit).Some? && old(credit).value < |turn.outputs| + |R.AsSeq(toClaim)|
                then && r == Err(BrokerInternalError) && claims == old(claims)
                     && var n := old(credit).value;
                        outputs == old(outputs) + if n < |turn.outputs| then turn.outputs[..n] else turn.outputs
                else && r.Ok? && claims == old(claims) + R.AsSeq(toClaim)
                     && outputs == old(outputs) + turn.outputs && server.session == turn.session
    {
      var finished := server.FinishEpoch(event.epochIndex, pending);
      match finished
      case Ok((claim, proofs)) =>
        r := ProduceEpoch(proofs, claim);
      case Err(source) =>
        if source.EmptyEpochError? {
          assert outputs + [] == outputs && claims + [] == claims;
          r := Ok(());
        } else {
          r := Err(FinishEpochError(source));
        }
    }

    /**
     One iteration of the main loop. If it succeeds it is the step of the model;
     if it fails, the broker is left as by the step that fails after `written` appends.
     */
    method Iterate(pending: nat -> nat) returns (r: Result<(), RunnerError>, ghost written: nat)
      requires NextAfter(inputs, lastId).Some?
      requires server.session.first <= |server.session.history|
      modifies server, this
      ensures r.Ok? ==> View() == R.ConsumeStep(Setup(), old(View()), None)
      ensures r.Err? ==> R.Restart(View()) == R.ConsumeStep(Setup(), old(View()), Some(written))
    {
      written := 0;
      ghost var before := View();
      var event := ConsumeInput();
      if event.Err? {
        return Err(event.error), 0;
      }
      ghost var turn := R.Handle(Setup(), before.session, event.value);
      if event.value.data.Advance? {
        r := HandleAdvance(event.value, pending);
      } else {
        r := HandleFinish(event.value, pending);
      }
      if r == Err(BrokerInternalError) {
        written := old(credit).value;
      }
      if turn.Done? {
        TurnIsStep(Setup(), before, turn, if r.Ok? then None else Some(written));
      }
    }
  }

  /** The step of the model, for an event that can be handled. */
  lemma {:induction false} TurnIsStep(setup: R.Setup, node: R.Node, turn: R.Turn, credit: Option<nat>)
    requires NextAfter(node.inputs, node.lastId).Some? && turn.Done?
    requires var event := NextAfter(node.inputs, node.lastId).value;
             event.payload.parentId == node.lastId && turn == R.Handle(setup, node.session, event.payload)
    ensures var event := NextAfter(node.inputs, node.lastId).value;
            var toClaim := R.NewClaim(setup, node.claims, turn.claim);
            var n := if credit.Some? then credit.value else |turn.outputs| + 1;
            var outputs := node.outputs + if n < |turn.outputs| then turn.outputs[..n] else turn.outputs;
            var claims := node.claims + if n > |turn.outputs| then R.AsSeq(toClaim) else [];
            R.ConsumeStep(setup, node, credit)
            == if credit.Some? then R.Restart(R.Node(node.inputs, outputs, claims, node.lastId, node.session))
               else R.Node(node.inputs, outputs, claims, event.id, turn.session)
  {
  }
}
