/** What holds after every run of the advance-runner, with any number of crashes. */
module RunnerProofs {
  import opened Common
  import opened Conversions
  import opened Streams
  import opened RollupsEvents
  import opened InputsStream
  import opened ServerManager
  import opened Runner

  // ------------------------------------------------------------------ the clean pass

  lemma {:induction false} ReplayCounts(events: Inputs)
    ensures Replay(events).activeEpoch == Finishes(events)
    ensures |Replay(events).history| == Advances(events)
    ensures Replay(events).first <= Advances(events)
  {
    if events != [] {
      ReplayCounts(Front(events));
    }
  }

  /** How far the claims reach: the inputs before `n`, in epochs before `epoch`. */
  ghost predicate Tiles(claims: seq<RollupsClaim>, n: nat, epoch: nat) {
    && Contiguous(claims)
    && n == (if claims == [] then 0 else Last(claims).lastIndex + 1)
    && (forall k | 0 <= k < |claims| :: claims[k].epochIndex < epoch)
    && (forall i, j | 0 <= i < j < |claims| :: claims[i].epochIndex < claims[j].epochIndex)
  }

  lemma TilesExtend(claims: seq<RollupsClaim>, n: nat, epoch: nat, c: RollupsClaim)
    requires Tiles(claims, n, epoch) && c.firstIndex == n <= c.lastIndex && c.epochIndex == epoch
    ensures Tiles(claims + [c], c.lastIndex + 1, epoch + 1)
  {
    var all := claims + [c];
    forall k | 0 <= k < |all|
      ensures Begins(all, k) == all[k].firstIndex <= all[k].lastIndex
    {
      assert Begins(all, k) == Begins(claims, k);
    }
  }

  lemma {:induction false} OneMoreEventTiles(setup: Setup, events: Inputs)
    requires events != []
    requires var s := Replay(Front(events));
             s.first <= |s.history| && Tiles(CanonicalClaims(setup, Front(events)), s.first, s.activeEpoch)
    ensures Tiles(CanonicalClaims(setup, events), Replay(events).first, Replay(events).activeEpoch)
  {
    var s, claims := Replay(Front(events)), CanonicalClaims(setup, Front(events));
    if Last(events).payload.data.FinishEpoch? && s.first < |s.history| {
      TilesExtend(claims, s.first, s.activeEpoch, ClaimOf(setup.machine, setup.dapp, s));
    } else {
      assert claims + [] == claims;
      TilesLater(claims, s.first, s.activeEpoch, Replay(events).activeEpoch);
    }
  }

  lemma {:induction false} TilesLater(claims: seq<RollupsClaim>, n: nat, epoch: nat, later: nat)
    requires Tiles(claims, n, epoch) && epoch <= later
    ensures Tiles(claims, n, later)
  {
  }

  /**
   The claims of any sequence of events cover exactly the inputs of the finished
   epochs, in order and without overlap, and their epochs increase.
   */
  lemma {:induction false} CanonicalClaimsTile(setup: Setup, events: Inputs)
    ensures Tiles(CanonicalClaims(setup, events), Replay(events).first, Replay(events).activeEpoch)
  {
    if events != [] {
      CanonicalClaimsTile(setup, Front(events));
      ReplayCounts(Front(events));
      OneMoreEventTiles(setup, events);
    }
  }

  /** A longer stream only adds claims. */
  lemma {:induction false} CanonicalClaimsGrow(setup: Setup, events: Inputs, m: nat, n: nat)
    requires m <= n <= |events|
    ensures CanonicalClaims(setup, events[..m]) <= CanonicalClaims(setup, events[..n])
    decreases n
  {
    if m < n {
      CanonicalClaimsGrow(setup, events, m, n - 1);
      assert Front(events[..n]) == events[..n - 1];
      PrefixTransitive(CanonicalClaims(setup, events[..m]), CanonicalClaims(setup, events[..n - 1]),
                       CanonicalClaims(setup, events[..n]));
    }
  }

  // ------------------------------------------------------------------ the invariant

  ghost predicate Holds<T>(all: seq<T>, some: seq<T>) {
    forall x | x in some :: x in all
  }

  /**
   The runner has followed `n` events since it started; `high` events were once
   handled completely, by this runner or by one before it.
   */
  ghost predicate Inv(setup: Setup, node: Node, n: nat, high: nat) {
    && WellFormed(node.inputs)
    && n <= high <= |node.inputs|
    && node.lastId == LastId(node.inputs[..n])
    && node.session == Replay(node.inputs[..n])
    && node.claims == (if setup.readerMode then [] else CanonicalClaims(setup, node.inputs[..high]))
    && Holds(node.outputs, CanonicalOutputs(setup, node.inputs[..high]))
    && Passed(setup, node.inputs[..high])
  }

  /** Every event can be handled in turn: the machine leaves out nothing that is needed. */
  ghost predicate Passed(setup: Setup, events: Inputs) {
    events != [] ==>
      && Passed(setup, Front(events))
      && Handle(setup, Replay(Front(events)), Last(events).payload).Done?
  }

  lemma {:induction false} PassedNext(setup: Setup, inputs: Inputs, n: nat, high: nat)
    requires n <= high <= |inputs| && n < |inputs| && Passed(setup, inputs[..high])
    requires Handle(setup, Replay(inputs[..n]), inputs[n].payload).Done?
    ensures Passed(setup, inputs[..Higher(n, high)])
  {
    if n == high {
      assert Front(inputs[..n + 1]) == inputs[..n] && Last(inputs[..n + 1]) == inputs[n];
    }
  }

  /** On a well-formed stream, handling event `n` after the first `n` events is the clean pass. */
  lemma {:induction false} HandleIsClean(setup: Setup, inputs: Inputs, n: nat)
    requires WellFormed(inputs) && n < |inputs|
    ensures var turn := Handle(setup, Replay(inputs[..n]), inputs[n].payload);
            turn.Done? ==>
              && turn.session == Replay(inputs[..n + 1])
              && CanonicalClaims(setup, inputs[..n + 1]) == CanonicalClaims(setup, inputs[..n]) + AsSeq(turn.claim)
              && CanonicalOutputs(setup, inputs[..n + 1]) == CanonicalOutputs(setup, inputs[..n]) + turn.outputs
    ensures var s := Replay(inputs[..n]);
            Handle(setup, s, inputs[n].payload).Failed? <==>
              if inputs[n].payload.data.Advance?
              then !Addressed(setup.machine.process(Replay(inputs[..n + 1]).history))
              else s.first < |s.history| && !Convertible(setup.machine.seal(s.history, s.first))
  {
    ConsumedInOrder(inputs, n);
    ReplayCounts(inputs[..n]);
    assert Front(inputs[..n + 1]) == inputs[..n] && Last(inputs[..n + 1]) == inputs[n];
  }

  /** The claim of event `n` comes after all the claims before it. */
  lemma {:induction false} ClaimIsNewer(setup: Setup, inputs: Inputs, n: nat)
    requires WellFormed(inputs) && n < |inputs|
    requires Handle(setup, Replay(inputs[..n]), inputs[n].payload).Done?
    ensures var claim := Handle(setup, Replay(inputs[..n]), inputs[n].payload).claim;
            claim.Some? ==>
              forall k | 0 <= k < |CanonicalClaims(setup, inputs[..n])| ::
                CanonicalClaims(setup, inputs[..n])[k].epochIndex < claim.value.epochIndex
  {
    CanonicalClaimsTile(setup, inputs[..n]);
  }

  /** The claim of event `n` is among the claims of any longer prefix. */
  lemma {:induction false} ClaimIsThere(setup: Setup, inputs: Inputs, n: nat, high: nat)
    requires WellFormed(inputs) && n < high <= |inputs|
    requires Handle(setup, Replay(inputs[..n]), inputs[n].payload).Done?
    ensures var claim := Handle(setup, Replay(inputs[..n]), inputs[n].payload).claim;
            claim.Some? ==>
              var claims := CanonicalClaims(setup, inputs[..high]);
              claims != [] && claim.value.epochIndex <= Last(claims).epochIndex
  {
    var claim := Handle(setup, Replay(inputs[..n]), inputs[n].payload).claim;
    if claim.Some? {
      var claims := CanonicalClaims(setup, inputs[..high]);
      HandleIsClean(setup, inputs, n);
      CanonicalClaimsGrow(setup, inputs, n + 1, high);
      CanonicalClaimsTile(setup, inputs[..high]);
      var k := |CanonicalClaims(setup, inputs[..n + 1])| - 1;
      assert claims[k] == claim.value;
    }
  }

  /** A claim that is already in the stream is recognized; a new one is appended. */
  lemma {:induction false} ClaimOnce(setup: Setup, inputs: Inputs, n: nat, high: nat)
    requires WellFormed(inputs) && n <= high <= |inputs| && n < |inputs| && !setup.readerMode
    requires Handle(setup, Replay(inputs[..n]), inputs[n].payload).Done?
    ensures var claim := Handle(setup, Replay(inputs[..n]), inputs[n].payload).claim;
            NewClaim(setup, CanonicalClaims(setup, inputs[..high]), claim) == if n < high then None else claim
  {
    if n < high {
      ClaimIsThere(setup, inputs, n, high);
    } else {
      ClaimIsNewer(setup, inputs, n);
    }
  }

  lemma {:induction false} ProduceKeeps(setup: Setup, node: Node, gap: nat, data: RollupsData, n: nat, high: nat)
    requires Inv(setup, node, n, high)
    ensures Inv(setup, node.(inputs := Produce(node.inputs, gap, data)), n, high)
  {
    ProducedWellFormed(node.inputs, gap, data);
    assert Produce(node.inputs, gap, data)[..n] == node.inputs[..n];
    assert Produce(node.inputs, gap, data)[..high] == node.inputs[..high];
  }

  lemma RestartKeeps(setup: Setup, node: Node, n: nat, high: nat)
    requires Inv(setup, node, n, high)
    ensures Inv(setup, Restart(node), 0, high)
  {
    assert node.inputs[..0] == [];
  }

  /** Appending outputs again is harmless. */
  lemma WriteOutputs(setup: Setup, node: Node, outputs: seq<RollupsOutput>, n: nat, high: nat)
    requires Inv(setup, node, n, high)
    ensures Inv(setup, node.(outputs := node.outputs + outputs), n, high)
  {
  }

  function Higher(n: nat, high: nat): nat {
    if n < high then high else n + 1
  }

  lemma {:induction false} TurnClaims(setup: Setup, inputs: Inputs, n: nat, high: nat)
    requires WellFormed(inputs) && n <= high <= |inputs| && n < |inputs| && !setup.readerMode
    requires Handle(setup, Replay(inputs[..n]), inputs[n].payload).Done?
    ensures var claims := CanonicalClaims(setup, inputs[..high]);
            var turn := Handle(setup, Replay(inputs[..n]), inputs[n].payload);
            claims + AsSeq(NewClaim(setup, claims, turn.claim)) == CanonicalClaims(setup, inputs[..Higher(n, high)])
  {
    ClaimOnce(setup, inputs, n, high);
    HandleIsClean(setup, inputs, n);
    assert CanonicalClaims(setup, inputs[..high]) + [] == CanonicalClaims(setup, inputs[..high]);
  }

  lemma {:induction false} TurnOutputs(setup: Setup, inputs: Inputs, n: nat, high: nat, outputs: seq<RollupsOutput>)
    requires WellFormed(inputs) && n <= high <= |inputs| && n < |inputs|
    requires Handle(setup, Replay(inputs[..n]), inputs[n].payload).Done?
    requires Holds(outputs, CanonicalOutputs(setup, inputs[..high]))
    ensures var turn := Handle(setup, Replay(inputs[..n]), inputs[n].payload);
            Holds(outputs + turn.outputs, CanonicalOutputs(setup, inputs[..Higher(n, high)]))
  {
    HandleIsClean(setup, inputs, n);
  }

  /** All the appends of the turn at event `n` succeed. */
  lemma {:induction false} TurnKeeps(setup: Setup, node: Node, n: nat, high: nat) returns (high': nat)
    requires Inv(setup, node, n, high) && n < |node.inputs|
    requires Handle(setup, node.session, node.inputs[n].payload).Done?
    ensures var turn := Handle(setup, node.session, node.inputs[n].payload);
            var claim := NewClaim(setup, node.claims, turn.claim);
            Inv(setup, Write(node, turn.outputs, claim, |turn.outputs| + 1)
                         .(lastId := node.inputs[n].id, session := turn.session), n + 1, high')
    ensures high <= high'
  {
    HandleIsClean(setup, node.inputs, n);
    ConsumedInOrder(node.inputs, n);
    TurnOutputs(setup, node.inputs, n, high, node.outputs);
    PassedNext(setup, node.inputs, n, high);
    if !setup.readerMode {
      TurnClaims(setup, node.inputs, n, high);
    }
    high' := Higher(n, high);
  }

  /** Only outputs are appended, and the runner starts again. */
  lemma {:induction false} SomeOutputsKeep(
      setup: Setup, node: Node, outputs: seq<RollupsOutput>, claim: Option<RollupsClaim>, credit: nat, n: nat, high: nat)
    requires Inv(setup, node, n, high) && credit <= |outputs|
    ensures Inv(setup, Restart(Write(node, outputs, claim, credit)), 0, high)
  {
    WriteOutputs(setup, node, if credit < |outputs| then outputs[..credit] else outputs, n, high);
    RestartKeeps(setup, Write(node, outputs, claim, credit), n, high);
  }

  /** After a restart it does not matter how far the runner had followed the inputs. */
  lemma {:induction false} SameAfterRestart(
      node: Node, outputs: seq<RollupsOutput>, claim: Option<RollupsClaim>, credit: nat, lastId: nat, session: Session)
    requires credit > |outputs|
    ensures Restart(Write(node, outputs, claim, credit))
         == Restart(Write(node, outputs, claim, |outputs| + 1).(lastId := lastId, session := session))
  {
  }

  /** Only some of the appends of the turn at event `n` succeed, and the runner starts again. */
  lemma {:induction false} PartialTurnKeeps(
      setup: Setup, node: Node, n: nat, high: nat, credit: nat)
    returns (high': nat)
    requires Inv(setup, node, n, high) && n < |node.inputs|
    requires Handle(setup, node.session, node.inputs[n].payload).Done?
    ensures var turn := Handle(setup, node.session, node.inputs[n].payload);
            var claim := NewClaim(setup, node.claims, turn.claim);
            Inv(setup, Restart(Write(node, turn.outputs, claim, credit)), 0, high')
    ensures high <= high'
  {
    var turn := Handle(setup, node.session, node.inputs[n].payload);
    var claim := NewClaim(setup, node.claims, turn.claim);
    if credit <= |turn.outputs| {
      SomeOutputsKeep(setup, node, turn.outputs, claim, credit, n, high);
      high' := high;
    } else {
      high' := TurnKeeps(setup, node, n, high);
      RestartKeeps(setup, Write(node, turn.outputs, claim, |turn.outputs| + 1)
                            .(lastId := node.inputs[n].id, session := turn.session), n + 1, high');
      SameAfterRestart(node, turn.outputs, claim, credit, node.inputs[n].id, turn.session);
    }
  }

  /** The server-manager leaves out no field, and gives hashes and addresses of the right size. */
  ghost predicate Answers(m: Machine) {
    && (forall history :: Addressed(m.process(history)))
    && (forall history, first :: Convertible(m.seal(history, first)))
  }

  lemma {:induction false} ConsumeKeeps(setup: Setup, node: Node, credit: Option<nat>, n: nat, high: nat)
    returns (n': nat, high': nat)
    requires Inv(setup, node, n, high)
    ensures Inv(setup, ConsumeStep(setup, node, credit), n', high') && high <= high'
    ensures credit.None? && Answers(setup.machine) ==> n' == if n < |node.inputs| then n + 1 else n
  {
    ReadsInOrder(node.inputs, n);
    if n == |node.inputs| {
      if credit.Some? {
        RestartKeeps(setup, node, n, high);
        return 0, high;
      } else {
        return n, high;
      }
    }
    ConsumedInOrder(node.inputs, n);
    HandleIsClean(setup, node.inputs, n);
    if Handle(setup, node.session, node.inputs[n].payload).Failed? {
      RestartKeeps(setup, node, n, high);
      return 0, high;
    } else if credit.Some? {
      high' := PartialTurnKeeps(setup, node, n, high, credit.value);
      n' := 0;
    } else {
      high' := TurnKeeps(setup, node, n, high);
      n' := n + 1;
    }
  }

  lemma {:induction false} RunKeeps(setup: Setup, actions: seq<Action>) returns (n: nat, high: nat)
    ensures Inv(setup, Run(setup, actions), n, high)
  {
    if actions == [] {
      return 0, 0;
    }
    n, high := RunKeeps(setup, Front(actions));
    match Last(actions)
    case ProduceInput(gap, data) => ProduceKeeps(setup, Run(setup, Front(actions)), gap, data, n, high);
    case Consume(credit) => n, high := ConsumeKeeps(setup, Run(setup, Front(actions)), credit, n, high);
  }

  // ------------------------------------------------------------------ theorems

  /**
   After any run, with any number of crashes, the claims stream is a prefix of the
   claims of one clean pass over the inputs; its epochs increase, and its claims
   tile the inputs from 0 on.
   */
  lemma {:induction false} ClaimsArePrefixOfCanonical(setup: Setup, actions: seq<Action>)
    ensures var node := Run(setup, actions);
            && WellFormed(node.inputs)
            && node.claims <= CanonicalClaims(setup, node.inputs)
            && (setup.readerMode ==> node.claims == [])
            && Contiguous(node.claims)
            && (forall i, j | 0 <= i < j < |node.claims| :: node.claims[i].epochIndex < node.claims[j].epochIndex)
  {
    var node := Run(setup, actions);
    var n, high := RunKeeps(setup, actions);
    CanonicalClaimsGrow(setup, node.inputs, high, |node.inputs|);
    assert node.inputs[..|node.inputs|] == node.inputs;
    CanonicalClaimsTile(setup, node.inputs[..high]);
  }

  lemma {:induction false} LastEventAddsOutputs(setup: Setup, events: Inputs)
    requires events != []
    ensures CanonicalOutputs(setup, Front(events)) <= CanonicalOutputs(setup, events)
  {
  }

  lemma {:induction false} PrefixOutputs(setup: Setup, events: Inputs, m: nat)
    requires m <= |events|
    ensures CanonicalOutputs(setup, events[..m]) <= CanonicalOutputs(setup, events)
    decreases |events|
  {
    if m < |events| {
      var before := Front(events);
      PrefixOutputs(setup, before, m);
      assert before[..m] == events[..m];
      LastEventAddsOutputs(setup, events);
      PrefixTransitive(CanonicalOutputs(setup, events[..m]), CanonicalOutputs(setup, before),
                       CanonicalOutputs(setup, events));
    } else {
      assert events[..m] == events;
    }
  }

  lemma {:induction false} CanonicalOutputsGrow(setup: Setup, events: Inputs, m: nat, n: nat)
    requires m <= n <= |events|
    ensures CanonicalOutputs(setup, events[..m]) <= CanonicalOutputs(setup, events[..n])
  {
    assert events[..n][..m] == events[..m];
    PrefixOutputs(setup, events[..n], m);
  }

  /**
   After any run, if the claim of an epoch is in the claims stream, then all the
   outputs of the inputs up to the end of that epoch, and all its proofs, are in
   the outputs stream.
   */
  lemma {:induction false} OutputsPrecedeClaims(setup: Setup, actions: seq<Action>, m: nat)
    requires m < |Run(setup, actions).inputs|
    requires var node := Run(setup, actions);
             var before := |CanonicalClaims(setup, node.inputs[..m])|;
             // event `m` finishes an epoch whose claim is the next one, and the stream holds it
             |CanonicalClaims(setup, node.inputs[..m + 1])| == before + 1 <= |node.claims|
    ensures var node := Run(setup, actions);
            Holds(node.outputs, CanonicalOutputs(setup, node.inputs[..m + 1]))
  {
    var node := Run(setup, actions);
    var n, high := RunKeeps(setup, actions);
    if high <= m {
      CanonicalClaimsGrow(setup, node.inputs, high, m);
    } else {
      CanonicalOutputsGrow(setup, node.inputs, m + 1, high);
    }
  }

  /** An event out of order stops the runner: one with another parent, epoch or number than comes next. */
  lemma {:induction false} OutOfOrderStops(setup: Setup, node: Node, credit: Option<nat>)
    requires NextAfter(node.inputs, node.lastId).Some? && |node.session.history| < U64_SIZE - 1
    requires var event := NextAfter(node.inputs, node.lastId).value.payload;
             || event.parentId != node.lastId
             || event.epochIndex != node.session.activeEpoch
             || (event.data.Advance? && event.inputsSentCount != |node.session.history| + 1)
    ensures ConsumeStep(setup, node, credit) == Restart(node)
  {
  }

  /** Without faults the runner never fails on a well-formed stream: it moves on by one event at a time. */
  lemma {:induction false} RunnerMovesOn(setup: Setup, node: Node, n: nat, high: nat)
    requires Inv(setup, node, n, high) && n < |node.inputs|
    requires Answers(setup.machine)
    ensures ConsumeStep(setup, node, None).lastId == LastId(node.inputs[..n + 1])
    ensures ConsumeStep(setup, node, None).session == Replay(node.inputs[..n + 1])
  {
    HandleIsClean(setup, node.inputs, n);
    ConsumedInOrder(node.inputs, n);
  }

  /** A runner that has caught up with the inputs has produced every claim and every output. */
  lemma {:induction false} CaughtUpMeansComplete(setup: Setup, actions: seq<Action>)
    requires var node := Run(setup, actions); node.lastId == LastId(node.inputs)
    ensures var node := Run(setup, actions);
            && node.claims == (if setup.readerMode then [] else CanonicalClaims(setup, node.inputs))
            && Holds(node.outputs, CanonicalOutputs(setup, node.inputs))
  {
    var node := Run(setup, actions);
    var n, high := RunKeeps(setup, actions);
    assert node.inputs[..|node.inputs|] == node.inputs;
    ReadsInOrder(node.inputs, n);
    ReadsInOrder(node.inputs, |node.inputs|);
    assert node.inputs[..high] == node.inputs;
  }

  lemma {:induction false} HoldsMore<T>(all: seq<T>, more: seq<T>, some: seq<T>)
    requires all <= more && Holds(all, some)
    ensures Holds(more, some)
  {
  }

  lemma {:induction false} HoldsBoth<T>(all: seq<T>, some: seq<T>, part: seq<T>, whole: seq<T>)
    requires Holds(all, some) && Holds(all, whole) && part <= whole
    ensures Holds(all, some + part)
  {
  }

  lemma {:induction false} HoldsEnd<T>(all: seq<T>, some: seq<T>)
    ensures Holds(all + some, some)
  {
  }

  /** A turn appends a part of its outputs, or nothing. */
  lemma {:induction false} WhatIsWritten(
      setup: Setup, node: Node, credit: Option<nat>)
    returns (part: seq<RollupsOutput>)
    ensures ConsumeStep(setup, node, credit).outputs == node.outputs + part
    ensures part == [] || (
              var event := NextAfter(node.inputs, node.lastId);
              && event.Some?
              && var turn := Handle(setup, node.session, event.value.payload);
                 turn.Done? && part <= turn.outputs)
  {
    part := ConsumeStep(setup, node, credit).outputs[|node.outputs|..];
    assert node.outputs + [] == node.outputs;
  }

  lemma {:induction false} TurnIsCanonical(setup: Setup, inputs: Inputs, n: nat)
    requires WellFormed(inputs) && n < |inputs|
    requires Handle(setup, Replay(inputs[..n]), inputs[n].payload).Done?
    ensures Holds(CanonicalOutputs(setup, inputs), Handle(setup, Replay(inputs[..n]), inputs[n].payload).outputs)
  {
    var outputs := Handle(setup, Replay(inputs[..n]), inputs[n].payload).outputs;
    HandleIsClean(setup, inputs, n);
    CanonicalOutputsGrow(setup, inputs, n + 1, |inputs|);
    assert inputs[..|inputs|] == inputs;
    HoldsEnd(CanonicalOutputs(setup, inputs[..n]), outputs);
    HoldsMore(CanonicalOutputs(setup, inputs[..n + 1]), CanonicalOutputs(setup, inputs), outputs);
  }

  lemma {:induction false} WrittenOutputs(setup: Setup, node: Node, n: nat, high: nat, credit: Option<nat>)
    requires Inv(setup, node, n, high) && Holds(CanonicalOutputs(setup, node.inputs), node.outputs)
    ensures Holds(CanonicalOutputs(setup, node.inputs), ConsumeStep(setup, node, credit).outputs)
  {
    var part := WhatIsWritten(setup, node, credit);
    ReadsInOrder(node.inputs, n);
    if part == [] {
      assert node.outputs + part == node.outputs;
    } else {
      TurnIsCanonical(setup, node.inputs, n);
      HoldsBoth(CanonicalOutputs(setup, node.inputs), node.outputs, part,
                Handle(setup, node.session, node.inputs[n].payload).outputs);
    }
  }

  lemma {:induction false} MoreInputsKeepOutputs(
      setup: Setup, inputs: Inputs, gap: nat, data: RollupsData, outputs: seq<RollupsOutput>)
    requires Holds(CanonicalOutputs(setup, inputs), outputs)
    ensures Holds(CanonicalOutputs(setup, Produce(inputs, gap, data)), outputs)
  {
    var more := Produce(inputs, gap, data);
    assert Front(more) == inputs;
    LastEventAddsOutputs(setup, more);
    HoldsMore(CanonicalOutputs(setup, inputs), CanonicalOutputs(setup, more), outputs);
  }

  lemma {:induction false} ConsumeKeepsInputs(setup: Setup, node: Node, credit: Option<nat>)
    ensures ConsumeStep(setup, node, credit).inputs == node.inputs
  {
  }

  lemma {:induction false} StepIsCanonical(setup: Setup, node: Node, n: nat, high: nat, a: Action)
    requires Inv(setup, node, n, high) && Holds(CanonicalOutputs(setup, node.inputs), node.outputs)
    ensures Holds(CanonicalOutputs(setup, Step(setup, node, a).inputs), Step(setup, node, a).outputs)
  {
    match a {
      case ProduceInput(gap, data) =>
        MoreInputsKeepOutputs(setup, node.inputs, gap, data, node.outputs);
      case Consume(credit) =>
        WrittenOutputs(setup, node, n, high, credit);
        ConsumeKeepsInputs(setup, node, credit);
    }
  }

  /** Every append to the outputs stream is an output of the clean pass, even before a crash. */
  lemma {:induction false} OutputsAreCanonical(setup: Setup, actions: seq<Action>)
    ensures var node := Run(setup, actions);
            Holds(CanonicalOutputs(setup, node.inputs), node.outputs)
  {
    if actions != [] {
      OutputsAreCanonical(setup, Front(actions));
      var n, high := RunKeeps(setup, Front(actions));
      StepIsCanonical(setup, Run(setup, Front(actions)), n, high, Last(actions));
    }
  }
}
