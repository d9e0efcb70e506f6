/**
 The runner and the claimer together, over one claims stream: what reaches the
 chain, in terms of the inputs that went into the node.
 */
module Pipeline {
  import opened Common
  import opened Streams
  import opened RollupsEvents
  import opened InputsStream
  import opened Checker
  import R = Runner
  import P = RunnerProofs
  import C = Claimer
  import D = Dispatcher
  import S = CleanPass

  /** The claims stream is the one of `world`; `node.claims` are its payloads. */
  datatype Joint = Joint(node: R.Node, world: C.World)

  datatype Action =
    | RunnerMoves(runner: R.Action, gap: nat)
    | ClaimerMoves(claimer: C.Action)

  function Start(settings: Settings): Joint {
    Joint(R.Start(), C.Start(settings))
  }

  function AppendAll(stream: C.Claims, gap: nat, claims: seq<RollupsClaim>): C.Claims {
    if claims == [] then stream else Append(AppendAll(stream, gap, Front(claims)), gap, Last(claims))
  }

  function Step(setup: R.Setup, settings: Settings, j: Joint, a: Action): Joint {
    match a
    case RunnerMoves(runner, gap) =>
      var node := R.Step(setup, j.node, runner);
      var more := if |j.node.claims| <= |node.claims| then node.claims[|j.node.claims|..] else [];
      Joint(node, j.world.(stream := AppendAll(j.world.stream, gap, more)))
    case ClaimerMoves(claimer) =>
      j.(world := C.Step(settings, j.world, claimer))
  }

  function Run(setup: R.Setup, settings: Settings, actions: seq<Action>): Joint {
    if actions == [] then Start(settings)
    else Step(setup, settings, Run(setup, settings, Front(actions)), Last(actions))
  }

  /** Inputs are counted with 64 bits, and the claimer's assumptions hold; only the runner publishes. */
  ghost predicate Legal(setup: R.Setup, settings: Settings, j: Joint, a: Action) {
    match a
    case RunnerMoves(runner, _) => Advances(R.Step(setup, j.node, runner).inputs) <= C.U64_SIZE
    case ClaimerMoves(claimer) => !claimer.Publish? && C.Legal(settings, j.world, claimer)
  }

  ghost predicate LegalRun(setup: R.Setup, settings: Settings, actions: seq<Action>) {
    actions != [] ==>
      && LegalRun(setup, settings, Front(actions))
      && Legal(setup, settings, Run(setup, settings, Front(actions)), Last(actions))
  }

  ghost predicate Inv(setup: R.Setup, settings: Settings, j: Joint, n: nat, high: nat, m: nat) {
    && P.Inv(setup, j.node, n, high)
    && C.Inv(settings, j.world, m)
    && Payloads(j.world.stream) == j.node.claims
    && Advances(j.node.inputs) <= C.U64_SIZE
  }

  // ------------------------------------------------------------------ steps

  /** A step of the runner appends at most one claim. */
  lemma {:induction false} AtMostOneClaim(setup: R.Setup, node: R.Node, a: R.Action)
    ensures var claims := R.Step(setup, node, a).claims;
            claims == node.claims || (|claims| == |node.claims| + 1 && Front(claims) == node.claims)
  {
    var after := R.Step(setup, node, a);
    assert node.claims + [] == node.claims;
  }

  lemma {:induction false} CanonicalClaimsAreOurs(setup: R.Setup, events: Inputs)
    ensures forall k | 0 <= k < |R.CanonicalClaims(setup, events)| :: R.CanonicalClaims(setup, events)[k].dapp == setup.dapp
  {
    if events != [] {
      CanonicalClaimsAreOurs(setup, Front(events));
    }
  }

  lemma {:induction false} AllClaimsAreOurs(stream: C.Claims, dapp: Bytes)
    requires forall i | 0 <= i < |stream| :: stream[i].payload.dapp == dapp
    ensures C.ClaimsOf(stream, dapp) == Payloads(stream)
  {
    if stream != [] {
      AllClaimsAreOurs(Front(stream), dapp);
      assert Payloads(stream) == Payloads(Front(stream)) + [Last(stream).payload];
    }
  }

  /** Everything the runner has claimed is about inputs it was given. */
  lemma {:induction false} ClaimsAreOurs(setup: R.Setup, node: R.Node, n: nat, high: nat)
    requires P.Inv(setup, node, n, high)
    ensures Contiguous(node.claims)
    ensures forall k | 0 <= k < |node.claims| :: node.claims[k].dapp == setup.dapp
    ensures node.claims != [] ==> Last(node.claims).lastIndex < Advances(node.inputs)
  {
    var events := node.inputs[..high];
    P.CanonicalClaimsTile(setup, events);
    P.ReplayCounts(events);
    CanonicalClaimsAreOurs(setup, events);
    AdvancesGrow(node.inputs, high, |node.inputs|);
    assert node.inputs[..|node.inputs|] == node.inputs;
  }

  /** The claim that the runner appends is one the claimer can rely on. */
  lemma {:induction false} PublishedClaimContinues(
      setup: R.Setup, settings: Settings, j: Joint, m: nat, node: R.Node, n: nat, high: nat)
    requires C.Inv(settings, j.world, m) && Payloads(j.world.stream) == j.node.claims
    requires P.Inv(setup, node, n, high) && Advances(node.inputs) <= C.U64_SIZE
    requires node.claims != [] && Front(node.claims) == j.node.claims
    ensures C.Continues(C.ClaimsOf(j.world.stream, Last(node.claims).dapp), Last(node.claims))
  {
    ClaimsAreOurs(setup, node, n, high);
    var k := |node.claims| - 1;
    forall i | 0 <= i < |j.world.stream| ensures j.world.stream[i].payload.dapp == setup.dapp {
      assert j.world.stream[i].payload == Payloads(j.world.stream)[i] == node.claims[i];
    }
    AllClaimsAreOurs(j.world.stream, setup.dapp);
    assert Begins(node.claims, k) == node.claims[k].firstIndex <= node.claims[k].lastIndex;
    assert Begins(j.node.claims, k) == Begins(node.claims, k);
  }

  lemma {:induction false} NodeKeeps(
      setup: R.Setup, node: R.Node, n: nat, high: nat, a: R.Action)
    returns (n': nat, high': nat)
    requires P.Inv(setup, node, n, high)
    ensures P.Inv(setup, R.Step(setup, node, a), n', high')
    ensures a == R.Consume(None) && P.Answers(setup.machine) ==> n' == if n < |node.inputs| then n + 1 else n
  {
    n', high' := n, high;
    match a {
      case ProduceInput(g, data) => P.ProduceKeeps(setup, node, g, data, n, high);
      case Consume(credit) => n', high' := P.ConsumeKeeps(setup, node, credit, n, high);
    }
  }

  lemma {:induction false} OneMoreClaim(stream: C.Claims, gap: nat, claims: seq<RollupsClaim>)
    requires claims != [] && Payloads(stream) == Front(claims)
    ensures AppendAll(stream, gap, claims[|claims| - 1..]) == Append(stream, gap, Last(claims))
    ensures Payloads(Append(stream, gap, Last(claims))) == claims
  {
    var claim := Last(claims);
    assert claims[|claims| - 1..] == [claim] && Front([claim]) == [];
    assert AppendAll(stream, gap, []) == stream;
  }

  /** The claims stream follows the claims of the node. */
  lemma {:induction false} StreamFollows(
      setup: R.Setup, settings: Settings, j: Joint, m: nat, node: R.Node, n: nat, high: nat, gap: nat)
    requires C.Inv(settings, j.world, m) && Payloads(j.world.stream) == j.node.claims
    requires P.Inv(setup, node, n, high) && Advances(node.inputs) <= C.U64_SIZE
    requires |node.claims| == |j.node.claims| + 1 && Front(node.claims) == j.node.claims
    ensures var stream := AppendAll(j.world.stream, gap, node.claims[|j.node.claims|..]);
            C.Inv(settings, j.world.(stream := stream), m) && Payloads(stream) == node.claims
  {
    OneMoreClaim(j.world.stream, gap, node.claims);
    PublishedClaimContinues(setup, settings, j, m, node, n, high);
    C.PublishKeeps(settings, j.world, m, gap, Last(node.claims));
  }

  lemma {:induction false} RunnerStepKeeps(
      setup: R.Setup, settings: Settings, j: Joint, n: nat, high: nat, m: nat, a: R.Action, gap: nat)
    returns (n': nat, high': nat)
    requires Inv(setup, settings, j, n, high, m) && Legal(setup, settings, j, RunnerMoves(a, gap))
    ensures Inv(setup, settings, Step(setup, settings, j, RunnerMoves(a, gap)), n', high', m)
    ensures a == R.Consume(None) && P.Answers(setup.machine) ==> n' == if n < |j.node.inputs| then n + 1 else n
  {
    var node := R.Step(setup, j.node, a);
    n', high' := NodeKeeps(setup, j.node, n, high, a);
    AtMostOneClaim(setup, j.node, a);
    if node.claims == j.node.claims {
      assert node.claims[|j.node.claims|..] == [];
    } else {
      StreamFollows(setup, settings, j, m, node, n', high', gap);
    }
  }

  lemma {:induction false} SameStream(settings: Settings, w: C.World, a: C.Action)
    requires !a.Publish?
    ensures C.Step(settings, w, a).stream == w.stream
  {
  }

  lemma {:induction false} ClaimerStepKeeps(
      setup: R.Setup, settings: Settings, j: Joint, n: nat, high: nat, m: nat, a: C.Action)
    returns (m': nat)
    requires Inv(setup, settings, j, n, high, m) && Legal(setup, settings, j, ClaimerMoves(a))
    ensures Inv(setup, settings, Step(setup, settings, j, ClaimerMoves(a)), n, high, m')
  {
    SameStream(settings, j.world, a);
    m' := C.StepKeeps(settings, j.world, m, a);
  }

  lemma {:induction false} RunKeeps(
      setup: R.Setup, settings: Settings, actions: seq<Action>)
    returns (n: nat, high: nat, m: nat)
    requires LegalRun(setup, settings, actions)
    ensures Inv(setup, settings, Run(setup, settings, actions), n, high, m)
  {
    if actions == [] {
      EmptyWindow([], settings.genesisBlock);
      return 0, 0, 0;
    }
    n, high, m := RunKeeps(setup, settings, Front(actions));
    var j := Run(setup, settings, Front(actions));
    match Last(actions) {
      case RunnerMoves(a, gap) => n, high := RunnerStepKeeps(setup, settings, j, n, high, m, a, gap);
      case ClaimerMoves(a) => m := ClaimerStepKeeps(setup, settings, j, n, high, m, a);
    }
  }

  /** All that is in the claims stream belongs to the application of the runner. */
  lemma {:induction false} StreamIsOurs(setup: R.Setup, settings: Settings, j: Joint, n: nat, high: nat, m: nat)
    requires Inv(setup, settings, j, n, high, m)
    ensures C.ClaimsOf(j.world.stream, setup.dapp) == j.node.claims
  {
    ClaimsAreOurs(setup, j.node, n, high);
    forall i | 0 <= i < |j.world.stream| ensures j.world.stream[i].payload.dapp == setup.dapp {
      assert j.world.stream[i].payload == Payloads(j.world.stream)[i];
    }
    AllClaimsAreOurs(j.world.stream, setup.dapp);
  }

  lemma {:induction false} NodeClaimsAreCanonical(setup: R.Setup, node: R.Node, n: nat, high: nat)
    requires P.Inv(setup, node, n, high)
    ensures node.claims <= R.CanonicalClaims(setup, node.inputs)
  {
    P.CanonicalClaimsGrow(setup, node.inputs, high, |node.inputs|);
    assert node.inputs[..|node.inputs|] == node.inputs;
  }

  lemma {:induction false} ChainedPrefix(a: seq<RollupsClaim>, b: seq<RollupsClaim>)
    requires a <= b
    ensures C.Chained(a) <= C.Chained(b)
  {
  }

  /**
   End to end: in every legal run, with the runner and the claimer crashing and
   restarting at will, the on-chain history of the application is a prefix of
   the claims of one clean pass over the inputs.
   */
  lemma {:induction false} HistoryIsPrefixOfCanonical(setup: R.Setup, settings: Settings, actions: seq<Action>)
    requires LegalRun(setup, settings, actions)
    ensures var j := Run(setup, settings, actions);
            && WellFormed(j.node.inputs)
            && ClaimsIn(j.world.log, setup.dapp) <= C.Chained(R.CanonicalClaims(setup, j.node.inputs))
  {
    var j := Run(setup, settings, actions);
    var n, high, m := RunKeeps(setup, settings, actions);
    StreamIsOurs(setup, settings, j, n, high, m);
    NodeClaimsAreCanonical(setup, j.node, n, high);
    ChainedPrefix(j.node.claims, R.CanonicalClaims(setup, j.node.inputs));
    assert C.ExactlyOnce(j.world.stream, m, j.world.log, setup.dapp);
    PrefixTransitive(ClaimsIn(j.world.log, setup.dapp), C.Chained(j.node.claims),
                     C.Chained(R.CanonicalClaims(setup, j.node.inputs)));
  }

  /** Entry `k` of the history, among the claims of the events that the runner has handled. */
  lemma {:induction false} EntryIsHandled(
      setup: R.Setup, settings: Settings, j: Joint, n: nat, high: nat, m: nat, k: nat)
    requires Inv(setup, settings, j, n, high, m) && k < |ClaimsIn(j.world.log, setup.dapp)|
    ensures k < |R.CanonicalClaims(setup, j.node.inputs[..high])|
    ensures ClaimsIn(j.world.log, setup.dapp)[k] == C.OnChain(R.CanonicalClaims(setup, j.node.inputs[..high])[k])
  {
    StreamIsOurs(setup, settings, j, n, high, m);
    assert C.ExactlyOnce(j.world.stream, m, j.world.log, setup.dapp);
    assert ClaimsIn(j.world.log, setup.dapp)[k] == C.Chained(j.node.claims)[k];
  }

  lemma {:induction false} EntryIsSealed(
      setup: R.Setup, settings: Settings, j: Joint, n: nat, high: nat, m: nat, k: nat)
    requires Inv(setup, settings, j, n, high, m) && k < |ClaimsIn(j.world.log, setup.dapp)|
    ensures var entry := ClaimsIn(j.world.log, setup.dapp)[k];
            S.SealedBy(setup.machine, R.Replay(j.node.inputs).history, entry.epochHash, entry.firstIndex, entry.lastIndex)
  {
    EntryIsHandled(setup, settings, j, n, high, m, k);
    S.ClaimsStaySealed(setup, j.node.inputs, high, k);
  }

  /**
   In every legal run, with whatever crashes, the hash of every claim on the chain is
   the hash of the three hashes that the machine seals, given the inputs up to the
   last one that the claim covers, for the epoch that starts at the first.
   */
  lemma {:induction false} HistoryIsSealed(setup: R.Setup, settings: Settings, actions: seq<Action>, k: nat)
    requires LegalRun(setup, settings, actions)
    requires k < |ClaimsIn(Run(setup, settings, actions).world.log, setup.dapp)|
    ensures var j := Run(setup, settings, actions);
            var entry := ClaimsIn(j.world.log, setup.dapp)[k];
            S.SealedBy(setup.machine, R.Replay(j.node.inputs).history, entry.epochHash, entry.firstIndex, entry.lastIndex)
  {
    var n, high, m := RunKeeps(setup, settings, actions);
    EntryIsSealed(setup, settings, Run(setup, settings, actions), n, high, m, k);
  }

  /** A runner that has followed all the inputs has claimed every epoch that calls for it. */
  lemma {:induction false} AllClaimed(setup: R.Setup, node: R.Node, n: nat, high: nat)
    requires P.Inv(setup, node, n, high) && n == |node.inputs| && !setup.readerMode
    ensures node.claims == R.CanonicalClaims(setup, node.inputs)
  {
    assert node.inputs[..high] == node.inputs;
  }

  /** Both have caught up: the history is that of the clean pass. */
  lemma {:induction false} CompleteState(setup: R.Setup, settings: Settings, j: Joint, n: nat, high: nat, m: nat)
    requires Inv(setup, settings, j, n, high, m) && !setup.readerMode
    requires n == |j.node.inputs| && m == |j.world.stream|
    ensures ClaimsIn(j.world.log, setup.dapp) == C.Chained(R.CanonicalClaims(setup, j.node.inputs))
  {
    StreamIsOurs(setup, settings, j, n, high, m);
    AllClaimed(setup, j.node, n, high);
    C.AllOnChain(settings, j.world, m, setup.dapp);
  }

  /**
   When the runner and the claimer have caught up, after whatever crashes, the
   on-chain history is exactly the claims of one clean pass over the inputs.
   */
  lemma {:induction false} CaughtUpMeansOnChain(setup: R.Setup, settings: Settings, actions: seq<Action>)
    requires LegalRun(setup, settings, actions) && !setup.readerMode
    requires var j := Run(setup, settings, actions);
             j.node.lastId == LastId(j.node.inputs) && j.world.lastClaimId == LastId(j.world.stream)
    ensures var j := Run(setup, settings, actions);
            ClaimsIn(j.world.log, setup.dapp) == C.Chained(R.CanonicalClaims(setup, j.node.inputs))
  {
    var j := Run(setup, settings, actions);
    var n, high, m := RunKeeps(setup, settings, actions);
    LastReadMeansAll(j.node.inputs, n);
    LastReadMeansAll(j.world.stream, m);
    CompleteState(setup, settings, j, n, high, m);
  }

  // ------------------------------------------------------------------ progress

  /** Turns of the runner without a fault. */
  function RunnerTurns(setup: R.Setup, settings: Settings, j: Joint, gaps: seq<nat>): Joint {
    if gaps == [] then j
    else Step(setup, settings, RunnerTurns(setup, settings, j, Front(gaps)), RunnerMoves(R.Consume(None), Last(gaps)))
  }

  lemma {:induction false} ConsumeKeepsInputs(setup: R.Setup, settings: Settings, j: Joint, gap: nat)
    ensures Step(setup, settings, j, RunnerMoves(R.Consume(None), gap)).node.inputs == j.node.inputs
  {
  }

  /** They follow one more input each, until all are followed. */
  lemma {:induction false} RunnerCatchesUp(
      setup: R.Setup, settings: Settings, j: Joint, n: nat, high: nat, m: nat, gaps: seq<nat>)
    returns (n': nat, high': nat)
    requires Inv(setup, settings, j, n, high, m) && P.Answers(setup.machine)
    ensures var j' := RunnerTurns(setup, settings, j, gaps);
            Inv(setup, settings, j', n', high', m) && j'.node.inputs == j.node.inputs
    ensures n' <= |j.node.inputs| && (n' == |j.node.inputs| || |gaps| <= n')
  {
    if gaps == [] {
      n', high' := n, high;
    } else {
      n', high' := RunnerCatchesUp(setup, settings, j, n, high, m, Front(gaps));
      var before := RunnerTurns(setup, settings, j, Front(gaps));
      ConsumeKeepsInputs(setup, settings, before, Last(gaps));
      n', high' := RunnerStepKeeps(setup, settings, before, n', high', m, R.Consume(None), Last(gaps));
    }
  }

  /** Turns of the claimer without a fault, after the runner has caught up. */
  lemma {:induction false} ClaimerCatchesUp(
      setup: R.Setup, settings: Settings, j: Joint, n: nat, high: nat, m: nat, ticks: seq<C.Action>)
    requires Inv(setup, settings, j, n, high, m) && n == |j.node.inputs| && !setup.readerMode
    requires C.SmoothFrom(settings, j.world, ticks) && |ticks| >= |j.world.stream|
    ensures ClaimsIn(C.Continue(settings, j.world, ticks).log, setup.dapp)
            == C.Chained(R.CanonicalClaims(setup, j.node.inputs))
  {
    StreamIsOurs(setup, settings, j, n, high, m);
    AllClaimed(setup, j.node, n, high);
    C.SmoothTurnsCatchUp(settings, j.world, m, ticks, setup.dapp);
  }

  lemma {:induction false} BothCatchUp(
      setup: R.Setup, settings: Settings, j: Joint, n: nat, high: nat, m: nat, gaps: seq<nat>, ticks: seq<C.Action>)
    requires Inv(setup, settings, j, n, high, m) && P.Answers(setup.machine) && !setup.readerMode
    requires |gaps| >= |j.node.inputs|
    requires var w := RunnerTurns(setup, settings, j, gaps).world;
             C.SmoothFrom(settings, w, ticks) && |ticks| >= |w.stream|
    ensures var w := C.Continue(settings, RunnerTurns(setup, settings, j, gaps).world, ticks);
            ClaimsIn(w.log, setup.dapp) == C.Chained(R.CanonicalClaims(setup, j.node.inputs))
  {
    var n', high' := RunnerCatchesUp(setup, settings, j, n, high, m, gaps);
    ClaimerCatchesUp(setup, settings, RunnerTurns(setup, settings, j, gaps), n', high', m, ticks);
  }

  /**
   After any legal run, with whatever crashes, as many turns of the runner without
   a fault as there are inputs, and then as many of the claimer as there are
   claims, put every claim of the clean pass on the chain.
   */
  lemma {:induction false} EveryEpochReachesChain(
      setup: R.Setup, settings: Settings, actions: seq<Action>, gaps: seq<nat>, ticks: seq<C.Action>)
    requires LegalRun(setup, settings, actions) && P.Answers(setup.machine) && !setup.readerMode
    requires |gaps| >= |Run(setup, settings, actions).node.inputs|
    requires var w := RunnerTurns(setup, settings, Run(setup, settings, actions), gaps).world;
             C.SmoothFrom(settings, w, ticks) && |ticks| >= |w.stream|
    ensures var j := Run(setup, settings, actions);
            var w := C.Continue(settings, RunnerTurns(setup, settings, j, gaps).world, ticks);
            ClaimsIn(w.log, setup.dapp) == C.Chained(R.CanonicalClaims(setup, j.node.inputs))
  {
    var n, high, m := RunKeeps(setup, settings, actions);
    BothCatchUp(setup, settings, Run(setup, settings, actions), n, high, m, gaps, ticks);
  }

  // ------------------------------------------------------------------ claims are epochs

  /** The inputs of the active epoch are those sent since the last epoch end. */
  lemma {:induction false} ActiveInputs(events: Inputs, q: nat)
    requires q < |events| && events[q].payload.data.Advance?
    ensures var s, i := R.Replay(events), Advances(events[..q]);
            && i < |s.history| && Finishes(events[..q]) <= s.activeEpoch
            && (s.first <= i <==> Finishes(events[..q]) == s.activeEpoch)
  {
    P.ReplayCounts(Front(events));
    if q < |events| - 1 {
      ActiveInputs(Front(events), q);
      assert Front(events)[..q] == events[..q];
    } else {
      assert events[..q] == Front(events);
    }
  }

  /** The claims made so far are about inputs before the active epoch. */
  lemma {:induction false} OldClaimsAreBelow(setup: R.Setup, events: Inputs, k: nat)
    requires k < |R.CanonicalClaims(setup, events)|
    ensures var claim := R.CanonicalClaims(setup, events)[k];
            claim.lastIndex < Advances(events) && claim.epochIndex < Finishes(events)
  {
    P.CanonicalClaimsTile(setup, events);
    P.ReplayCounts(events);
    LastClaimIsLargest(R.CanonicalClaims(setup, events), k);
  }

  /** A claim covers exactly the inputs that were sent in its epoch. */
  lemma {:induction false} ClaimCoversItsEpoch(setup: R.Setup, events: Inputs, k: nat, q: nat)
    requires k < |R.CanonicalClaims(setup, events)|
    requires q < |events| && events[q].payload.data.Advance?
    ensures var claim := R.CanonicalClaims(setup, events)[k];
            claim.firstIndex <= Advances(events[..q]) <= claim.lastIndex <==> Finishes(events[..q]) == claim.epochIndex
  {
    var before := Front(events);
    if q == |before| {
      assert events[..q] == before;
      OldClaimsAreBelow(setup, before, k);
    } else {
      assert before[..q] == events[..q];
      if k < |R.CanonicalClaims(setup, before)| {
        ClaimCoversItsEpoch(setup, before, k, q);
      } else {
        ActiveInputs(before, q);
      }
    }
  }

  lemma {:induction false} LastClaimIsLargest(claims: seq<RollupsClaim>, k: nat)
    requires Contiguous(claims) && k < |claims|
    ensures claims[k].lastIndex <= Last(claims).lastIndex
  {
    C.ClaimsAscend(claims, |claims|, k);
  }

  /** The same for a stream that the dispatcher wrote, in terms of the chain. */
  lemma {:induction false} ClaimCoversChainEpoch(
      setup: R.Setup, config: D.Config, events: Inputs, chain: seq<D.ChainInput>, epoch: nat, k: nat, i: nat)
    requires WellFormed(events) && D.Data(events) == D.Expected(config, chain, epoch)
    requires k < |R.CanonicalClaims(setup, events)| && i < |chain|
    ensures var claim := R.CanonicalClaims(setup, events)[k];
            claim.firstIndex <= i <= claim.lastIndex <==> D.Changes(config, chain, i) == claim.epochIndex
  {
    var q := i + D.Changes(config, chain, i);
    D.StreamEpochs(config, events, chain, epoch, i);
    D.InputIndex(config, events, chain, epoch, i);
    assert Linked(events, q);
    ClaimCoversItsEpoch(setup, events, k, q);
  }

  /**
   When the dispatcher feeds the node, a claim on the chain that covers an input
   covers exactly the inputs of the same epoch of the chain.
   */
  lemma {:induction false} ClaimsAreChainEpochs(
      setup: R.Setup, settings: Settings, actions: seq<Action>,
      config: D.Config, chain: seq<D.ChainInput>, epoch: nat, k: nat, i: nat, other: nat)
    requires LegalRun(setup, settings, actions)
    requires D.Chain(config, chain) && i < |chain| && other < |chain|
    requires D.Data(Run(setup, settings, actions).node.inputs) == D.Expected(config, chain, epoch)
    requires k < |ClaimsIn(Run(setup, settings, actions).world.log, setup.dapp)|
    requires Covers(ClaimsIn(Run(setup, settings, actions).world.log, setup.dapp)[k], i)
    ensures Covers(ClaimsIn(Run(setup, settings, actions).world.log, setup.dapp)[k], other)
            <==> D.Epoch(config, chain[other].block) == D.Epoch(config, chain[i].block)
  {
    var j := Run(setup, settings, actions);
    HistoryIsPrefixOfCanonical(setup, settings, actions);
    var canonical := R.CanonicalClaims(setup, j.node.inputs);
    assert ClaimsIn(j.world.log, setup.dapp)[k] == C.Chained(canonical)[k];
    ClaimCoversChainEpoch(setup, config, j.node.inputs, chain, epoch, k, i);
    ClaimCoversChainEpoch(setup, config, j.node.inputs, chain, epoch, k, other);
    if i <= other {
      D.SameEpoch(config, chain, i, other);
    } else {
      D.SameEpoch(config, chain, other, i);
    }
  }

  /** The same, with the epoch of a block as the number of whole epochs since the genesis block. */
  lemma {:induction false} ClaimsAreWholeEpochs(
      setup: R.Setup, settings: Settings, actions: seq<Action>,
      config: D.Config, chain: seq<D.ChainInput>, epoch: nat, k: nat, i: nat, other: nat)
    requires LegalRun(setup, settings, actions)
    requires D.Chain(config, chain) && i < |chain| && other < |chain|
    requires D.Data(Run(setup, settings, actions).node.inputs) == D.Expected(config, chain, epoch)
    requires k < |ClaimsIn(Run(setup, settings, actions).world.log, setup.dapp)|
    requires Covers(ClaimsIn(Run(setup, settings, actions).world.log, setup.dapp)[k], i)
    ensures Covers(ClaimsIn(Run(setup, settings, actions).world.log, setup.dapp)[k], other)
            <==> D.SameWholeEpoch(config, chain[other].block, chain[i].block)
  {
    assert chain[i] in chain && chain[other] in chain;
    ClaimsAreChainEpochs(setup, settings, actions, config, chain, epoch, k, i, other);
    D.SameEpochIsWhole(config, chain[other].block, chain[i].block);
  }

  predicate Covers(claim: Claim, index: nat) {
    claim.firstIndex <= index <= claim.lastIndex
  }
}
