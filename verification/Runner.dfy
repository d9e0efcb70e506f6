/**
 The advance-runner as a state machine over the broker streams and the
 server-manager session, with a crash allowed at every broker call.
 */
module Runner {
  import opened Common
  import opened Conversions
  import opened Streams
  import opened RollupsEvents
  import opened InputsStream
  import opened ServerManager

  datatype Setup = Setup(machine: Machine, dapp: Bytes, readerMode: bool)

  /** `lastId` and `session` belong to the runner; the rest survives it. */
  datatype Node = Node(
    inputs: Inputs, outputs: seq<RollupsOutput>, claims: seq<RollupsClaim>,
    lastId: nat, session: Session)

  datatype Action =
    | ProduceInput(gap: nat, data: RollupsData)
    | Consume(credit: Option<nat>)  // how many appends succeed before the runner fails, if it fails

  function Start(): Node {
    Node([], [], [], INITIAL_ID, START_SESSION)
  }

  function Restart(node: Node): Node {
    node.(lastId := INITIAL_ID, session := START_SESSION)
  }

  /** What handling an event produces, or the error that ends the runner. */
  datatype Turn =
    | Done(session: Session, outputs: seq<RollupsOutput>, claim: Option<RollupsClaim>)
    | Failed

  const U64_SIZE: nat := 0x1_0000_0000_0000_0000

  /** One less than the number of inputs sent; the subtraction wraps around. */
  function InputIndex(inputsSentCount: nat): nat {
    if inputsSentCount == 0 then U64_SIZE - 1 else inputsSentCount - 1
  }

  /** `handle_advance` and `handle_finish`, up to what they send to the broker. */
  function Handle(setup: Setup, s: Session, event: RollupsInput): Turn {
    match event.data
    case Advance(input) =>
      var index := InputIndex(event.inputsSentCount);
      var s' := Feed(s, MachineInput(input.metadata, input.payload));
      var processed := setup.machine.process(s'.history);
      if !AcceptsInput(s, event.epochIndex, index) || !Addressed(processed) then Failed
      else Done(s', OutputsOf(index, processed), None)
    case FinishEpoch =>
      if event.epochIndex != s.activeEpoch then Failed
      else if s.first < |s.history| then
        var sealed := setup.machine.seal(s.history, s.first);
        if !Convertible(sealed) then Failed
        else Done(NextEpoch(s), ProofsOf(sealed), Some(ClaimOf(setup.machine, setup.dapp, s)))
      else Done(NextEpoch(s), [], None)
  }

  /** The claim to append: none in reader mode, and none if the latest one is not older. */
  function NewClaim(setup: Setup, claims: seq<RollupsClaim>, claim: Option<RollupsClaim>): Option<RollupsClaim> {
    if claim.None? || setup.readerMode then None
    else if claims != [] && claim.value.epochIndex <= Last(claims).epochIndex then None
    else claim
  }

  function AsSeq<T>(o: Option<T>): seq<T> {
    match o case None => [] case Some(x) => [x]
  }

  /** The first `n` appends of a turn: outputs first, then the claim. */
  function Write(node: Node, outputs: seq<RollupsOutput>, claim: Option<RollupsClaim>, n: nat): Node {
    node.(outputs := node.outputs + if n < |outputs| then outputs[..n] else outputs,
          claims := node.claims + if n > |outputs| then AsSeq(claim) else [])
  }

  /** One iteration of the main loop. It blocks when there is no event to read. */
  function ConsumeStep(setup: Setup, node: Node, credit: Option<nat>): Node {
    match NextAfter(node.inputs, node.lastId)
    case None => if credit.Some? then Restart(node) else node
    case Some(event) =>
      if event.payload.parentId != node.lastId then Restart(node)
      else
        match Handle(setup, node.session, event.payload)
        case Failed => Restart(node)
        case Done(s', outputs, claim) =>
          var toClaim := NewClaim(setup, node.claims, claim);
          if credit.Some? then Restart(Write(node, outputs, toClaim, credit.value))
          else Write(node, outputs, toClaim, |outputs| + 1).(lastId := event.id, session := s')
  }

  function Step(setup: Setup, node: Node, a: Action): Node {
    match a
    case ProduceInput(gap, data) => node.(inputs := Produce(node.inputs, gap, data))
    case Consume(credit) => ConsumeStep(setup, node, credit)
  }

  function Run(setup: Setup, actions: seq<Action>): Node {
    if actions == [] then Start() else Step(setup, Run(setup, Front(actions)), Last(actions))
  }

  // ------------------------------------------------------------------ one clean pass

  /** The session after the events, fed once and in order. */
  function Replay(events: Inputs): Session {
    if events == [] then START_SESSION
    else
      match Last(events).payload.data
      case Advance(input) => Feed(Replay(Front(events)), MachineInput(input.metadata, input.payload))
      case FinishEpoch => NextEpoch(Replay(Front(events)))
  }

  /** The claims the events call for: one for each finished epoch that has inputs. */
  function CanonicalClaims(setup: Setup, events: Inputs): seq<RollupsClaim> {
    if events == [] then []
    else
      var s := Replay(Front(events));
      CanonicalClaims(setup, Front(events))
      + if Last(events).payload.data.FinishEpoch? && s.first < |s.history|
        then [ClaimOf(setup.machine, setup.dapp, s)] else []
  }

  /** The outputs the events call for: those of each input, and the proofs of each epoch. */
  function CanonicalOutputs(setup: Setup, events: Inputs): seq<RollupsOutput> {
    if events == [] then []
    else
      var s := Replay(Front(events));
      CanonicalOutputs(setup, Front(events))
      + match Last(events).payload.data
        case Advance(input) =>
          OutputsOf(|s.history|, setup.machine.process(s.history + [MachineInput(input.metadata, input.payload)]))
        case FinishEpoch =>
          if s.first < |s.history| then ProofsOf(setup.machine.seal(s.history, s.first)) else []
  }
}
