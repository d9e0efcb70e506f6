/**
 The dispatcher: it follows the blocks of the chain, sends the inputs of the
 application to the broker in order, and ends an epoch when the chain leaves it.
 */
module Dispatcher {
  import opened Common
  import opened RollupsEvents
  import opened InputsStream

  /** An input of the application as found on the chain. */
  datatype ChainInput = ChainInput(
    sender: Bytes, payload: Bytes, block: nat, timestamp: nat, txHash: Bytes)

  type Positive = n: nat | n > 0 witness 1

  /** Deployment parameters, and the identifiers the broker will pick. */
  datatype Config = Config(genesisBlock: nat, epochLength: Positive, gaps: nat -> nat)

  datatype Context = Context(
    inputsSent: nat, lastInputEpoch: Option<nat>, lastFinishedEpoch: Option<nat>, stream: Inputs)

  function Start(): Context {
    Context(0, None, None, [])
  }

  /** Integer division by repeated subtraction. */
  function Quotient(x: nat, n: Positive): nat {
    if x < n then 0 else 1 + Quotient(x - n, n)
  }

  lemma {:induction false} QuotientIsFloor(x: nat, n: Positive)
    ensures n * Quotient(x, n) <= x < n * Quotient(x, n) + n
  {
    if x >= n {
      QuotientIsFloor(x - n, n);
      assert n * (1 + Quotient(x - n, n)) == n + n * Quotient(x - n, n);
    }
  }

  /** The epoch of a block; blocks before genesis have none and are refused below. */
  function Epoch(c: Config, block: nat): nat {
    if block < c.genesisBlock then 0 else Quotient(block - c.genesisBlock, c.epochLength)
  }

  lemma {:induction false} Multiples(n: Positive, a: nat, b: nat)
    ensures a < b ==> n * a + n <= n * b
  {
    if a < b {
      assert n * b == n * a + n + n * (b - a - 1);
    }
  }

  lemma {:induction false} FloorIsUnique(x: nat, n: Positive, q: nat)
    requires n * q <= x < n * q + n
    ensures q == x / n
  {
    Multiples(n, q, x / n);
    Multiples(n, x / n, q);
  }

  /** The epoch of a block is the number of whole epochs since the genesis block. */
  lemma {:induction false} EpochIsDivision(c: Config, block: nat)
    requires c.genesisBlock <= block
    ensures Epoch(c, block) == (block - c.genesisBlock) / c.epochLength
    ensures c.epochLength * Epoch(c, block) <= block - c.genesisBlock < c.epochLength * (Epoch(c, block) + 1)
  {
    QuotientIsFloor(block - c.genesisBlock, c.epochLength);
    FloorIsUnique(block - c.genesisBlock, c.epochLength, Epoch(c, block));
    assert c.epochLength * (Epoch(c, block) + 1) == c.epochLength * Epoch(c, block) + c.epochLength;
  }

  /** As many whole epochs have passed since the genesis block at one block as at the other. */
  predicate SameWholeEpoch(c: Config, a: nat, b: nat) {
    (a - c.genesisBlock) / c.epochLength == (b - c.genesisBlock) / c.epochLength
  }

  lemma {:induction false} SameEpochIsWhole(c: Config, a: nat, b: nat)
    requires c.genesisBlock <= a && c.genesisBlock <= b
    ensures Epoch(c, a) == Epoch(c, b) <==> SameWholeEpoch(c, a, b)
  {
    EpochIsDivision(c, a);
    EpochIsDivision(c, b);
  }

  /**
   A failed assertion of the code is `None` below: the dispatcher panics.
   */
  function FinishEpoch(c: Config, d: Context): Option<Context> {
    if d.lastInputEpoch.None? then None
    else if d.lastFinishedEpoch.Some? && d.lastInputEpoch.value <= d.lastFinishedEpoch.value then None
    else if Status(d.stream).sent != d.inputsSent then None
    else Some(d.(stream := Produce(d.stream, c.gaps(|d.stream|), RollupsData.FinishEpoch),
                 lastFinishedEpoch := d.lastInputEpoch))
  }

  function FinishEpochIfNeeded(c: Config, d: Context, block: nat): Option<Context>
  {
    if block < c.genesisBlock then None
    else if d.lastFinishedEpoch == d.lastInputEpoch then Some(d)
    else if d.lastInputEpoch.None? then None
    else
      var epoch := Epoch(c, block);
      if epoch == d.lastInputEpoch.value then Some(d)
      else if epoch > (if d.lastFinishedEpoch.Some? then d.lastFinishedEpoch.value else 0) then FinishEpoch(c, d)
      else Some(d)
  }

  /** The broker's copy of an input; its index is the number of inputs sent before it. */
  function InputData(input: ChainInput, index: nat): RollupsData {
    Advance(AdvanceStateInput(
      InputMetadata(input.sender, input.block, input.timestamp, 0, index), input.payload, input.txHash))
  }

  function EnqueueInput(c: Config, d: Context, input: ChainInput): Option<Context>
  {
    match FinishEpochIfNeeded(c, d, input.block)
    case None => None
    case Some(d1) =>
      var sent := Status(d1.stream).sent;
      if sent != d1.inputsSent then None
      else
        var epoch := Epoch(c, input.block);
        if d1.lastFinishedEpoch.Some? && epoch <= d1.lastFinishedEpoch.value then None
        else Some(d1.(stream := Produce(d1.stream, c.gaps(|d1.stream|), InputData(input, sent)),
                      inputsSent := d1.inputsSent + 1,
                      lastInputEpoch := Some(epoch)))
  }

  /**
   An input is sent only from the genesis block on, only if the stream has as many
   inputs as were sent, and only into an epoch that was not ended.
   */
  lemma {:induction false} SentInStep(c: Config, d: Context, input: ChainInput)
    requires EnqueueInput(c, d, input).Some?
    ensures c.genesisBlock <= input.block && Status(d.stream).sent == d.inputsSent
    ensures var after := EnqueueInput(c, d, input).value;
            && after.inputsSent == d.inputsSent + 1 && after.lastInputEpoch == Some(Epoch(c, input.block))
            && (after.lastFinishedEpoch.Some? ==> after.lastFinishedEpoch.value < Epoch(c, input.block))
  {
    var d1 := FinishEpochIfNeeded(c, d, input.block).value;
    if d1 != d {
      assert Last(d1.stream) == Last(Produce(d.stream, c.gaps(|d.stream|), RollupsData.FinishEpoch));
    }
  }

  /** Send the inputs one after the other. */
  function EnqueueAll(c: Config, d: Context, inputs: seq<ChainInput>): Option<Context>
  {
    if inputs == [] then Some(d)
    else
      match EnqueueAll(c, d, Front(inputs))
      case None => None
      case Some(d1) => EnqueueInput(c, d1, Last(inputs))
  }

  /** React to a block, given all the inputs of the application up to that block. */
  function React(c: Config, d: Context, box: seq<ChainInput>, block: nat): Option<Context>
  {
    match EnqueueAll(c, d, if d.inputsSent <= |box| then box[d.inputsSent..] else [])
    case None => None
    case Some(d1) => FinishEpochIfNeeded(c, d1, block)
  }

  // ------------------------------------------------------------ what should be sent

  /** The events for the given inputs: one per input, and an epoch end where the epoch changes. */
  function Emit(c: Config, inputs: seq<ChainInput>): seq<RollupsData>
  {
    if inputs == [] then []
    else
      var before := Front(inputs);
      Emit(c, before)
      + (if before != [] && Epoch(c, Last(before).block) != Epoch(c, Last(inputs).block)
         then [RollupsData.FinishEpoch] else [])
      + [InputData(Last(inputs), |before|)]
  }

  /** The chain has left the epoch of the last input. */
  predicate Left(c: Config, inputs: seq<ChainInput>, epoch: nat)
  {
    inputs != [] && Epoch(c, Last(inputs).block) < epoch
  }

  /** Everything that belongs in the stream once the chain has reached `epoch`. */
  function Expected(c: Config, inputs: seq<ChainInput>, epoch: nat): seq<RollupsData>
  {
    Emit(c, inputs) + if Left(c, inputs, epoch) then [RollupsData.FinishEpoch] else []
  }

  function Data(s: Inputs): (r: seq<RollupsData>)
    ensures |r| == |s|
  {
    seq(|s|, i requires 0 <= i < |s| => s[i].payload.data)
  }

  /** Inputs come in block order, from the genesis block on. */
  ghost predicate Chain(c: Config, inputs: seq<ChainInput>) {
    && (forall x | x in inputs :: x.block >= c.genesisBlock)
    && (forall i, j | 0 <= i < j < |inputs| :: inputs[i].block <= inputs[j].block)
  }

  /** The context has sent exactly what is expected for `sent` at `epoch`. */
  ghost predicate Tracks(c: Config, d: Context, sent: seq<ChainInput>, epoch: nat)
  {
    && WellFormed(d.stream)
    && Data(d.stream) == Expected(c, sent, epoch)
    && d.inputsSent == |sent| == Advances(d.stream)
    && d.lastInputEpoch == (if sent == [] then None else Some(Epoch(c, Last(sent).block)))
    && (sent != [] ==> Epoch(c, Last(sent).block) <= epoch)
    && (d.lastFinishedEpoch == d.lastInputEpoch <==> sent == [] || Left(c, sent, epoch))
    && (d.lastFinishedEpoch.Some? ==> d.lastInputEpoch.Some? && d.lastFinishedEpoch.value <= d.lastInputEpoch.value)
  }

  lemma {:induction false} QuotientMonotone(x: nat, y: nat, n: Positive)
    requires x <= y
    ensures Quotient(x, n) <= Quotient(y, n)
  {
    if x >= n {
      QuotientMonotone(x - n, y - n, n);
    }
  }

  lemma EpochMonotone(c: Config, a: nat, b: nat)
    requires a <= b
    ensures Epoch(c, a) <= Epoch(c, b)
  {
    if c.genesisBlock <= a {
      QuotientMonotone(a - c.genesisBlock, b - c.genesisBlock, c.epochLength);
    }
  }

  lemma ChainPrefix(c: Config, a: seq<ChainInput>, b: seq<ChainInput>)
    requires Chain(c, b) && a <= b
    ensures Chain(c, a)
  {
    assert forall i | 0 <= i < |a| :: a[i] == b[i];
  }

  lemma ChainSuffix(c: Config, a: seq<ChainInput>, n: nat)
    requires Chain(c, a) && n <= |a|
    ensures Chain(c, a[n..])
  {
    assert forall i | 0 <= i < |a[n..]| :: a[n..][i] == a[n + i];
  }

  lemma {:induction false} ProducedData(s: Inputs, gap: nat, data: RollupsData)
    ensures Data(Produce(s, gap, data)) == Data(s) + [data]
    ensures Advances(Produce(s, gap, data)) == Advances(s) + if data.Advance? then 1 else 0
  {
    assert Front(Produce(s, gap, data)) == s;
  }

  /** Moving to a later epoch ends the epoch of the last input, once, and nothing panics. */
  lemma {:induction false} FinishTracks(c: Config, d: Context, sent: seq<ChainInput>, epoch: nat, block: nat)
    requires block >= c.genesisBlock
    requires Tracks(c, d, sent, epoch) && epoch <= Epoch(c, block)
    ensures var r := FinishEpochIfNeeded(c, d, block);
            r.Some? && Tracks(c, r.value, sent, Epoch(c, block))
  {
    var gap := c.gaps(|d.stream|);
    StatusIsTrue(d.stream);
    ProducedWellFormed(d.stream, gap, RollupsData.FinishEpoch);
    ProducedData(d.stream, gap, RollupsData.FinishEpoch);
  }

  lemma {:induction false} ExpectedNext(c: Config, sent: seq<ChainInput>, x: ChainInput)
    requires sent != [] ==> Epoch(c, Last(sent).block) <= Epoch(c, x.block)
    ensures Expected(c, sent + [x], Epoch(c, x.block))
         == Expected(c, sent, Epoch(c, x.block)) + [InputData(x, |sent|)]
  {
    assert Front(sent + [x]) == sent && Last(sent + [x]) == x;
  }

  lemma {:induction false} EnqueueTracks(c: Config, d: Context, sent: seq<ChainInput>, epoch: nat, x: ChainInput)
    requires x.block >= c.genesisBlock
    requires Tracks(c, d, sent, epoch) && epoch <= Epoch(c, x.block)
    ensures var r := EnqueueInput(c, d, x);
            r.Some? && Tracks(c, r.value, sent + [x], Epoch(c, x.block))
  {
    FinishTracks(c, d, sent, epoch, x.block);
    SendTracks(c, FinishEpochIfNeeded(c, d, x.block).value, sent, x);
  }

  /** Sending an input of the current epoch. */
  lemma {:induction false} SendTracks(c: Config, d: Context, sent: seq<ChainInput>, x: ChainInput)
    requires Tracks(c, d, sent, Epoch(c, x.block))
    ensures var epoch, gap := Epoch(c, x.block), c.gaps(|d.stream|);
            && Status(d.stream).sent == |sent|
            && !(d.lastFinishedEpoch.Some? && epoch <= d.lastFinishedEpoch.value)
            && Tracks(c, d.(stream := Produce(d.stream, gap, InputData(x, |sent|)),
                            inputsSent := d.inputsSent + 1,
                            lastInputEpoch := Some(epoch)),
                      sent + [x], epoch)
  {
    StatusIsTrue(d.stream);
    var gap, data := c.gaps(|d.stream|), InputData(x, |sent|);
    ProducedWellFormed(d.stream, gap, data);
    ProducedData(d.stream, gap, data);
    ExpectedNext(c, sent, x);
    assert Last(sent + [x]) == x;
  }

  lemma {:induction false} EnqueueAllTracks(
      c: Config, d: Context, sent: seq<ChainInput>, epoch: nat, more: seq<ChainInput>)
    requires Chain(c, more) && Tracks(c, d, sent, epoch)
    requires more != [] ==> epoch <= Epoch(c, more[0].block)
    ensures var r := EnqueueAll(c, d, more);
            && r.Some?
            && Tracks(c, r.value, sent + more, if more == [] then epoch else Epoch(c, Last(more).block))
  {
    if more == [] {
      assert sent + more == sent;
    } else {
      var x := Last(more);
      assert sent + more == (sent + Front(more)) + [x];
      assert x in more;
      ChainPrefix(c, Front(more), more);
      EnqueueAllTracks(c, d, sent, epoch, Front(more));
      if |more| > 1 {
        EpochMonotone(c, Last(Front(more)).block, x.block);
      }
      var reached := if |more| > 1 then Epoch(c, Last(Front(more)).block) else epoch;
      EnqueueTracks(c, EnqueueAll(c, d, Front(more)).value, sent + Front(more), reached, x);
    }
  }

  // ------------------------------------------------------------------ following blocks

  /** The inputs of the chain in blocks up to `block`. */
  function At(all: seq<ChainInput>, block: nat): (r: seq<ChainInput>)
    ensures r <= all
    ensures r != [] ==> Last(r).block <= block
  {
    if all == [] || Last(all).block <= block then all else At(Front(all), block)
  }

  /** Where the chain splits at a block. */
  lemma {:induction false} AtSplits(all: seq<ChainInput>, block: nat, i: nat)
    requires i < |all| && forall i, j | 0 <= i < j < |all| :: all[i].block <= all[j].block
    ensures i < |At(all, block)| <==> all[i].block <= block
  {
    if Last(all).block > block && i < |all| - 1 {
      AtSplits(Front(all), block, i);
    }
  }

  function FollowBlocks(c: Config, d: Context, all: seq<ChainInput>, blocks: seq<nat>): Option<Context>
  {
    if blocks == [] then Some(d)
    else
      match FollowBlocks(c, d, all, Front(blocks))
      case None => None
      case Some(d1) => React(c, d1, At(all, Last(blocks)), Last(blocks))
  }

  lemma {:induction false} AtGrows(all: seq<ChainInput>, before: nat, block: nat)
    requires before <= block
    ensures At(all, before) <= At(all, block)
  {
    if all != [] && Last(all).block > block {
      AtGrows(Front(all), before, block);
    }
  }

  /** The inputs that the next block adds come after the last block. */
  lemma {:induction false} NewInputs(
      c: Config, all: seq<ChainInput>, before: nat, block: nat)
    returns (more: seq<ChainInput>)
    requires Chain(c, all) && before <= block
    ensures At(all, block) == At(all, before) + more && Chain(c, more)
    ensures more != [] ==> before < more[0].block && Last(more).block <= block
  {
    AtGrows(all, before, block);
    var n, box := |At(all, before)|, At(all, block);
    more := box[n..];
    ChainPrefix(c, box, all);
    ChainSuffix(c, box, n);
    if n < |box| {
      assert box[n] == all[n];
      AtSplits(all, before, n);
    }
  }

  /** Reacting to a block that adds the inputs `more`. */
  lemma {:induction false} ReactTracks(
      c: Config, d: Context, sent: seq<ChainInput>, epoch: nat, more: seq<ChainInput>, block: nat)
    requires Tracks(c, d, sent, epoch) && Chain(c, more) && c.genesisBlock <= block && epoch <= Epoch(c, block)
    requires more != [] ==> epoch <= Epoch(c, more[0].block) && Last(more).block <= block
    ensures var r := React(c, d, sent + more, block);
            r.Some? && Tracks(c, r.value, sent + more, Epoch(c, block))
  {
    assert (sent + more)[|sent|..] == more;
    EnqueueAllTracks(c, d, sent, epoch, more);
    var reached := epoch;
    if more != [] {
      EpochMonotone(c, Last(more).block, block);
      reached := Epoch(c, Last(more).block);
    }
    FinishTracks(c, EnqueueAll(c, d, more).value, sent + more, reached, block);
  }

  lemma {:induction false} NextBlockTracks(c: Config, d: Context, all: seq<ChainInput>, before: nat, block: nat)
    requires Chain(c, all) && c.genesisBlock <= before <= block
    requires Tracks(c, d, At(all, before), Epoch(c, before))
    ensures var r := React(c, d, At(all, block), block);
            r.Some? && Tracks(c, r.value, At(all, block), Epoch(c, block))
  {
    var more := NewInputs(c, all, before, block);
    EpochMonotone(c, before, block);
    if more != [] {
      EpochMonotone(c, before, more[0].block);
    }
    ReactTracks(c, d, At(all, before), Epoch(c, before), more, block);
  }

  lemma {:induction false} FirstBlockTracks(c: Config, all: seq<ChainInput>, block: nat)
    requires Chain(c, all) && c.genesisBlock <= block
    ensures var r := React(c, Start(), At(all, block), block);
            r.Some? && Tracks(c, r.value, At(all, block), Epoch(c, block))
  {
    var box := At(all, block);
    ChainPrefix(c, box, all);
    assert [] + box == box;
    ReactTracks(c, Start(), [], 0, box, block);
  }

  lemma {:induction false} FollowTracks(c: Config, all: seq<ChainInput>, blocks: seq<nat>)
    requires Chain(c, all) && blocks != [] && c.genesisBlock <= blocks[0]
    requires forall i, j | 0 <= i < j < |blocks| :: blocks[i] <= blocks[j]
    ensures var r := FollowBlocks(c, Start(), all, blocks);
            r.Some? && Tracks(c, r.value, At(all, Last(blocks)), Epoch(c, Last(blocks)))
  {
    if |blocks| == 1 {
      assert Front(blocks) == [] && FollowBlocks(c, Start(), all, []) == Some(Start());
      FirstBlockTracks(c, all, blocks[0]);
    } else {
      var before := Front(blocks);
      assert before[0] == blocks[0] && Last(before) <= Last(blocks) && c.genesisBlock <= Last(before);
      FollowTracks(c, all, before);
      NextBlockTracks(c, FollowBlocks(c, Start(), all, before).value, all, Last(before), Last(blocks));
    }
  }

  /**
   Whatever blocks the dispatcher is given, as long as they do not go back, it
   never panics, and the stream holds exactly what belongs there at the last of
   them: how the blocks were batched or skipped makes no difference.
   */
  lemma {:induction false} DeliveryDoesNotMatter(c: Config, all: seq<ChainInput>, blocks: seq<nat>)
    requires Chain(c, all) && blocks != [] && c.genesisBlock <= blocks[0]
    requires forall i, j | 0 <= i < j < |blocks| :: blocks[i] <= blocks[j]
    ensures var r := FollowBlocks(c, Start(), all, blocks);
            && r.Some?
            && WellFormed(r.value.stream)
            && Data(r.value.stream) == Expected(c, At(all, Last(blocks)), Epoch(c, Last(blocks)))
  {
    FollowTracks(c, all, blocks);
  }

  // ------------------------------------------------------------------ epochs

  /** How many times the epoch changes among the first `i + 1` inputs. */
  function Changes(c: Config, inputs: seq<ChainInput>, i: nat): nat
    requires i < |inputs|
  {
    if i == 0 then 0
    else
      var changed := Epoch(c, inputs[i - 1].block) != Epoch(c, inputs[i].block);
      Changes(c, inputs, i - 1) + if changed then 1 else 0
  }

  /** Two inputs are in the same epoch of the stream if and only if they are in the same epoch of the chain. */
  lemma {:induction false} SameEpoch(c: Config, inputs: seq<ChainInput>, i: nat, j: nat)
    requires Chain(c, inputs) && i <= j < |inputs|
    ensures Changes(c, inputs, i) <= Changes(c, inputs, j)
    ensures Epoch(c, inputs[i].block) <= Epoch(c, inputs[j].block)
    ensures Changes(c, inputs, i) == Changes(c, inputs, j) <==> Epoch(c, inputs[i].block) == Epoch(c, inputs[j].block)
    decreases j
  {
    if i < j {
      SameEpoch(c, inputs, i, j - 1);
      EpochMonotone(c, inputs[j - 1].block, inputs[j].block);
    }
  }

  /** The same, with epochs of the chain as the number of whole epochs since the genesis block. */
  lemma {:induction false} SameWholeEpochs(c: Config, inputs: seq<ChainInput>, i: nat, j: nat)
    requires Chain(c, inputs) && i <= j < |inputs|
    ensures Changes(c, inputs, i) == Changes(c, inputs, j) <==> SameWholeEpoch(c, inputs[i].block, inputs[j].block)
  {
    assert inputs[i] in inputs && inputs[j] in inputs;
    SameEpoch(c, inputs, i, j);
    SameEpochIsWhole(c, inputs[i].block, inputs[j].block);
  }

  /** How many epoch ends the events hold. */
  function EpochEnds(events: seq<RollupsData>): nat {
    if events == [] then 0 else EpochEnds(Front(events)) + if Last(events).FinishEpoch? then 1 else 0
  }

  lemma {:induction false} ChangesStable(c: Config, inputs: seq<ChainInput>, more: seq<ChainInput>, i: nat)
    requires i < |inputs|
    ensures Changes(c, inputs + more, i) == Changes(c, inputs, i)
  {
    if i > 0 {
      ChangesStable(c, inputs, more, i - 1);
    }
  }

  lemma {:induction false} EndsAppend(events: seq<RollupsData>, x: RollupsData)
    ensures EpochEnds(events + [x]) == EpochEnds(events) + if x.FinishEpoch? then 1 else 0
  {
    assert Front(events + [x]) == events;
  }

  /** How many events the inputs make, and how many of them end an epoch. */
  lemma {:induction false} EmitCounts(c: Config, inputs: seq<ChainInput>)
    requires inputs != []
    ensures var last := |inputs| - 1;
            && |Emit(c, inputs)| == |inputs| + Changes(c, inputs, last)
            && EpochEnds(Emit(c, inputs)) == Changes(c, inputs, last)
            && Last(Emit(c, inputs)) == InputData(Last(inputs), last)
            && EpochEnds(Front(Emit(c, inputs))) == Changes(c, inputs, last)
  {
    var before, x := Front(inputs), InputData(Last(inputs), |inputs| - 1);
    var emitted := Emit(c, before);
    if before == [] {
      EndsAppend([], x);
      assert Emit(c, inputs) == [] + [x] && Front([] + [x]) == [];
    } else {
      EmitCounts(c, before);
      assert inputs == before + [Last(inputs)];
      ChangesStable(c, before, [Last(inputs)], |before| - 1);
      var changed := Epoch(c, Last(before).block) != Epoch(c, Last(inputs).block);
      var ends := if changed then emitted + [RollupsData.FinishEpoch] else emitted;
      EndsAppend(emitted, RollupsData.FinishEpoch);
      EndsAppend(ends, x);
      assert Emit(c, inputs) == ends + [x] && Front(ends + [x]) == ends;
    }
  }

  /** Where input `i` is among the events, and how many epochs end before it. */
  lemma {:induction false} InputPosition(c: Config, inputs: seq<ChainInput>, i: nat)
    requires i < |inputs|
    ensures var at, events := i + Changes(c, inputs, i), Emit(c, inputs);
            && at < |events|
            && events[at] == InputData(inputs[i], i)
            && EpochEnds(events[..at]) == Changes(c, inputs, i)
  {
    var before := Front(inputs);
    if i < |before| {
      InputPosition(c, before, i);
      assert inputs == before + [Last(inputs)];
      ChangesStable(c, before, [Last(inputs)], i);
      var at := i + Changes(c, inputs, i);
      assert Emit(c, inputs)[..at] == Emit(c, before)[..at];
    } else {
      EmitCounts(c, inputs);
    }
  }

  lemma {:induction false} EndsAreFinishes(s: Inputs)
    ensures EpochEnds(Data(s)) == Finishes(s)
  {
    if s != [] {
      EndsAreFinishes(Front(s));
      assert Data(Front(s)) == Front(Data(s));
    }
  }

  /** In the stream, input `i` carries index `i` and the number of epoch changes before it. */
  lemma {:induction false} StreamEpochs(c: Config, s: Inputs, inputs: seq<ChainInput>, epoch: nat, i: nat)
    requires WellFormed(s) && Data(s) == Expected(c, inputs, epoch) && i < |inputs|
    ensures var at := i + Changes(c, inputs, i);
            && at < |s|
            && s[at].payload.data == InputData(inputs[i], i)
            && s[at].payload.epochIndex == Changes(c, inputs, i)
  {
    InputPosition(c, inputs, i);
    var at := i + Changes(c, inputs, i);
    assert Data(s)[at] == Emit(c, inputs)[at];
    assert Data(s[..at]) == Emit(c, inputs)[..at] by {
      forall k | 0 <= k < at ensures Data(s[..at])[k] == Emit(c, inputs)[k] {
        assert Data(s)[k] == Expected(c, inputs, epoch)[k];
      }
    }
    EndsAreFinishes(s[..at]);
    assert Linked(s, at);
  }

  /** The event of input `i` carries the input as the chain has it, and the number of inputs before it. */
  lemma {:induction false} StreamTellsInputs(c: Config, s: Inputs, inputs: seq<ChainInput>, epoch: nat, i: nat)
    requires WellFormed(s) && Data(s) == Expected(c, inputs, epoch) && i < |inputs|
    ensures var at := i + Changes(c, inputs, i);
            && at < |s| && s[at].payload.data.Advance?
            && var sent := s[at].payload.data.input;
               && sent.payload == inputs[i].payload
               && sent.txHash == inputs[i].txHash
               && sent.metadata.msgSender == inputs[i].sender
               && sent.metadata.blockNumber == inputs[i].block
               && sent.metadata.timestamp == inputs[i].timestamp
               && sent.metadata.epochIndex == 0
               && sent.metadata.inputIndex == i
  {
    StreamEpochs(c, s, inputs, epoch, i);
  }

  /**
   The epoch of the last input is ended if and only if the chain has reached a
   block of a later epoch; all epochs before it are.
   */
  lemma {:induction false} LastEpochEnds(c: Config, inputs: seq<ChainInput>, block: nat)
    requires inputs != [] && c.genesisBlock <= Last(inputs).block <= block
    ensures var ended := (Last(inputs).block - c.genesisBlock) / c.epochLength < (block - c.genesisBlock) / c.epochLength;
            && EpochEnds(Expected(c, inputs, Epoch(c, block)))
               == Changes(c, inputs, |inputs| - 1) + (if ended then 1 else 0)
            && (Last(Expected(c, inputs, Epoch(c, block))).FinishEpoch? <==> ended)
  {
    var events := Emit(c, inputs);
    EmitCounts(c, inputs);
    EpochIsDivision(c, Last(inputs).block);
    EpochIsDivision(c, block);
    EndsAppend(events, RollupsData.FinishEpoch);
    assert events + [] == events;
  }

  /** The inputs before input `i` in the stream are the first `i` inputs. */
  lemma {:induction false} InputIndex(c: Config, s: Inputs, inputs: seq<ChainInput>, epoch: nat, i: nat)
    requires WellFormed(s) && Data(s) == Expected(c, inputs, epoch) && i < |inputs|
    ensures i + Changes(c, inputs, i) < |s|
    ensures Advances(s[..i + Changes(c, inputs, i)]) == i
  {
    StreamEpochs(c, s, inputs, epoch, i);
    var at := i + Changes(c, inputs, i);
    assert Linked(s, at);
    EventsAreInputsAndEnds(s[..at]);
  }

  lemma {:induction false} EventsAreInputsAndEnds(s: Inputs)
    ensures Advances(s) + Finishes(s) == |s|
  {
    if s != [] {
      EventsAreInputsAndEnds(Front(s));
    }
  }

  /** Every input among the events carries the number of inputs before it. */
  lemma {:induction false} EmitNumbers(c: Config, inputs: seq<ChainInput>, i: nat)
    requires i < |Emit(c, inputs)| && Emit(c, inputs)[i].Advance?
    ensures Emit(c, inputs)[i].input.metadata.inputIndex == i - EpochEnds(Emit(c, inputs)[..i])
  {
    var before, events := Front(inputs), Emit(c, inputs);
    if i < |Emit(c, before)| {
      EmitNumbers(c, before, i);
      assert events[..i] == Emit(c, before)[..i];
    } else {
      EmitCounts(c, inputs);
      assert i == |events| - 1;
    }
  }

  /** And so does every input in the stream. */
  lemma {:induction false} StreamNumbers(c: Config, s: Inputs, inputs: seq<ChainInput>, epoch: nat, i: nat)
    requires Data(s) == Expected(c, inputs, epoch)
    requires i < |s| && s[i].payload.data.Advance?
    ensures s[i].payload.data.input.metadata.inputIndex == Advances(s[..i])
  {
    var events := Emit(c, inputs);
    assert Data(s)[i] == s[i].payload.data;
    assert i < |events|;
    EmitNumbers(c, inputs, i);
    assert Data(s[..i]) == events[..i] by {
      forall k | 0 <= k < i ensures Data(s[..i])[k] == events[k] {
        assert Data(s)[k] == Expected(c, inputs, epoch)[k];
      }
    }
    EndsAreFinishes(s[..i]);
    EventsAreInputsAndEnds(s[..i]);
  }
}
