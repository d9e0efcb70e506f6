/** The inputs of an application, read from the chain at once or block by block. */
module InputBox {
  import opened Common

  type Address = Bytes

  datatype LogMeta = LogMeta(blockHash: Bytes, blockNumber: nat, transactionHash: Bytes)

  /** `signature` and `dapp` are the two topics of an `InputAdded` event. */
  datatype Log = Log(address: Address, signature: Bytes, dapp: Address, sender: Address, input: Bytes, meta: LogMeta)

  datatype BloomItem = AddressItem(address: Address) | TopicItem(topic: Bytes)

  datatype Header = Header(hash: Bytes, number: nat, timestamp: nat)

  /** `bloom` tells what may be in the logs. */
  datatype Block = Block(header: Header, bloom: BloomItem -> bool, logs: seq<Log>)

  datatype Input = Input(sender: Address, payload: Bytes, blockAdded: Header, dapp: Address, txHash: Bytes)

  type InputBoxes = map<Address, seq<Input>>

  datatype Config = Config(dapp: Address, inputBox: Address, signature: Bytes)

  datatype FoldableError = QueryBlock(blockHash: Bytes) | HashMismatch | NumberMismatch

  type Fetched = Result<seq<Input>, FoldableError>

  type State = Result<InputBoxes, FoldableError>

  /** The answers to queries for a block by its hash. */
  type Lookup = Bytes -> Option<Header>

  function BuildInput(lookup: Lookup, log: Log): Result<Input, FoldableError> {
    match lookup(log.meta.blockHash)
    case None => Err(QueryBlock(log.meta.blockHash))
    case Some(block) =>
      if log.meta.blockHash != block.hash then Err(HashMismatch)
      else if log.meta.blockNumber != block.number then Err(NumberMismatch)
      else Ok(Input(log.sender, log.input, block, log.dapp, log.meta.transactionHash))
  }

  predicate Matches(c: Config, log: Log) {
    log.address == c.inputBox && log.signature == c.signature && log.dapp == c.dapp
  }

  /** The logs that a query for the events of the application finds. */
  function Matching(c: Config, logs: seq<Log>): seq<Log> {
    if logs == [] then []
    else
      var last := if Matches(c, Last(logs)) then [Last(logs)] else [];
      Matching(c, Front(logs)) + last
  }

  function Found(c: Config, blocks: seq<Block>): seq<Log> {
    if blocks == [] then [] else Found(c, Front(blocks)) + Matching(c, Last(blocks).logs)
  }

  /** The inputs of the logs, or the first error. */
  function Inputs(lookup: Lookup, logs: seq<Log>): Fetched {
    if logs == [] then Ok([])
    else
      match Inputs(lookup, Front(logs))
      case Err(e) => Err(e)
      case Ok(inputs) =>
        match BuildInput(lookup, Last(logs))
        case Err(e) => Err(e)
        case Ok(input) => Ok(inputs + [input])
  }

  function Push(boxes: InputBoxes, input: Input): InputBoxes {
    boxes[input.dapp := Boxed(boxes, input.dapp) + [input]]
  }

  function PushAll(boxes: InputBoxes, inputs: seq<Input>): InputBoxes {
    if inputs == [] then boxes else Push(PushAll(boxes, Front(inputs)), Last(inputs))
  }

  function Updated(lookup: Lookup, boxes: InputBoxes, logs: seq<Log>): State {
    match Inputs(lookup, logs)
    case Err(e) => Err(e)
    case Ok(inputs) => Ok(PushAll(boxes, inputs))
  }

  /** Read everything up to the last of the blocks. */
  function Sync(lookup: Lookup, c: Config, blocks: seq<Block>): State {
    Updated(lookup, map[], Found(c, blocks))
  }

  /** The bloom filter says that no event of the application is in the block. */
  predicate Skips(c: Config, block: Block) {
    !block.bloom(AddressItem(c.inputBox)) || !block.bloom(TopicItem(c.dapp)) || !block.bloom(TopicItem(c.signature))
  }

  /** Read one more block. */
  function Fold(lookup: Lookup, c: Config, boxes: InputBoxes, block: Block): State {
    if Skips(c, block) then Ok(boxes) else Updated(lookup, boxes, Matching(c, block.logs))
  }

  function FoldAll(lookup: Lookup, c: Config, state: State, blocks: seq<Block>): State {
    if blocks == [] then state
    else
      match FoldAll(lookup, c, state, Front(blocks))
      case Err(e) => Err(e)
      case Ok(boxes) => Fold(lookup, c, boxes, Last(blocks))
  }

  // ------------------------------------------------------------------ loops

  method FetchAllNewInputs(lookup: Lookup, c: Config, logs: seq<Log>) returns (r: Fetched)
    ensures r == Inputs(lookup, Matching(c, logs))
  {
    var events := Matching(c, logs);
    var inputs: seq<Input> := [];
    for i := 0 to |events|
      invariant Inputs(lookup, events[..i]) == Ok(inputs)
    {
      var input := BuildInput(lookup, events[i]);
      assert Front(events[..i + 1]) == events[..i] && Last(events[..i + 1]) == events[i];
      if input.Err? {
        FirstErrorStays(lookup, events, i + 1);
        return Err(input.error);
      }
      inputs := inputs + [input.value];
    }
    assert events[..|events|] == events;
    return Ok(inputs);
  }

  method UpdatedInputs(lookup: Lookup, c: Config, previous: Option<InputBoxes>, logs: seq<Log>) returns (r: State)
    ensures r == Updated(lookup, if previous.Some? then previous.value else map[], Matching(c, logs))
  {
    var boxes: InputBoxes := if previous.Some? then previous.value else map[];
    var fetched := FetchAllNewInputs(lookup, c, logs);
    if fetched.Err? {
      return Err(fetched.error);
    }
    var inputs := fetched.value;
    ghost var before := boxes;
    for i := 0 to |inputs|
      invariant boxes == PushAll(before, inputs[..i])
    {
      var input := inputs[i];
      assert Front(inputs[..i + 1]) == inputs[..i] && Last(inputs[..i + 1]) == input;
      if input.dapp in boxes {
        boxes := boxes[input.dapp := boxes[input.dapp] + [input]];
      } else {
        boxes := boxes[input.dapp := [input]];
        assert [] + [input] == [input];
      }
    }
    assert inputs[..|inputs|] == inputs;
    return Ok(boxes);
  }

  lemma {:induction false} FirstErrorStays(lookup: Lookup, logs: seq<Log>, n: nat)
    requires n <= |logs| && Inputs(lookup, logs[..n]).Err?
    ensures Inputs(lookup, logs) == Inputs(lookup, logs[..n])
    decreases |logs|
  {
    if n < |logs| {
      assert Front(logs)[..n] == logs[..n];
      FirstErrorStays(lookup, Front(logs), n);
    } else {
      assert logs[..n] == logs;
    }
  }

  // ------------------------------------------------------------------ fold agrees with sync

  lemma {:induction false} InputsSplit(lookup: Lookup, a: seq<Log>, b: seq<Log>)
    ensures Inputs(lookup, a).Err? ==> Inputs(lookup, a + b) == Inputs(lookup, a)
    ensures Inputs(lookup, a).Ok? && Inputs(lookup, b).Err? ==> Inputs(lookup, a + b) == Inputs(lookup, b)
    ensures Inputs(lookup, a).Ok? && Inputs(lookup, b).Ok? ==>
              Inputs(lookup, a + b) == Ok(Inputs(lookup, a).value + Inputs(lookup, b).value)
  {
    if b == [] {
      assert a + b == a;
      if Inputs(lookup, a).Ok? {
        assert Inputs(lookup, a).value + [] == Inputs(lookup, a).value;
      }
    } else {
      InputsSplit(lookup, a, Front(b));
      assert Front(a + b) == a + Front(b);
      if Inputs(lookup, a).Ok? && Inputs(lookup, b).Ok? {
        var x, y, z := Inputs(lookup, a).value, Inputs(lookup, Front(b)).value, BuildInput(lookup, Last(b)).value;
        assert x + y + [z] == x + (y + [z]);
      }
    }
  }

  lemma {:induction false} PushAllSplit(boxes: InputBoxes, a: seq<Input>, b: seq<Input>)
    ensures PushAll(boxes, a + b) == PushAll(PushAll(boxes, a), b)
  {
    if b == [] {
      assert a + b == a;
    } else {
      PushAllSplit(boxes, a, Front(b));
      assert Front(a + b) == a + Front(b);
    }
  }

  lemma {:induction false} UpdatedSplit(lookup: Lookup, boxes: InputBoxes, a: seq<Log>, b: seq<Log>)
    ensures Updated(lookup, boxes, a + b)
            == match Updated(lookup, boxes, a) case Err(e) => Err(e) case Ok(boxes') => Updated(lookup, boxes', b)
  {
    InputsSplit(lookup, a, b);
    if Inputs(lookup, a).Ok? && Inputs(lookup, b).Ok? {
      PushAllSplit(boxes, Inputs(lookup, a).value, Inputs(lookup, b).value);
    }
  }

  /** What is in the logs is in the bloom filter. */
  ghost predicate NoFalseNegatives(block: Block) {
    forall log | log in block.logs ::
      && block.bloom(AddressItem(log.address))
      && block.bloom(TopicItem(log.signature))
      && block.bloom(TopicItem(log.dapp))
  }

  lemma {:induction false} MatchingIsIn(c: Config, logs: seq<Log>)
    ensures forall log :: log in Matching(c, logs) <==> log in logs && Matches(c, log)
  {
    if logs != [] {
      MatchingIsIn(c, Front(logs));
      assert logs == Front(logs) + [Last(logs)];
    }
  }

  function Boxed(boxes: InputBoxes, dapp: Address): seq<Input> {
    if dapp in boxes then boxes[dapp] else []
  }

  lemma {:induction false} PushAllAdds(boxes: InputBoxes, inputs: seq<Input>, dapp: Address)
    requires inputs != [] && forall input | input in inputs :: input.dapp == dapp
    ensures PushAll(boxes, inputs) == boxes[dapp := Boxed(boxes, dapp) + inputs]
  {
    var front, last := Front(inputs), Last(inputs);
    assert last in inputs && forall input | input in front :: input in inputs;
    if front == [] {
      assert inputs == [last];
    } else {
      PushAllAdds(boxes, front, dapp);
      var pushed := Boxed(boxes, dapp) + front;
      assert boxes[dapp := pushed][dapp := pushed + [last]] == boxes[dapp := pushed + [last]];
      assert pushed + [last] == Boxed(boxes, dapp) + inputs;
    }
  }

  lemma {:induction false} InputsAreOfDapp(lookup: Lookup, c: Config, logs: seq<Log>)
    requires Inputs(lookup, logs).Ok? && forall log | log in logs :: Matches(c, log)
    ensures |Inputs(lookup, logs).value| == |logs|
    ensures forall input | input in Inputs(lookup, logs).value :: input.dapp == c.dapp
  {
    if logs != [] {
      InputsAreOfDapp(lookup, c, Front(logs));
      assert Last(logs) in logs && forall log | log in Front(logs) :: log in logs;
    }
  }

  /** The block of the log is known under its hash and has its number. */
  predicate Consistent(lookup: Lookup, log: Log) {
    var block := lookup(log.meta.blockHash);
    block.Some? && block.value.hash == log.meta.blockHash && block.value.number == log.meta.blockNumber
  }

  /** Reading succeeds if and only if every log is consistent with its block. */
  lemma {:induction false} ReadsIffConsistent(lookup: Lookup, logs: seq<Log>)
    ensures Inputs(lookup, logs).Ok? <==> forall log | log in logs :: Consistent(lookup, log)
  {
    if logs != [] {
      ReadsIffConsistent(lookup, Front(logs));
      assert Last(logs) in logs && forall log | log in Front(logs) :: log in logs;
      assert logs == Front(logs) + [Last(logs)];
      assert BuildInput(lookup, Last(logs)).Ok? <==> Consistent(lookup, Last(logs));
    }
  }

  /** An error is about a log, and tells what is wrong with its block; all logs before it were read. */
  lemma {:induction false} ErrorNamesBlock(lookup: Lookup, logs: seq<Log>) returns (k: nat)
    requires Inputs(lookup, logs).Err?
    ensures k < |logs| && forall i | 0 <= i < k :: Consistent(lookup, logs[i])
    ensures var meta, e := logs[k].meta, Inputs(lookup, logs).error;
            match lookup(meta.blockHash)
            case None => e == QueryBlock(meta.blockHash)
            case Some(block) =>
              if block.hash != meta.blockHash then e == HashMismatch
              else block.number != meta.blockNumber && e == NumberMismatch
  {
    if Inputs(lookup, Front(logs)).Err? {
      k := ErrorNamesBlock(lookup, Front(logs));
    } else {
      k := |logs| - 1;
      ReadsIffConsistent(lookup, Front(logs));
      forall i | 0 <= i < k ensures Consistent(lookup, logs[i]) {
        assert Front(logs)[i] in Front(logs);
      }
    }
  }

  /** Each input then tells its own log. */
  lemma {:induction false} InputTellsLog(lookup: Lookup, logs: seq<Log>, k: nat)
    requires Inputs(lookup, logs).Ok? && k < |logs|
    ensures |Inputs(lookup, logs).value| == |logs|
    ensures var input, log := Inputs(lookup, logs).value[k], logs[k];
            && (input.sender, input.dapp, input.payload) == (log.sender, log.dapp, log.input)
            && LogMeta(input.blockAdded.hash, input.blockAdded.number, input.txHash) == log.meta
            && Some(input.blockAdded) == lookup(log.meta.blockHash)
  {
    var front := Front(logs);
    if front != [] {
      InputTellsLog(lookup, front, if k < |front| then k else 0);
    }
  }

  /** A log is found if and only if it is an event of the application, and logs are found in their order. */
  lemma {:induction false} FindsInOrder(c: Config, before: seq<Log>, log: Log, after: seq<Log>)
    ensures Matching(c, before + [log] + after)
         == Matching(c, before)
            + (if log.address == c.inputBox && log.signature == c.signature && log.dapp == c.dapp then [log] else [])
            + Matching(c, after)
  {
    if after == [] {
      assert before + [log] + after == before + [log] && Front(before + [log]) == before;
      Units(Matching(c, before + [log]));
    } else {
      var all := before + [log] + after;
      FindsInOrder(c, before, log, Front(after));
      assert Front(all) == before + [log] + Front(after) && Last(all) == Last(after);
    }
  }

  function AllLogs(blocks: seq<Block>): seq<Log> {
    if blocks == [] then [] else AllLogs(Front(blocks)) + Last(blocks).logs
  }

  lemma {:induction false} MatchingSplit(c: Config, a: seq<Log>, b: seq<Log>)
    ensures Matching(c, a + b) == Matching(c, a) + Matching(c, b)
  {
    if b == [] {
      assert a + b == a;
    } else {
      MatchingSplit(c, a, Front(b));
      assert Front(a + b) == a + Front(b);
    }
  }

  /** What is found in the blocks is what is found in all their logs, one block after the other. */
  lemma {:induction false} FindsBlockByBlock(c: Config, blocks: seq<Block>)
    ensures Found(c, blocks) == Matching(c, AllLogs(blocks))
  {
    if blocks != [] {
      FindsBlockByBlock(c, Front(blocks));
      MatchingSplit(c, AllLogs(Front(blocks)), Last(blocks).logs);
    }
  }

  /** Reading at once gives one box, with the inputs of all the events in order. */
  lemma {:induction false} SyncHoldsAllInputs(lookup: Lookup, c: Config, blocks: seq<Block>)
    requires Sync(lookup, c, blocks).Ok?
    ensures Inputs(lookup, Found(c, blocks)).Ok?
    ensures Sync(lookup, c, blocks).value
            == if Found(c, blocks) == [] then map[] else map[c.dapp := Inputs(lookup, Found(c, blocks)).value]
  {
    FoundMatches(c, blocks);
    InputsAreOfDapp(lookup, c, Found(c, blocks));
    var inputs := Inputs(lookup, Found(c, blocks)).value;
    if inputs != [] {
      PushAllAdds(map[], inputs, c.dapp);
      assert [] + inputs == inputs;
    }
  }

  lemma {:induction false} FoundMatches(c: Config, blocks: seq<Block>)
    ensures forall log | log in Found(c, blocks) :: Matches(c, log)
  {
    if blocks != [] {
      FoundMatches(c, Front(blocks));
      MatchingIsIn(c, Last(blocks).logs);
    }
  }

  /** A block that can be read is skipped rightly if and only if it holds no event of the application. */
  lemma {:induction false} SkipIsRightIff(lookup: Lookup, c: Config, boxes: InputBoxes, block: Block)
    requires Inputs(lookup, Matching(c, block.logs)).Ok?
    ensures Fold(lookup, c, boxes, block) == Updated(lookup, boxes, Matching(c, block.logs))
            <==> !Skips(c, block) || Matching(c, block.logs) == []
  {
    var logs := Matching(c, block.logs);
    MatchingIsIn(c, block.logs);
    InputsAreOfDapp(lookup, c, logs);
    if logs != [] {
      PushAllAdds(boxes, Inputs(lookup, logs).value, c.dapp);
    }
  }

  lemma {:induction false} BlockWithEventsIsRead(c: Config, block: Block)
    requires NoFalseNegatives(block)
    ensures Matching(c, block.logs) != [] ==> !Skips(c, block)
  {
    var logs := Matching(c, block.logs);
    MatchingIsIn(c, block.logs);
    if logs != [] {
      assert logs[0] in logs;
    }
  }

  /**
   For every chain and every split point, folding the remaining blocks one at a
   time from the synced state equals syncing the whole chain, errors included.
   */
  lemma {:induction false} FoldAgreesWithSync(lookup: Lookup, c: Config, synced: seq<Block>, rest: seq<Block>)
    requires forall block | block in rest :: NoFalseNegatives(block)
    ensures FoldAll(lookup, c, Sync(lookup, c, synced), rest) == Sync(lookup, c, synced + rest)
  {
    if rest == [] {
      assert synced + rest == synced;
    } else {
      var block := Last(rest);
      FoldAgreesWithSync(lookup, c, synced, Front(rest));
      assert Front(synced + rest) == synced + Front(rest);
      var found, more := Found(c, synced + Front(rest)), Matching(c, block.logs);
      assert Found(c, synced + rest) == found + more;
      UpdatedSplit(lookup, map[], found, more);
      assert block in rest;
      BlockWithEventsIsRead(c, block);
    }
  }
}
