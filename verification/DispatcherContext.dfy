/** The dispatcher's context as an object updated in place, proved against Dispatcher. */
module DispatcherContext {
  import opened Common
  import opened Streams
  import opened RollupsEvents
  import opened InputsStream
  import D = Dispatcher

  class Context {
    const config: D.Config
    var inputsSent: nat
    var lastInputEpoch: Option<nat>
    var lastFinishedEpoch: Option<nat>
    var stream: Inputs

    function View(): D.Context
      reads this
    {
      D.Context(inputsSent, lastInputEpoch, lastFinishedEpoch, stream)
    }

    constructor (config: D.Config)
      ensures this.config == config && View() == D.Start()
    {
      this.config := config;
      inputsSent, lastInputEpoch, lastFinishedEpoch, stream := 0, None, None, [];
    }

    /** Append an event to the broker's stream. */
    method Enqueue(data: RollupsData)
      modifies this`stream
      ensures stream == Produce(old(stream), config.gaps(old(|stream|)), data)
    {
      var status := Status(stream);
      stream := Append(stream, config.gaps(|stream|), NextEvent(status, data));
    }

    method FinishEpochIfNeeded(block: nat)
      requires D.FinishEpochIfNeeded(config, View(), block).Some?
      modifies this`stream, this`lastFinishedEpoch
      ensures D.FinishEpochIfNeeded(config, old(View()), block) == Some(View())
    {
      assert block >= config.genesisBlock;
      if lastFinishedEpoch == lastInputEpoch {
        return;
      }
      var epoch := D.Epoch(config, block);
      if epoch == lastInputEpoch.value {
        return;
      }
      if epoch > (if lastFinishedEpoch.Some? then lastFinishedEpoch.value else 0) {
        assert lastFinishedEpoch.Some? ==> lastInputEpoch.value > lastFinishedEpoch.value;
        assert Status(stream).sent == inputsSent;
        Enqueue(RollupsData.FinishEpoch);
        lastFinishedEpoch := lastInputEpoch;
      }
    }

    method EnqueueInput(input: D.ChainInput)
      requires D.EnqueueInput(config, View(), input).Some?
      modifies this
      ensures D.EnqueueInput(config, old(View()), input) == Some(View())
      ensures stream != [] && Last(stream).payload.data.Advance?
      ensures var sent := Last(stream).payload.data.input;
              && sent.payload == input.payload && sent.txHash == input.txHash
              && sent.metadata == InputMetadata(input.sender, input.block, input.timestamp, 0, old(inputsSent))
    {
      FinishEpochIfNeeded(input.block);
      assert Status(stream).sent == inputsSent;
      Enqueue(D.InputData(input, inputsSent));
      inputsSent := inputsSent + 1;
      var epoch := D.Epoch(config, input.block);
      assert lastFinishedEpoch.Some? ==> epoch > lastFinishedEpoch.value;
      lastInputEpoch := Some(epoch);
    }

    /** Send the inputs that were not sent yet. */
    method ProcessInputs(box: seq<D.ChainInput>)
      requires inputsSent <= |box| && D.EnqueueAll(config, View(), box[inputsSent..]).Some?
      modifies this
      ensures D.EnqueueAll(config, old(View()), box[old(inputsSent)..]) == Some(View())
    {
      var more := box[inputsSent..];
      ghost var before := View();
      for i := 0 to |more|
        invariant D.EnqueueAll(config, before, more[..i]) == Some(View())
      {
        assert Front(more[..i + 1]) == more[..i] && Last(more[..i + 1]) == more[i];
        AllPrefixesSucceed(config, before, more, i + 1);
        EnqueueInput(more[i]);
      }
      assert more[..|more|] == more;
    }

    /** React to a block: send the new inputs, then end the epoch if the chain left it. */
    method React(box: seq<D.ChainInput>, block: nat)
      requires inputsSent <= |box| && D.React(config, View(), box, block).Some?
      modifies this
      ensures D.React(config, old(View()), box, block) == Some(View())
    {
      ProcessInputs(box);
      FinishEpochIfNeeded(block);
    }
  }

  lemma {:induction false} AllPrefixesSucceed(c: D.Config, d: D.Context, inputs: seq<D.ChainInput>, n: nat)
    requires n <= |inputs| && D.EnqueueAll(c, d, inputs).Some?
    ensures D.EnqueueAll(c, d, inputs[..n]).Some?
  {
    if n == |inputs| {
      assert inputs[..n] == inputs;
    } else {
      AllPrefixesSucceed(c, d, Front(inputs), n);
      assert Front(inputs)[..n] == inputs[..n];
    }
  }
}
