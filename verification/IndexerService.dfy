/** The repository and the indexer as objects that update their fields in place. */
module IndexerService {
  import opened Common
  import opened Streams
  import opened RollupsEvents
  import opened InputsStream
  import opened Repository
  import I = Indexer

  class Tables {
    var inputs: map<int, InputRow>
    var outputs: map<Key, Row>

    constructor ()
      ensures View() == EMPTY
    {
      inputs, outputs := map[], map[];
    }

    function View(): Database
      reads this
    {
      Database(inputs, outputs)
    }

    method InsertInput(index: int, fields: InputFields)
      modifies this
      ensures Execute(old(View()), NewInput(index, fields)) == Ok(View())
    {
      if index !in inputs {
        inputs := inputs[index := InputRow(fields, Unprocessed)];
      }
    }

    method UpdateInputStatus(index: int, result: CompletionStatus)
      modifies this
      ensures Execute(old(View()), NewStatus(index, result)) == Ok(View())
    {
      if index in inputs {
        inputs := inputs[index := inputs[index].(status := Completed(result))];
      }
    }

    /** Insert a voucher, a notice, a report or a proof, according to the table of the key. */
    method InsertOutput(key: Key, row: Row) returns (r: Result<(), DatabaseError>)
      modifies this
      ensures r.Ok? ==> Execute(old(View()), NewOutput(key, row)) == Ok(View())
      ensures r.Err? ==> Execute(old(View()), NewOutput(key, row)) == Err(r.error) && View() == old(View())
    {
      if key !in outputs {
        if HasForeignKey(key.table) && key.input !in inputs {
          return Err(ForeignKeyViolation(key.input));
        }
        outputs := outputs[key := row];
      }
      return Ok(());
    }
  }

  class IndexerLoop {
    const repository: Tables
    var inputsLastId: nat
    var outputsLastId: nat

    constructor (repository: Tables)
      ensures this.repository == repository
      ensures inputsLastId == INITIAL_ID && outputsLastId == INITIAL_ID
    {
      this.repository := repository;
      inputsLastId, outputsLastId := INITIAL_ID, INITIAL_ID;
    }

    function View(inputs: Inputs, outputs: I.Outputs): I.World
      reads this, repository
    {
      I.World(inputs, outputs, inputsLastId, outputsLastId, repository.View())
    }

    /** Read both streams; an input comes before an output. */
    method Consume(inputs: Inputs, outputs: I.Outputs) returns (next: I.Next)
      modifies this
      ensures next == I.Read(old(View(inputs, outputs)))
      ensures inputsLastId == if next.InputEvent? then next.input.id else old(inputsLastId)
      ensures outputsLastId == if next.OutputEvent? then next.output.id else old(outputsLastId)
    {
      var input := NextAfter(inputs, inputsLastId);
      if input.Some? {
        inputsLastId := input.value.id;
        return I.InputEvent(input.value);
      }
      var output := NextAfter(outputs, outputsLastId);
      if output.Some? {
        outputsLastId := output.value.id;
        return I.OutputEvent(output.value);
      }
      return I.Timeout;
    }

    method StoreInput(input: RollupsInput)
      modifies repository
      ensures Execute(old(repository.View()), I.InputWrite(input)) == Ok(repository.View())
    {
      if input.data.Advance? {
        var write := I.InputWrite(input);
        repository.InsertInput(write.index, write.fields);
      }
    }

    method StoreOutput(output: RollupsOutput) returns (r: Result<(), DatabaseError>)
      modifies repository
      ensures r.Ok? ==> Execute(old(repository.View()), I.OutputWrite(output)) == Ok(repository.View())
      ensures r.Err? ==> Execute(old(repository.View()), I.OutputWrite(output)) == Err(r.error)
      ensures r.Err? ==> repository.View() == old(repository.View())
    {
      var write := I.OutputWrite(output);
      if output.AdvanceResult? {
        repository.UpdateInputStatus(write.of, write.result);
        return Ok(());
      } else {
        r := repository.InsertOutput(write.key, write.row);
      }
    }

    /** One turn of the main loop. An error ends the loop, and the next indexer begins again. */
    method Iterate(inputs: Inputs, outputs: I.Outputs) returns (r: Result<(), DatabaseError>)
      modifies this, repository
      ensures r.Ok? ==> View(inputs, outputs) == I.ConsumeStep(old(View(inputs, outputs)), true)
      ensures r.Err? ==> I.Restart(View(inputs, outputs)) == I.ConsumeStep(old(View(inputs, outputs)), true)
    {
      var next := Consume(inputs, outputs);
      match next {
        case InputEvent(e) =>
          StoreInput(e.payload);
          r := Ok(());
        case OutputEvent(e) =>
          r := StoreOutput(e.payload);
        case Timeout =>
          r := Ok(());
      }
    }
  }
}
