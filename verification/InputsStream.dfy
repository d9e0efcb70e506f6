/** The rollups-inputs stream: the rule that extends it, and what every such stream satisfies. */
module InputsStream {
  import opened Common
  import opened Streams
  import opened RollupsEvents

  type Inputs = seq<Event<RollupsInput>>

  /** What the producer reads from the latest event before it produces the next one. */
  datatype StreamStatus = StreamStatus(id: nat, epoch: nat, sent: nat)

  function Status(s: Inputs): StreamStatus {
    if s == [] then StreamStatus(INITIAL_ID, 0, 0)
    else
      var last := Last(s);
      var epoch := match last.payload.data
        case Advance(_) => last.payload.epochIndex
        case FinishEpoch => last.payload.epochIndex + 1;
      StreamStatus(last.id, epoch, last.payload.inputsSentCount)
  }

  function NextEvent(status: StreamStatus, data: RollupsData): RollupsInput {
    RollupsInput(status.id, status.epoch, status.sent + (if data.Advance? then 1 else 0), data)
  }

  function Produce(s: Inputs, gap: nat, data: RollupsData): Inputs {
    Append(s, gap, NextEvent(Status(s), data))
  }

  // ------------------------------------------------------------------ the invariant

  /** How many inputs the events carry. */
  function Advances(s: Inputs): nat {
    if s == [] then 0 else Advances(Front(s)) + if Last(s).payload.data.Advance? then 1 else 0
  }

  lemma {:induction false} AdvancesGrow(s: seq<Event<RollupsInput>>, n: nat, m: nat)
    requires n <= m <= |s|
    ensures Advances(s[..n]) <= Advances(s[..m])
    decreases m
  {
    if n < m {
      AdvancesGrow(s, n, m - 1);
      assert Front(s[..m]) == s[..m - 1];
    }
  }

  /** How many epochs the events finish. */
  function Finishes(s: Inputs): nat {
    if s == [] then 0 else Finishes(Front(s)) + if Last(s).payload.data.FinishEpoch? then 1 else 0
  }

  /** Event `n` names its parent, its epoch and the number of inputs sent up to it. */
  ghost predicate Linked(s: Inputs, n: nat)
    requires n < |s|
  {
    && s[n].payload.parentId == LastId(s[..n])
    && s[n].payload.epochIndex == Finishes(s[..n])
    && s[n].payload.inputsSentCount == Advances(s[..n + 1])
  }

  ghost predicate WellFormed(s: Inputs) {
    Increasing(s) && forall n: nat | n < |s| :: Linked(s, n)
  }

  /** On a well-formed stream the producer reads the true totals. */
  lemma {:induction false} StatusIsTrue(s: Inputs)
    requires WellFormed(s)
    ensures Status(s) == StreamStatus(LastId(s), Finishes(s), Advances(s))
  {
    if s != [] {
      assert Linked(s, |s| - 1);
      assert s[..|s| - 1 + 1] == s;
    }
  }

  lemma {:induction false} OldEventsStayLinked(s: Inputs, s': Inputs, n: nat)
    requires n < |s| && s <= s' && Linked(s, n)
    ensures Linked(s', n)
  {
    assert s'[..n] == s[..n] && s'[..n + 1] == s[..n + 1];
  }

  lemma {:induction false} NewEventIsLinked(s: Inputs, gap: nat, data: RollupsData)
    requires WellFormed(s)
    ensures Linked(Produce(s, gap, data), |s|)
  {
    var s' := Produce(s, gap, data);
    StatusIsTrue(s);
    assert s'[..|s|] == s && s'[..|s| + 1] == s' && Front(s') == s;
  }

  lemma {:induction false} ProducedWellFormed(s: Inputs, gap: nat, data: RollupsData)
    requires WellFormed(s)
    ensures WellFormed(Produce(s, gap, data))
  {
    var s' := Produce(s, gap, data);
    AppendIncreasing(s, gap, NextEvent(Status(s), data));
    forall n: nat | n < |s'| ensures Linked(s', n) {
      if n < |s| {
        OldEventsStayLinked(s, s', n);
      } else {
        NewEventIsLinked(s, gap, data);
      }
    }
  }

  function ProduceAll(gaps: nat -> nat, all: seq<RollupsData>): Inputs {
    if all == [] then []
    else
      var s := ProduceAll(gaps, Front(all));
      Produce(s, gaps(|s|), Last(all))
  }

  /** Every stream the producer builds is well formed. */
  lemma {:induction false} EveryStreamIsWellFormed(gaps: nat -> nat, all: seq<RollupsData>)
    ensures WellFormed(ProduceAll(gaps, all))
    ensures |ProduceAll(gaps, all)| == |all|
    ensures forall n | 0 <= n < |all| :: ProduceAll(gaps, all)[n].payload.data == all[n]
  {
    if all != [] {
      EveryStreamIsWellFormed(gaps, Front(all));
      var s := ProduceAll(gaps, Front(all));
      ProducedWellFormed(s, gaps(|s|), Last(all));
    }
  }

  /**
   A consumer that has followed `n` events of a well-formed stream is given event
   `n`, whose parent is the event it saw last. The index that the runner computes
   for an input never underflows and counts the inputs from zero.
   */
  lemma {:induction false} ConsumedInOrder(s: Inputs, n: nat)
    requires WellFormed(s) && n < |s|
    ensures NextAfter(s, LastId(s[..n])) == Some(s[n])
    ensures s[n].payload.parentId == LastId(s[..n])
    ensures LastId(s[..n + 1]) == s[n].id
    ensures s[n].payload.epochIndex == Finishes(s[..n])
    ensures s[n].payload.data.Advance? ==>
              s[n].payload.inputsSentCount > 0 && s[n].payload.inputsSentCount - 1 == Advances(s[..n])
  {
    ReadsInOrder(s, n);
    assert Linked(s, n);
    assert Front(s[..n + 1]) == s[..n] && Last(s[..n + 1]) == s[n];
  }
}
