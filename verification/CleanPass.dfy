/** What one clean pass over the inputs is, input by input and epoch by epoch. */
module CleanPass {
  import opened Common
  import opened Conversions
  import opened RollupsEvents
  import opened InputsStream
  import opened ServerManager
  import opened Runner
  import opened RunnerProofs
  import D = Dispatcher

  /** The machine is given the same inputs by a longer stream, and then more. */
  lemma {:induction false} HistoryGrows(events: Inputs, m: nat)
    requires m <= |events|
    ensures Replay(events[..m]).history <= Replay(events).history
    ensures |Replay(events[..m]).history| == Advances(events[..m])
    decreases |events|
  {
    ReplayCounts(events[..m]);
    if m < |events| {
      HistoryGrows(Front(events), m);
      assert Front(events)[..m] == events[..m];
    } else {
      assert events[..m] == events;
    }
  }

  lemma {:induction false} HistoryUpTo(events: Inputs, m: nat)
    requires m <= |events|
    ensures Advances(events[..m]) <= |Replay(events).history|
    ensures Replay(events[..m]).history == Replay(events).history[..Advances(events[..m])]
  {
    HistoryGrows(events, m);
  }

  /** Input number `i` of the machine is the metadata and the payload of the event that carries it. */
  lemma {:induction false} HistoryTellsEvents(events: Inputs, q: nat)
    requires q < |events| && events[q].payload.data.Advance?
    ensures var i, history := Advances(events[..q]), Replay(events).history;
            && i < |history|
            && history[i].metadata == events[q].payload.data.input.metadata
            && history[i].payload == events[q].payload.data.input.payload
  {
    var upTo := events[..q + 1];
    assert Front(upTo) == events[..q] && Last(upTo) == events[q];
    ReplayCounts(events[..q]);
    HistoryGrows(events, q + 1);
  }

  /** When the dispatcher wrote the stream, the machine is given the inputs of the chain, in order. */
  lemma {:induction false} MachineSeesChain(
      config: D.Config, events: Inputs, chain: seq<D.ChainInput>, epoch: nat, i: nat)
    requires WellFormed(events) && D.Data(events) == D.Expected(config, chain, epoch) && i < |chain|
    ensures i < |Replay(events).history|
    ensures var input := Replay(events).history[i];
            && input.payload == chain[i].payload
            && input.metadata.msgSender == chain[i].sender
            && input.metadata.blockNumber == chain[i].block
            && input.metadata.timestamp == chain[i].timestamp
            && input.metadata.epochIndex == 0
            && input.metadata.inputIndex == i
  {
    D.StreamTellsInputs(config, events, chain, epoch, i);
    D.InputIndex(config, events, chain, epoch, i);
    HistoryTellsEvents(events, i + D.Changes(config, chain, i));
  }

  // ------------------------------------------------------------------ outputs

  lemma {:induction false} LastInputOutputs(setup: Setup, events: Inputs)
    requires events != [] && Last(events).payload.data.Advance?
    ensures CanonicalOutputs(setup, events)
         == CanonicalOutputs(setup, Front(events))
            + OutputsOf(Advances(Front(events)), setup.machine.process(Replay(events).history))
  {
    ReplayCounts(Front(events));
  }

  lemma {:induction false} HistoryWithInput(events: Inputs, q: nat)
    requires q < |events| && events[q].payload.data.Advance?
    ensures Advances(events[..q]) < |Replay(events).history|
    ensures Replay(events[..q + 1]).history == Replay(events).history[..Advances(events[..q]) + 1]
  {
    var upTo := events[..q + 1];
    assert Front(upTo) == events[..q] && Last(upTo) == events[q];
    assert Advances(upTo) == Advances(events[..q]) + 1;
    HistoryUpTo(events, q + 1);
  }

  /** Input number `i` adds what the machine makes of the inputs up to it. */
  lemma {:induction false} OutputsOfInput(setup: Setup, events: Inputs, q: nat)
    requires q < |events| && events[q].payload.data.Advance?
    ensures var i, history := Advances(events[..q]), Replay(events).history;
            && i < |history|
            && CanonicalOutputs(setup, events[..q + 1])
               == CanonicalOutputs(setup, events[..q]) + OutputsOf(i, setup.machine.process(history[..i + 1]))
  {
    var upTo := events[..q + 1];
    assert Front(upTo) == events[..q] && Last(upTo) == events[q];
    HistoryWithInput(events, q);
    LastInputOutputs(setup, upTo);
  }

  // ------------------------------------------------------------------ epochs

  /** What the machine answers at the end of an epoch that covers the inputs of the claim. */
  function SealedFor(setup: Setup, history: seq<MachineInput>, claim: RollupsClaim): Sealed
    requires claim.lastIndex < |history|
  {
    setup.machine.seal(history[..claim.lastIndex + 1], claim.firstIndex)
  }

  lemma {:induction false} SealedPrefix(
      setup: Setup, history: seq<MachineInput>, longer: seq<MachineInput>, claim: RollupsClaim)
    requires history <= longer && claim.lastIndex < |history|
    ensures SealedFor(setup, longer, claim) == SealedFor(setup, history, claim)
  {
    assert longer[..claim.lastIndex + 1] == history[..claim.lastIndex + 1];
  }

  /** The claim of a session is sealed by what was fed to the session. */
  lemma {:induction false} ClaimOfSession(setup: Setup, s: Session)
    requires s.first < |s.history|
    ensures SealedFor(setup, s.history, ClaimOf(setup.machine, setup.dapp, s)) == setup.machine.seal(s.history, s.first)
  {
    assert s.history[..|s.history|] == s.history;
  }

  /** The claim that the last event, an epoch end, adds. */
  lemma {:induction false} LastEpochEnd(setup: Setup, events: Inputs)
    requires events != [] && |CanonicalClaims(setup, events)| > |CanonicalClaims(setup, Front(events))|
    ensures var s := Replay(Front(events));
            && Last(events).payload.data.FinishEpoch? && s.first < |s.history|
            && CanonicalClaims(setup, events)
               == CanonicalClaims(setup, Front(events)) + [ClaimOf(setup.machine, setup.dapp, s)]
            && CanonicalOutputs(setup, events)
               == CanonicalOutputs(setup, Front(events)) + ProofsOf(setup.machine.seal(s.history, s.first))
  {
  }

  /**
   The end of an epoch with inputs adds one claim, for the inputs up to it, with the
   hash that the machine seals for them, and the proofs sealed with that hash.
   */
  lemma {:induction false} EpochEndAdds(setup: Setup, events: Inputs, q: nat)
    requires q < |events|
    requires |CanonicalClaims(setup, events[..q + 1])| > |CanonicalClaims(setup, events[..q])|
    ensures var claims := CanonicalClaims(setup, events[..q + 1]);
            && events[q].payload.data.FinishEpoch?
            && Front(claims) == CanonicalClaims(setup, events[..q])
            && Last(claims).epochIndex == Finishes(events[..q])
            && Last(claims).lastIndex + 1 == Advances(events[..q]) <= |Replay(events).history|
            && var sealed := SealedFor(setup, Replay(events).history, Last(claims));
               && Last(claims).epochHash == EpochHash(setup.machine, sealed)
               && CanonicalOutputs(setup, events[..q + 1]) == CanonicalOutputs(setup, events[..q]) + ProofsOf(sealed)
  {
    var upTo := events[..q + 1];
    assert Front(upTo) == events[..q] && Last(upTo) == events[q];
    LastEpochEnd(setup, upTo);
    var s := Replay(events[..q]);
    var claim := ClaimOf(setup.machine, setup.dapp, s);
    ReplayCounts(events[..q]);
    HistoryGrows(events, q);
    ClaimOfSession(setup, s);
    SealedPrefix(setup, s.history, Replay(events).history, claim);
  }

  /** The end of an epoch without inputs adds nothing. */
  lemma {:induction false} EmptyEpochAddsNothing(setup: Setup, events: Inputs, q: nat)
    requires q < |events| && events[q].payload.data.FinishEpoch?
    requires |CanonicalClaims(setup, events[..q + 1])| == |CanonicalClaims(setup, events[..q])|
    ensures CanonicalClaims(setup, events[..q + 1]) == CanonicalClaims(setup, events[..q])
    ensures CanonicalOutputs(setup, events[..q + 1]) == CanonicalOutputs(setup, events[..q])
  {
    var upTo := events[..q + 1];
    assert Front(upTo) == events[..q] && Last(upTo) == events[q];
  }

  /** The three hashes are there, and the epoch hash is the hash of one after the other. */
  ghost predicate HashOfSealed(machine: Machine, hash: Bytes, sealed: Sealed) {
    && IsHash(sealed.vouchersEpochRootHash) && IsHash(sealed.noticesEpochRootHash) && IsHash(sealed.machineHash)
    && hash == machine.hash(sealed.vouchersEpochRootHash.value
                            + sealed.noticesEpochRootHash.value
                            + sealed.machineHash.value)
  }

  /** The hash is the one that the machine seals, given the inputs up to `last`, for the epoch that starts at `first`. */
  ghost predicate SealedBy(machine: Machine, history: seq<MachineInput>, hash: Bytes, first: nat, last: nat) {
    last < |history| && HashOfSealed(machine, hash, machine.seal(history[..last + 1], first))
  }

  lemma {:induction false} PreimageOfHashes(machine: Machine, sealed: Sealed)
    requires EpochPreimage(sealed).Ok?
    ensures HashOfSealed(machine, EpochHash(machine, sealed), sealed)
  {
  }

  lemma {:induction false} LastEpochIsConvertible(setup: Setup, events: Inputs)
    requires events != [] && Passed(setup, events) && Last(events).payload.data.FinishEpoch?
    requires Replay(Front(events)).first < |Replay(Front(events)).history|
    ensures var s := Replay(Front(events)); EpochPreimage(setup.machine.seal(s.history, s.first)).Ok?
  {
  }

  lemma {:induction false} SessionIsSealed(setup: Setup, s: Session)
    requires s.first < |s.history| && EpochPreimage(setup.machine.seal(s.history, s.first)).Ok?
    ensures var claim := ClaimOf(setup.machine, setup.dapp, s);
            SealedBy(setup.machine, s.history, claim.epochHash, claim.firstIndex, claim.lastIndex)
  {
    ClaimOfSession(setup, s);
    PreimageOfHashes(setup.machine, setup.machine.seal(s.history, s.first));
  }

  lemma {:induction false} LastClaimIsSealed(setup: Setup, events: Inputs)
    requires events != [] && Passed(setup, events)
    requires |CanonicalClaims(setup, events)| > |CanonicalClaims(setup, Front(events))|
    ensures var claim := Last(CanonicalClaims(setup, events));
            SealedBy(setup.machine, Replay(Front(events)).history, claim.epochHash, claim.firstIndex, claim.lastIndex)
  {
    LastEpochEnd(setup, events);
    LastEpochIsConvertible(setup, events);
    SessionIsSealed(setup, Replay(Front(events)));
  }

  /** More inputs do not change what was sealed. */
  lemma {:induction false} SealedLater(
      machine: Machine, history: seq<MachineInput>, longer: seq<MachineInput>, hash: Bytes, first: nat, last: nat)
    requires SealedBy(machine, history, hash, first, last) && history <= longer
    ensures SealedBy(machine, longer, hash, first, last)
  {
    assert longer[..last + 1] == history[..last + 1];
  }

  /** The hash of every claim is the one that the machine seals for the inputs that the claim covers. */
  lemma {:induction false} ClaimsAreSealed(setup: Setup, events: Inputs, k: nat)
    requires Passed(setup, events) && k < |CanonicalClaims(setup, events)|
    ensures var claim := CanonicalClaims(setup, events)[k];
            SealedBy(setup.machine, Replay(events).history, claim.epochHash, claim.firstIndex, claim.lastIndex)
  {
    var before := Front(events);
    var claim := CanonicalClaims(setup, events)[k];
    if k < |CanonicalClaims(setup, before)| {
      ClaimsAreSealed(setup, before, k);
    } else {
      LastClaimIsSealed(setup, events);
    }
    SealedLater(setup.machine, Replay(before).history, Replay(events).history,
                claim.epochHash, claim.firstIndex, claim.lastIndex);
  }

  /** And it stays so when more inputs come. */
  lemma {:induction false} ClaimsStaySealed(setup: Setup, inputs: Inputs, high: nat, k: nat)
    requires high <= |inputs| && Passed(setup, inputs[..high]) && k < |CanonicalClaims(setup, inputs[..high])|
    ensures var claim := CanonicalClaims(setup, inputs[..high])[k];
            SealedBy(setup.machine, Replay(inputs).history, claim.epochHash, claim.firstIndex, claim.lastIndex)
  {
    var claim := CanonicalClaims(setup, inputs[..high])[k];
    ClaimsAreSealed(setup, inputs[..high], k);
    HistoryGrows(inputs, high);
    SealedLater(setup.machine, Replay(inputs[..high]).history, Replay(inputs).history,
                claim.epochHash, claim.firstIndex, claim.lastIndex);
  }
}
