/** The checker, the listener and the claimer as objects, proved against Checker and Claimer. */
module ClaimerService {
  import opened Common
  import opened Streams
  import opened RollupsEvents
  import opened Checker
  import C = Claimer

  class DuplicateChecker {
    const settings: Settings
    var claims: map<Bytes, seq<Claim>>
    var nextBlockToRead: nat

    function View(): State
      reads this
    {
      State(claims, nextBlockToRead)
    }

    constructor (settings: Settings)
      ensures this.settings == settings && View() == Fresh(settings)
    {
      this.settings := settings;
      claims, nextBlockToRead := map[], settings.genesisBlock;
    }

    /** Append new claims to the cache, each under its application. */
    method Append(newClaims: seq<HistoryEvent>)
      modifies this`claims
      ensures claims == AppendClaims(old(claims), newClaims)
    {
      for i := 0 to |newClaims|
        invariant claims == AppendClaims(old(claims), newClaims[..i])
      {
        assert Front(newClaims[..i + 1]) == newClaims[..i] && Last(newClaims[..i + 1]) == newClaims[i];
        var event := newClaims[i];
        if event.dapp in claims {
          claims := claims[event.dapp := claims[event.dapp] + [event.claim]];
        } else {
          assert [event.claim] == [] + [event.claim];
          claims := claims[event.dapp := [event.claim]];
        }
      }
      assert newClaims[..|newClaims|] == newClaims;
    }

    method UpdateClaims(log: seq<HistoryEvent>, answer: Answer) returns (r: Result<(), CheckerError>)
      modifies this
      ensures match Update(settings, old(View()), log, answer)
              case Ok(s) => r == Ok(()) && View() == s
              case Err(e) => r == Err(e) && View() == old(View())
    {
      var depth := settings.confirmations;
      if answer.NoBlockNumber? {
        return Err(ProviderError);
      }
      if depth > answer.latest {
        return Err(DepthTooHigh(depth, answer.latest));
      }
      var latest := answer.latest - depth;
      if latest < nextBlockToRead {
        return Ok(());
      }
      if answer.NoEvents? {
        return Err(ContractError);
      }
      Append(Window(log, nextBlockToRead, latest + 1));
      nextBlockToRead := latest + 1;
      return Ok(());
    }

    method IsDuplicatedRollupsClaim(log: seq<HistoryEvent>, answer: Answer, claim: RollupsClaim)
      returns (r: Result<bool, CheckerError>)
      modifies this
      ensures match Update(settings, old(View()), log, answer)
              case Ok(s) => View() == s && r == Verdict(Cached(s.cache, claim.dapp), claim.firstIndex, claim.lastIndex)
              case Err(e) => View() == old(View()) && r == Err(e)
    {
      var updated := UpdateClaims(log, answer);
      if updated.Err? {
        return Err(updated.error);
      }
      var expected := 0;
      if claim.dapp in claims && claims[claim.dapp] != [] {
        expected := (Last(claims[claim.dapp]).lastIndex + 1) % U128_SIZE;
      }
      if claim.firstIndex == expected {
        return Ok(false);
      } else if claim.lastIndex < expected {
        return Ok(true);
      }
      return Err(ClaimMismatch(expected, claim.firstIndex, claim.lastIndex));
    }
  }

  class BrokerListener {
    var lastClaimId: nat

    constructor ()
      ensures lastClaimId == INITIAL_ID
    {
      lastClaimId := INITIAL_ID;
    }

    /** Read the next claim; the caller has made sure that there is one. */
    method Listen(stream: C.Claims) returns (claim: RollupsClaim)
      requires NextAfter(stream, lastClaimId).Some?
      modifies this
      ensures NextAfter(stream, old(lastClaimId)) == Some(Event(lastClaimId, claim))
    {
      var event := NextAfter(stream, lastClaimId).value;
      lastClaimId := event.id;
      claim := event.payload;
    }
  }

  class Claimer {
    const listener: BrokerListener
    const checker: DuplicateChecker

    constructor (listener: BrokerListener, checker: DuplicateChecker)
      ensures this.listener == listener && this.checker == checker
    {
      this.listener, this.checker := listener, checker;
    }

    function View(stream: C.Claims, log: seq<HistoryEvent>): C.World
      reads this, listener, checker
    {
      C.World(stream, log, listener.lastClaimId, checker.View())
    }

    /**
     One iteration of the loop. It returns the log and whether the claimer goes on;
     when it does not, a new claimer starts from scratch.
     */
    method Iterate(stream: C.Claims, log: seq<HistoryEvent>, answer: Answer, submission: C.Submission)
      returns (log': seq<HistoryEvent>, goesOn: bool)
      requires NextAfter(stream, listener.lastClaimId).Some?
      modifies listener, checker
      ensures var after := C.TickStep(checker.settings, old(View(stream, log)), answer, submission);
              && (goesOn ==> View(stream, log') == after)
              && (!goesOn ==> C.Restart(checker.settings, View(stream, log')) == after)
    {
      var claim := listener.Listen(stream);
      var duplicated := checker.IsDuplicatedRollupsClaim(log, answer, claim);
      if duplicated.Err? {
        return log, false;
      }
      if duplicated.value {
        return log, true;
      }
      var submitted := Claim(claim.epochHash, claim.firstIndex, claim.lastIndex);
      log' := if submission.mined.Some?
              then log + [HistoryEvent(submission.mined.value, claim.dapp, submitted)] else log;
      goesOn := submission.survives && submission.mined.Some?;
    }
  }
}
