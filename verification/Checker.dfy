/**
 The duplicate checker: a cache of the claims in the on-chain history, read in
 windows of confirmed blocks, and the verdict it gives on a claim.
 */
module Checker {
  import opened Common

  /** A claim as the history contract stores it. */
  datatype Claim = Claim(epochHash: Bytes, firstIndex: nat, lastIndex: nat)

  datatype HistoryEvent = HistoryEvent(block: nat, dapp: Bytes, claim: Claim)

  datatype Settings = Settings(confirmations: nat, genesisBlock: nat)

  datatype State = State(cache: map<Bytes, seq<Claim>>, nextBlockToRead: nat)

  /** What the provider answers to an update. */
  datatype Answer =
    | NoBlockNumber
    | NoEvents(latest: nat)  // the block number was read but the query failed
    | Events(latest: nat)

  datatype CheckerError =
    | ProviderError
    | ContractError
    | DepthTooHigh(depth: nat, latest: nat)
    | ClaimMismatch(expectedFirstIndex: nat, firstIndex: nat, lastIndex: nat)

  const U128_SIZE: nat := 0x1_0000_0000_0000_0000_0000_0000_0000_0000

  function Fresh(settings: Settings): State {
    State(map[], settings.genesisBlock)
  }

  /** The events in blocks from `from` up to but not including `to`, in order. */
  function Window(log: seq<HistoryEvent>, from: nat, to: nat): seq<HistoryEvent> {
    if log == [] then []
    else Window(Front(log), from, to) + InWindow(Last(log), from, to)
  }

  /** The claims of an application among the events. */
  function ClaimsIn(events: seq<HistoryEvent>, dapp: Bytes): seq<Claim> {
    if events == [] then []
    else ClaimsIn(Front(events), dapp) + if Last(events).dapp == dapp then [Last(events).claim] else []
  }

  function Cached(cache: map<Bytes, seq<Claim>>, dapp: Bytes): seq<Claim> {
    if dapp in cache then cache[dapp] else []
  }

  function AppendOne(cache: map<Bytes, seq<Claim>>, e: HistoryEvent): map<Bytes, seq<Claim>> {
    cache[e.dapp := Cached(cache, e.dapp) + [e.claim]]
  }

  function AppendClaims(cache: map<Bytes, seq<Claim>>, events: seq<HistoryEvent>): map<Bytes, seq<Claim>> {
    if events == [] then cache else AppendOne(AppendClaims(cache, Front(events)), Last(events))
  }

  function Update(settings: Settings, s: State, log: seq<HistoryEvent>, answer: Answer): Result<State, CheckerError> {
    if answer.NoBlockNumber? then Err(ProviderError)
    else if answer.latest < settings.confirmations then Err(DepthTooHigh(settings.confirmations, answer.latest))
    else
      var latest := answer.latest - settings.confirmations;
      if latest < s.nextBlockToRead then Ok(s)
      else if answer.NoEvents? then Err(ContractError)
      else Ok(State(AppendClaims(s.cache, Window(log, s.nextBlockToRead, latest + 1)), latest + 1))
  }

  /** The first index the chain expects; the addition is on 128-bit words. */
  function ExpectedFirst(known: seq<Claim>): nat {
    if known == [] then 0 else (Last(known).lastIndex + 1) % U128_SIZE
  }

  function Verdict(known: seq<Claim>, firstIndex: nat, lastIndex: nat): Result<bool, CheckerError> {
    var expected := ExpectedFirst(known);
    if firstIndex == expected then Ok(false)
    else if lastIndex < expected then Ok(true)
    else Err(ClaimMismatch(expected, firstIndex, lastIndex))
  }

  // ------------------------------------------------------------------ the cache is the log

  ghost predicate Sorted(log: seq<HistoryEvent>) {
    forall i, j | 0 <= i < j < |log| :: log[i].block <= log[j].block
  }

  /** The cache holds exactly the events of blocks from genesis to the next block to read. */
  ghost predicate CacheIsLog(settings: Settings, s: State, log: seq<HistoryEvent>) {
    && settings.genesisBlock <= s.nextBlockToRead
    && forall dapp :: Cached(s.cache, dapp) == ClaimsIn(Window(log, settings.genesisBlock, s.nextBlockToRead), dapp)
  }

  lemma {:induction false} AppendedClaims(cache: map<Bytes, seq<Claim>>, events: seq<HistoryEvent>, dapp: Bytes)
    ensures Cached(AppendClaims(cache, events), dapp) == Cached(cache, dapp) + ClaimsIn(events, dapp)
  {
    if events != [] {
      AppendedClaims(cache, Front(events), dapp);
    }
  }

  lemma {:induction false} ClaimsInConcat(a: seq<HistoryEvent>, b: seq<HistoryEvent>, dapp: Bytes)
    ensures ClaimsIn(a + b, dapp) == ClaimsIn(a, dapp) + ClaimsIn(b, dapp)
  {
    if b == [] {
      assert a + b == a;
    } else {
      ClaimsInConcat(a, Front(b), dapp);
      assert Front(a + b) == a + Front(b) && Last(a + b) == Last(b);
    }
  }

  lemma {:induction false} WindowAbove(log: seq<HistoryEvent>, from: nat, to: nat)
    requires forall i | 0 <= i < |log| :: log[i].block < from
    ensures Window(log, from, to) == []
  {
    if log != [] {
      WindowAbove(Front(log), from, to);
    }
  }

  function InWindow(e: HistoryEvent, from: nat, to: nat): seq<HistoryEvent> {
    if from <= e.block < to then [e] else []
  }

  /** Two adjacent windows of a sorted log are one window. */
  lemma {:induction false} WindowsJoin(log: seq<HistoryEvent>, from: nat, mid: nat, to: nat)
    requires Sorted(log) && from <= mid <= to
    ensures Window(log, from, mid) + Window(log, mid, to) == Window(log, from, to)
  {
    if log != [] {
      var e := Last(log);
      var a, b := Window(Front(log), from, mid), Window(Front(log), mid, to);
      WindowsJoin(Front(log), from, mid, to);
      if e.block < mid {
        WindowAbove(Front(log), mid, to);
        assert a + b == a && a + InWindow(e, from, mid) + (b + []) == a + InWindow(e, from, to);
      } else {
        Regroup(a, b, InWindow(e, mid, to));
        assert a + [] == a;
      }
    }
  }

  /** Reading the next blocks extends what is cached of an application. */
  lemma {:induction false} ReadKeeps(
      cache: map<Bytes, seq<Claim>>, log: seq<HistoryEvent>, dapp: Bytes, from: nat, mid: nat, to: nat)
    requires Sorted(log) && from <= mid <= to
    requires Cached(cache, dapp) == ClaimsIn(Window(log, from, mid), dapp)
    ensures Cached(AppendClaims(cache, Window(log, mid, to)), dapp) == ClaimsIn(Window(log, from, to), dapp)
  {
    WindowsJoin(log, from, mid, to);
    AppendedClaims(cache, Window(log, mid, to), dapp);
    ClaimsInConcat(Window(log, from, mid), Window(log, mid, to), dapp);
  }

  /** An update, whatever the provider answers, keeps the cache equal to the log. */
  lemma {:induction false} UpdateKeeps(settings: Settings, s: State, log: seq<HistoryEvent>, answer: Answer)
    requires Sorted(log) && CacheIsLog(settings, s, log)
    ensures var r := Update(settings, s, log, answer);
            r.Ok? ==> CacheIsLog(settings, r.value, log) && s.nextBlockToRead <= r.value.nextBlockToRead
  {
    var r := Update(settings, s, log, answer);
    if r.Ok? && r.value != s {
      var from, mid, to := settings.genesisBlock, s.nextBlockToRead, r.value.nextBlockToRead;
      forall dapp ensures Cached(r.value.cache, dapp) == ClaimsIn(Window(log, from, to), dapp) {
        ReadKeeps(s.cache, log, dapp, from, mid, to);
      }
    }
  }

  lemma {:induction false} WindowHolds(log: seq<HistoryEvent>, from: nat, to: nat, e: HistoryEvent)
    ensures e in Window(log, from, to) <==> e in log && from <= e.block < to
  {
    if log != [] {
      WindowHolds(Front(log), from, to, e);
      assert log == Front(log) + [Last(log)];
    }
  }

  predicate HasRead(s: State, block: nat) {
    block < s.nextBlockToRead
  }

  /**
   What an update does with each answer: it reads exactly the blocks that have
   enough confirmations, and it fails without a block number, without enough
   blocks, or when there are blocks to read and the query for them fails.
   */
  lemma {:induction false} UpdateReadsConfirmed(settings: Settings, s: State, log: seq<HistoryEvent>, answer: Answer)
    ensures match Update(settings, s, log, answer)
            case Ok(after) =>
              && !answer.NoBlockNumber? && settings.confirmations <= answer.latest
              && (forall b: nat :: HasRead(after, b) <==> HasRead(s, b) || b + settings.confirmations <= answer.latest)
              && (answer.NoEvents? ==> after == s)
            case Err(ProviderError) => answer.NoBlockNumber?
            case Err(DepthTooHigh(depth, latest)) =>
              && !answer.NoBlockNumber?
              && depth == settings.confirmations && latest == answer.latest && latest < depth
            case Err(ContractError) =>
              answer.NoEvents? && s.nextBlockToRead + settings.confirmations <= answer.latest
            case Err(ClaimMismatch(_, _, _)) => false
  {
  }

  /** Blocks below `height` are the same in both logs. */
  ghost predicate SameBelow(a: seq<HistoryEvent>, b: seq<HistoryEvent>, height: nat) {
    Window(a, 0, height) == Window(b, 0, height)
  }

  lemma {:induction false} WindowOfWindow(log: seq<HistoryEvent>, from: nat, to: nat)
    ensures Window(Window(log, 0, to), from, to) == Window(log, from, to)
  {
    if log != [] {
      WindowOfWindow(Front(log), from, to);
      var below := Window(Front(log), 0, to);
      if Last(log).block < to {
        assert Window(log, 0, to) == below + [Last(log)] && Front(below + [Last(log)]) == below;
      } else {
        assert Window(log, 0, to) == below;
      }
    }
  }

  /** A reorganization of blocks that were not read yet does not touch the cache. */
  lemma {:induction false} ReorgKeeps(settings: Settings, s: State, log: seq<HistoryEvent>, log': seq<HistoryEvent>)
    requires CacheIsLog(settings, s, log) && SameBelow(log, log', s.nextBlockToRead)
    ensures CacheIsLog(settings, s, log')
  {
    WindowOfWindow(log, settings.genesisBlock, s.nextBlockToRead);
    WindowOfWindow(log', settings.genesisBlock, s.nextBlockToRead);
  }

  /** The life of a checker: updates, and changes of the chain above the confirmed blocks. */
  datatype Happening = Asked(answer: Answer) | Reorganized(log: seq<HistoryEvent>)

  /** The state and the log after some happenings; a failed update changes nothing. */
  function Live(settings: Settings, log: seq<HistoryEvent>, happenings: seq<Happening>): (State, seq<HistoryEvent>) {
    if happenings == [] then (Fresh(settings), log)
    else
      var (s, now) := Live(settings, log, Front(happenings));
      match Last(happenings)
      case Reorganized(log') => (s, log')
      case Asked(answer) =>
        var r := Update(settings, s, now, answer);
        (if r.Ok? then r.value else s, now)
  }

  /** Reorganizations keep the log sorted and the blocks already read. */
  ghost predicate Confirmed(settings: Settings, log: seq<HistoryEvent>, happenings: seq<Happening>) {
    && Sorted(log)
    && (happenings != [] ==>
          && Confirmed(settings, log, Front(happenings))
          && (Last(happenings).Reorganized? ==>
                var (s, now) := Live(settings, log, Front(happenings));
                && Sorted(Last(happenings).log)
                && SameBelow(now, Last(happenings).log, s.nextBlockToRead)))
  }

  /**
   After any sequence of updates, with any block numbers, failures and
   reorganizations above the confirmed blocks, the cache of every application is
   its events in the blocks from genesis up to the next one to read, in order.
   */
  lemma {:induction false} CacheAlwaysEqualsLog(settings: Settings, log: seq<HistoryEvent>, happenings: seq<Happening>)
    requires Confirmed(settings, log, happenings)
    ensures var (s, now) := Live(settings, log, happenings); Sorted(now) && CacheIsLog(settings, s, now)
  {
    if happenings == [] {
      EmptyWindow(log, settings.genesisBlock);
    } else {
      CacheAlwaysEqualsLog(settings, log, Front(happenings));
      var (s, now) := Live(settings, log, Front(happenings));
      match Last(happenings)
      case Reorganized(log') => ReorgKeeps(settings, s, now, log');
      case Asked(answer) => UpdateKeeps(settings, s, now, answer);
    }
  }

  lemma {:induction false} EmptyWindow(log: seq<HistoryEvent>, at: nat)
    ensures Window(log, at, at) == []
  {
    if log != [] {
      EmptyWindow(Front(log), at);
    }
  }

  // ------------------------------------------------------------------ the verdict

  /** The history covers the inputs from 0 on, without gap or overlap, in 128-bit words. */
  ghost predicate Tiled(history: seq<Claim>) {
    forall k | 0 <= k < |history| ::
      && history[k].firstIndex <= history[k].lastIndex < U128_SIZE
      && history[k].firstIndex == if k == 0 then 0 else history[k - 1].lastIndex + 1
  }

  ghost predicate Covered(history: seq<Claim>, i: nat) {
    exists k | 0 <= k < |history| :: history[k].firstIndex <= i <= history[k].lastIndex
  }

  lemma {:induction false} CoveredMeansBelow(history: seq<Claim>, i: nat)
    requires Tiled(history)
    ensures Covered(history, i) <==> history != [] && i <= Last(history).lastIndex
  {
    if history != [] {
      CoveredMeansBelow(Front(history), i);
      if i < Last(history).firstIndex {
        assert Covered(Front(history), i);
        var k :| 0 <= k < |Front(history)| && history[k].firstIndex <= i <= history[k].lastIndex;
      } else if i <= Last(history).lastIndex {
        assert history[|history| - 1].firstIndex <= i <= history[|history| - 1].lastIndex;
      }
    }
  }

  /** What the verdict should be, in terms of the inputs on the chain. */
  ghost predicate RightVerdict(history: seq<Claim>, firstIndex: nat, lastIndex: nat, r: Result<bool, CheckerError>) {
    var all := forall i: nat | firstIndex <= i <= lastIndex :: Covered(history, i);
    var next := !Covered(history, firstIndex) && forall i: nat | i < firstIndex :: Covered(history, i);
    && (r == Ok(true) <==> all)
    && (r == Ok(false) <==> next)
    && (r.Err? <==> !all && !next)
  }

  /**
   The verdict tells exactly whether the claim is on the chain, is the next one,
   or neither, if and only if the history has not reached the last 128-bit index.
   */
  lemma {:induction false} VerdictMeansCoverage(history: seq<Claim>, firstIndex: nat, lastIndex: nat)
    requires Tiled(history) && firstIndex <= lastIndex < U128_SIZE
    ensures RightVerdict(history, firstIndex, lastIndex, Verdict(history, firstIndex, lastIndex))
       <==> (history == [] || Last(history).lastIndex < U128_SIZE - 1)
  {
    var n := if history == [] then 0 else Last(history).lastIndex + 1;
    forall i: nat ensures Covered(history, i) <==> i < n {
      CoveredMeansBelow(history, i);
    }
    assert (forall i: nat | firstIndex <= i <= lastIndex :: Covered(history, i)) <==> lastIndex < n by {
      assert Covered(history, lastIndex) <==> lastIndex < n;
    }
    assert (forall i: nat | i < firstIndex :: Covered(history, i)) <==> firstIndex <= n by {
      assert !Covered(history, n);
    }
  }

  /** A mismatch names the claim, and the first input that is not on the chain. */
  lemma {:induction false} MismatchTells(history: seq<Claim>, firstIndex: nat, lastIndex: nat)
    requires Tiled(history) && (history == [] || Last(history).lastIndex < U128_SIZE - 1)
    requires Verdict(history, firstIndex, lastIndex).Err?
    ensures var e := Verdict(history, firstIndex, lastIndex).error;
            && e.ClaimMismatch? && e.firstIndex == firstIndex && e.lastIndex == lastIndex
            && forall i: nat :: Covered(history, i) <==> i < e.expectedFirstIndex
  {
    var n := if history == [] then 0 else Last(history).lastIndex + 1;
    forall i: nat ensures Covered(history, i) <==> i < n {
      CoveredMeansBelow(history, i);
    }
  }

  /** One claim that reaches the last index is such a case: input 0 is covered, and still taken for the next one. */
  lemma {:induction false} LastIndexWrapsAround(h: Bytes)
    ensures var history := [Claim(h, 0, U128_SIZE - 1)];
            Tiled(history) && Covered(history, 0) && Verdict(history, 0, 0) == Ok(false)
  {
    var history := [Claim(h, 0, U128_SIZE - 1)];
    assert history[0].firstIndex <= 0 <= history[0].lastIndex;
  }
}
