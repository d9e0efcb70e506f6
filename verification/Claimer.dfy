/**
 The authority-claimer: it follows the claims stream, checks each claim against
 the on-chain history, and submits the ones the chain expects. It may crash and
 start again at any point.
 */
module Claimer {
  import opened Common
  import opened Streams
  import opened RollupsEvents
  import opened Checker

  const U64_SIZE: nat := 0x1_0000_0000_0000_0000

  type Claims = seq<Event<RollupsClaim>>

  /** The stream and the log survive the claimer; the rest is lost when it stops. */
  datatype World = World(stream: Claims, log: seq<HistoryEvent>, lastClaimId: nat, checker: State)

  /** What becomes of a submission: whether it is mined, in which block, and whether the claimer survives it. */
  datatype Submission = Submission(mined: Option<nat>, survives: bool)

  datatype Action =
    | Publish(gap: nat, claim: RollupsClaim)            // a claim is appended to the stream
    | Refresh(answer: Answer)                           // the checker updates its cache
    | Tick(answer: Answer, submission: Submission)      // one iteration of the claimer loop
    | Crash

  function OnChain(c: RollupsClaim): Claim {
    Claim(c.epochHash, c.firstIndex, c.lastIndex)
  }

  function Restart(settings: Settings, w: World): World {
    w.(lastClaimId := INITIAL_ID, checker := Fresh(settings))
  }

  /** Update the cache and decide, as `is_duplicated_rollups_claim` does. */
  function Check(
      settings: Settings, w: World, answer: Answer, claim: RollupsClaim): (Result<bool, CheckerError>, State) {
    match Update(settings, w.checker, w.log, answer)
    case Err(e) => (Err(e), w.checker)
    case Ok(s) => (Verdict(Cached(s.cache, claim.dapp), claim.firstIndex, claim.lastIndex), s)
  }

  function Submit(settings: Settings, w: World, claim: RollupsClaim, submission: Submission): World {
    var log := match submission.mined
      case None => w.log
      case Some(block) => w.log + [HistoryEvent(block, claim.dapp, OnChain(claim))];
    var w' := w.(log := log);
    // a submission that is not mined is an error of the transaction sender
    if submission.survives && submission.mined.Some? then w' else Restart(settings, w')
  }

  function TickStep(settings: Settings, w: World, answer: Answer, submission: Submission): World {
    match NextAfter(w.stream, w.lastClaimId)
    case None => w
    case Some(event) =>
      var (verdict, s) := Check(settings, w, answer, event.payload);
      var w1 := w.(lastClaimId := event.id, checker := s);
      match verdict
      case Err(_) => Restart(settings, w1)
      case Ok(true) => w1
      case Ok(false) => Submit(settings, w1, event.payload, submission)
  }

  function Step(settings: Settings, w: World, a: Action): World {
    match a
    case Publish(gap, claim) => w.(stream := Append(w.stream, gap, claim))
    case Refresh(answer) =>
      (match Update(settings, w.checker, w.log, answer)
       case Err(_) => Restart(settings, w)
       case Ok(s) => w.(checker := s))
    case Tick(answer, submission) => TickStep(settings, w, answer, submission)
    case Crash => Restart(settings, w)
  }

  function Start(settings: Settings): World {
    World([], [], INITIAL_ID, Fresh(settings))
  }

  function Run(settings: Settings, actions: seq<Action>): World {
    if actions == [] then Start(settings) else Step(settings, Run(settings, Front(actions)), Last(actions))
  }

  // ------------------------------------------------------------------ the environment

  /** The claims of an application in the stream, in order. */
  function ClaimsOf(stream: Claims, dapp: Bytes): seq<RollupsClaim> {
    if stream == [] then []
    else ClaimsOf(Front(stream), dapp) + if Last(stream).payload.dapp == dapp then [Last(stream).payload] else []
  }

  /** The claim continues the claims of its application; its indexes are 64-bit ones. */
  predicate Continues(claims: seq<RollupsClaim>, c: RollupsClaim) {
    && c.firstIndex <= c.lastIndex < U64_SIZE
    && c.firstIndex == Begins(claims, |claims|)
  }

  /** The cache has all the events of the claim's application, or at least the claim itself. */
  predicate Seen(cache: map<Bytes, seq<Claim>>, log: seq<HistoryEvent>, claim: RollupsClaim) {
    Cached(cache, claim.dapp) == ClaimsIn(log, claim.dapp) || OnChain(claim) in Cached(cache, claim.dapp)
  }

  /** Block `block` was not read yet and is not before the last event. */
  predicate Unread(s: State, log: seq<HistoryEvent>, block: nat) {
    s.nextBlockToRead <= block && (log != [] ==> Last(log).block <= block)
  }

  /**
   What the claimer relies on: each application's claims are published in order,
   what was submitted before is confirmed as far as the check of a claim needs
   it, and a submitted claim is mined in a block that was not read yet.
   */
  ghost predicate Legal(settings: Settings, w: World, a: Action) {
    match a
    case Publish(_, claim) => Continues(ClaimsOf(w.stream, claim.dapp), claim)
    case Tick(answer, submission) =>
      var event, r := NextAfter(w.stream, w.lastClaimId), Update(settings, w.checker, w.log, answer);
      event.Some? && r.Ok? ==>
        && Seen(r.value.cache, w.log, event.value.payload)
        && (submission.mined.Some? ==> Unread(r.value, w.log, submission.mined.value))
    case _ => true
  }

  ghost predicate LegalRun(settings: Settings, actions: seq<Action>) {
    actions != [] ==>
      && LegalRun(settings, Front(actions))
      && Legal(settings, Run(settings, Front(actions)), Last(actions))
  }

  // ------------------------------------------------------------------ the invariant

  function Chained(claims: seq<RollupsClaim>): (r: seq<Claim>)
    ensures |r| == |claims|
  {
    seq(|claims|, i requires 0 <= i < |claims| => OnChain(claims[i]))
  }

  ghost predicate Bounded(claims: seq<RollupsClaim>) {
    Contiguous(claims) && forall k | 0 <= k < |claims| :: claims[k].lastIndex < U64_SIZE
  }

  /** The claimer has handled the first `n` claims of the stream since it started. */
  ghost predicate Inv(settings: Settings, w: World, n: nat) {
    && Increasing(w.stream) && n <= |w.stream|
    && w.lastClaimId == LastId(w.stream[..n])
    && Sorted(w.log) && (forall i | 0 <= i < |w.log| :: settings.genesisBlock <= w.log[i].block)
    && CacheIsLog(settings, w.checker, w.log)
    && (forall dapp :: ExactlyOnce(w.stream, n, w.log, dapp))
  }

  /** For one application: what is on the chain, what was handled, and what is in the stream. */
  ghost predicate ExactlyOnce(stream: Claims, n: nat, log: seq<HistoryEvent>, dapp: Bytes)
    requires n <= |stream|
  {
    && Bounded(ClaimsOf(stream, dapp))
    && Chained(ClaimsOf(stream[..n], dapp)) <= ClaimsIn(log, dapp) <= Chained(ClaimsOf(stream, dapp))
  }

  /** The verdict on claim number `k` when the first `known` claims are known to be on the chain. */
  lemma {:induction false} VerdictByCount(claims: seq<RollupsClaim>, known: nat, k: nat)
    requires Bounded(claims) && known <= |claims| && k < |claims|
    ensures var r := Verdict(Chained(claims[..known]), claims[k].firstIndex, claims[k].lastIndex);
            && (r == Ok(false) <==> known == k)
            && (r == Ok(true) <==> known > k)
            && (r.Err? <==> known < k)
  {
    assert Begins(claims, k) == claims[k].firstIndex;
    ClaimsAscend(claims, known, k);
    if known == 0 {
      assert Chained(claims[..known]) == [];
      ClaimsAscend(claims, 1, k);
    } else {
      assert Last(Chained(claims[..known])) == OnChain(claims[known - 1]);
      assert ExpectedFirst(Chained(claims[..known])) == claims[known - 1].lastIndex + 1;
    }
  }

  /** In a contiguous list, earlier claims end before later ones begin. */
  lemma {:induction false} ClaimsAscend(claims: seq<RollupsClaim>, known: nat, k: nat)
    requires Contiguous(claims) && known <= |claims| && k < |claims|
    ensures known > 0 && known <= k ==> claims[known - 1].lastIndex < claims[k].firstIndex
    ensures known > 0 && known < k ==> claims[known - 1].lastIndex + 1 < claims[k].firstIndex
    ensures known > k ==> claims[k].lastIndex <= claims[known - 1].lastIndex
    decreases if known > k then known else k
  {
    assert Begins(claims, k) == claims[k].firstIndex;
    if known > k + 1 {
      assert Begins(claims, known - 1) == claims[known - 1].firstIndex;
      ClaimsAscend(claims, known - 1, k);
    } else if 0 < known < k {
      assert Begins(claims, k - 1) == claims[k - 1].firstIndex;
      ClaimsAscend(claims, known, k - 1);
    }
  }

  lemma {:induction false} ClaimsOfGrow(stream: Claims, n: nat, dapp: Bytes)
    requires n < |stream|
    ensures ClaimsOf(stream[..n + 1], dapp)
         == ClaimsOf(stream[..n], dapp) + if stream[n].payload.dapp == dapp then [stream[n].payload] else []
  {
    assert Front(stream[..n + 1]) == stream[..n];
  }

  lemma {:induction false} ClaimsOfPrefix(stream: Claims, n: nat, dapp: Bytes)
    requires n <= |stream|
    ensures ClaimsOf(stream[..n], dapp) <= ClaimsOf(stream, dapp)
    decreases |stream|
  {
    if n < |stream| {
      ClaimsOfPrefix(Front(stream), n, dapp);
      assert Front(stream)[..n] == stream[..n];
      PrefixTransitive(ClaimsOf(stream[..n], dapp), ClaimsOf(Front(stream), dapp), ClaimsOf(stream, dapp));
    } else {
      assert stream[..n] == stream;
    }
  }

  // ------------------------------------------------------------------ steps

  lemma ContinuesBounded(claims: seq<RollupsClaim>, c: RollupsClaim)
    requires Bounded(claims) && Continues(claims, c)
    ensures Bounded(claims + [c])
  {
    var all := claims + [c];
    forall k | 0 <= k < |all|
      ensures Begins(all, k) == all[k].firstIndex <= all[k].lastIndex < U64_SIZE
    {
      assert Begins(all, k) == Begins(claims, k);
    }
  }

  lemma {:induction false} PublishOnce(
      stream: Claims, n: nat, log: seq<HistoryEvent>, dapp: Bytes, gap: nat, claim: RollupsClaim)
    requires n <= |stream| && ExactlyOnce(stream, n, log, dapp)
    requires Continues(ClaimsOf(stream, claim.dapp), claim)
    ensures ExactlyOnce(Append(stream, gap, claim), n, log, dapp)
  {
    var stream' := Append(stream, gap, claim);
    assert stream'[..n] == stream[..n] && Front(stream') == stream && Last(stream').payload == claim;
    if claim.dapp == dapp {
      ContinuesBounded(ClaimsOf(stream, dapp), claim);
      PrefixTransitive(ClaimsIn(log, dapp), Chained(ClaimsOf(stream, dapp)), Chained(ClaimsOf(stream', dapp)));
    } else {
      assert ClaimsOf(stream', dapp) == ClaimsOf(stream, dapp);
    }
  }

  lemma {:induction false} PublishKeeps(settings: Settings, w: World, n: nat, gap: nat, claim: RollupsClaim)
    requires Inv(settings, w, n) && Continues(ClaimsOf(w.stream, claim.dapp), claim)
    ensures Inv(settings, w.(stream := Append(w.stream, gap, claim)), n)
  {
    var stream := Append(w.stream, gap, claim);
    AppendIncreasing(w.stream, gap, claim);
    assert stream[..n] == w.stream[..n];
    forall dapp ensures ExactlyOnce(stream, n, w.log, dapp) {
      PublishOnce(w.stream, n, w.log, dapp, gap, claim);
    }
  }

  lemma {:induction false} RestartKeeps(settings: Settings, w: World, n: nat)
    requires Inv(settings, w, n)
    ensures Inv(settings, Restart(settings, w), 0)
  {
    assert w.stream[..0] == [];
    EmptyWindow(w.log, settings.genesisBlock);
    forall dapp ensures ExactlyOnce(w.stream, 0, w.log, dapp) {
      assert ExactlyOnce(w.stream, n, w.log, dapp);
    }
  }

  lemma {:induction false} WholeWindow(log: seq<HistoryEvent>, from: nat, to: nat)
    requires forall i | 0 <= i < |log| :: from <= log[i].block < to
    ensures Window(log, from, to) == log
  {
    if log != [] {
      assert log == Front(log) + [Last(log)] && from <= Last(log).block < to;
      WholeWindow(Front(log), from, to);
    }
  }

  /** What is cached of an application is the beginning of its history. */
  lemma {:induction false} CacheIsPrefix(settings: Settings, s: State, log: seq<HistoryEvent>, dapp: Bytes)
    requires Sorted(log) && CacheIsLog(settings, s, log)
    requires forall i | 0 <= i < |log| :: settings.genesisBlock <= log[i].block
    ensures Cached(s.cache, dapp) <= ClaimsIn(log, dapp)
  {
    var from, mid := settings.genesisBlock, s.nextBlockToRead;
    var to := if log != [] && Last(log).block >= mid then Last(log).block + 1 else mid;
    AllBelow(log, to);
    WholeWindow(log, from, to);
    WindowsJoin(log, from, mid, to);
    ClaimsInConcat(Window(log, from, mid), Window(log, mid, to), dapp);
  }

  /**
   When the cache holds the whole history, the verdict on the claim at position
   `n` is never a mismatch: it is a duplicate if the chain has it, and otherwise
   it is the next claim of its application.
   */
  lemma {:induction false} CheckIsRight(stream: Claims, n: nat, log: seq<HistoryEvent>)
    requires n < |stream| && ExactlyOnce(stream, n, log, stream[n].payload.dapp)
    ensures var c := stream[n].payload;
            var k, onChain := |ClaimsOf(stream[..n], c.dapp)|, ClaimsIn(log, c.dapp);
            var r := Verdict(onChain, c.firstIndex, c.lastIndex);
            && r == Ok(k < |onChain|)
            && (k < |onChain| ==> onChain[k] == OnChain(c))
            && (k == |onChain| ==> onChain + [OnChain(c)] <= Chained(ClaimsOf(stream, c.dapp)))
  {
    var c := stream[n].payload;
    var all, onChain := ClaimsOf(stream, c.dapp), ClaimsIn(log, c.dapp);
    var k := |ClaimsOf(stream[..n], c.dapp)|;
    ClaimsOfGrow(stream, n, c.dapp);
    ClaimsOfPrefix(stream, n + 1, c.dapp);
    assert all[k] == c;
    assert onChain == Chained(all[..|onChain|]);
    VerdictByCount(all, |onChain|, k);
  }

  /** A claim that is on the chain has been handled. */
  lemma {:induction false} SkipOnce(stream: Claims, n: nat, log: seq<HistoryEvent>, dapp: Bytes)
    requires n < |stream| && ExactlyOnce(stream, n, log, dapp)
    requires dapp == stream[n].payload.dapp ==> |ClaimsOf(stream[..n], dapp)| < |ClaimsIn(log, dapp)|
    ensures ExactlyOnce(stream, n + 1, log, dapp)
  {
    ClaimsOfGrow(stream, n, dapp);
    if dapp == stream[n].payload.dapp {
      CheckIsRight(stream, n, log);
      var before := Chained(ClaimsOf(stream[..n], dapp));
      assert Chained(ClaimsOf(stream[..n + 1], dapp)) == before + [OnChain(stream[n].payload)];
    }
  }

  lemma {:induction false} SkipKeeps(settings: Settings, w: World, n: nat, s: State)
    requires Inv(settings, w, n) && n < |w.stream| && CacheIsLog(settings, s, w.log)
    requires var dapp := w.stream[n].payload.dapp; |ClaimsOf(w.stream[..n], dapp)| < |ClaimsIn(w.log, dapp)|
    ensures Inv(settings, w.(lastClaimId := w.stream[n].id, checker := s), n + 1)
  {
    var m := n + 1;
    forall dapp ensures ExactlyOnce(w.stream, m, w.log, dapp) {
      assert ExactlyOnce(w.stream, n, w.log, dapp);
      SkipOnce(w.stream, n, w.log, dapp);
    }
  }

  /** The log with the claim mined in `block`. */
  function Mined(log: seq<HistoryEvent>, c: RollupsClaim, block: nat): seq<HistoryEvent> {
    log + [HistoryEvent(block, c.dapp, OnChain(c))]
  }

  lemma {:induction false} MinedOnce(stream: Claims, n: nat, log: seq<HistoryEvent>, block: nat, dapp: Bytes)
    requires n < |stream| && ExactlyOnce(stream, n, log, dapp)
    requires dapp == stream[n].payload.dapp ==> |ClaimsOf(stream[..n], dapp)| == |ClaimsIn(log, dapp)|
    ensures ExactlyOnce(stream, n + 1, Mined(log, stream[n].payload, block), dapp)
  {
    assert Front(Mined(log, stream[n].payload, block)) == log;
    ClaimsOfGrow(stream, n, dapp);
    if dapp == stream[n].payload.dapp {
      CheckIsRight(stream, n, log);
      var before := Chained(ClaimsOf(stream[..n], dapp));
      assert Chained(ClaimsOf(stream[..n + 1], dapp)) == before + [OnChain(stream[n].payload)];
      assert ClaimsIn(log, dapp) == before;
    }
  }

  lemma {:induction false} UnreadIsOutside(log: seq<HistoryEvent>, c: RollupsClaim, block: nat, from: nat, to: nat)
    requires to <= block
    ensures Window(Mined(log, c, block), from, to) == Window(log, from, to)
  {
    assert Front(Mined(log, c, block)) == log;
    assert Window(log, from, to) + [] == Window(log, from, to);
  }

  lemma {:induction false} MinedIsSorted(log: seq<HistoryEvent>, c: RollupsClaim, block: nat)
    requires Sorted(log) && (log != [] ==> Last(log).block <= block)
    ensures Sorted(Mined(log, c, block))
  {
    AllBelow(log, block + 1);
  }

  /** Mining a claim in a block that was not read yet leaves the cache right. */
  lemma {:induction false} MinedUnread(
      settings: Settings, s: State, log: seq<HistoryEvent>, c: RollupsClaim, block: nat)
    requires CacheIsLog(settings, s, log) && Sorted(log) && Unread(s, log, block)
    ensures CacheIsLog(settings, s, Mined(log, c, block)) && Sorted(Mined(log, c, block))
  {
    UnreadIsOutside(log, c, block, settings.genesisBlock, s.nextBlockToRead);
    MinedIsSorted(log, c, block);
  }

  /** Mining the next claim of its application in an unread block keeps the invariant. */
  lemma {:induction false} MinedKeeps(settings: Settings, w: World, n: nat, s: State, block: nat)
    requires Inv(settings, w, n) && n < |w.stream| && CacheIsLog(settings, s, w.log)
    requires Unread(s, w.log, block)
    requires var dapp := w.stream[n].payload.dapp; |ClaimsOf(w.stream[..n], dapp)| == |ClaimsIn(w.log, dapp)|
    ensures Inv(settings, World(w.stream, Mined(w.log, w.stream[n].payload, block), w.stream[n].id, s), n + 1)
  {
    var m, log := n + 1, Mined(w.log, w.stream[n].payload, block);
    forall dapp ensures ExactlyOnce(w.stream, m, log, dapp) {
      assert ExactlyOnce(w.stream, n, w.log, dapp);
      MinedOnce(w.stream, n, w.log, block, dapp);
    }
    MinedUnread(settings, s, w.log, w.stream[n].payload, block);
  }

  /** Claim number `k` of an application is among the first `known` ones if and only if `k` is below `known`. */
  lemma {:induction false} KnownMeansBelow(claims: seq<RollupsClaim>, known: nat, k: nat)
    requires Bounded(claims) && known <= |claims| && k < |claims|
    ensures OnChain(claims[k]) in Chained(claims[..known]) <==> k < known
  {
    var some := Chained(claims[..known]);
    if k < known {
      assert some[k] == OnChain(claims[k]);
    } else {
      forall j | 0 <= j < known ensures some[j] != OnChain(claims[k]) {
        ClaimsAscend(claims, j + 1, k);
        assert Begins(claims, j) == claims[j].firstIndex;
      }
    }
  }

  /**
   The verdict on the claim at position `n`, by a cache that has the first `known`
   claims of its application, is the one by the whole history if and only if the
   cache has them all or has this claim.
   */
  lemma {:induction false} StaleCacheVerdict(stream: Claims, n: nat, log: seq<HistoryEvent>, known: nat)
    requires n < |stream| && ExactlyOnce(stream, n, log, stream[n].payload.dapp)
    requires known <= |ClaimsIn(log, stream[n].payload.dapp)|
    ensures var c := stream[n].payload;
            var onChain := ClaimsIn(log, c.dapp);
            Verdict(onChain[..known], c.firstIndex, c.lastIndex) == Verdict(onChain, c.firstIndex, c.lastIndex)
            <==> onChain[..known] == onChain || OnChain(c) in onChain[..known]
  {
    var c := stream[n].payload;
    var all, onChain := ClaimsOf(stream, c.dapp), ClaimsIn(log, c.dapp);
    var k := |ClaimsOf(stream[..n], c.dapp)|;
    CheckIsRight(stream, n, log);
    ClaimAt(stream, n);
    assert onChain[..known] == Chained(all[..known]);
    VerdictByCount(all, known, k);
    KnownMeansBelow(all, known, k);
  }

  /** Where the claim at position `n` is among the claims of its application. */
  lemma {:induction false} ClaimAt(stream: Claims, n: nat)
    requires n < |stream|
    ensures var c := stream[n].payload;
            var all, k := ClaimsOf(stream, c.dapp), |ClaimsOf(stream[..n], c.dapp)|;
            k < |all| && all[k] == c
  {
    var dapp := stream[n].payload.dapp;
    ClaimsOfGrow(stream, n, dapp);
    ClaimsOfPrefix(stream, n + 1, dapp);
  }

  /** With a cache that has seen what it needs, the check tells whether the claim is on the chain. */
  lemma {:induction false} SeenIsEnough(settings: Settings, w: World, n: nat, s: State)
    requires Inv(settings, w, n) && n < |w.stream| && CacheIsLog(settings, s, w.log)
    requires Seen(s.cache, w.log, w.stream[n].payload)
    ensures var c := w.stream[n].payload;
            Verdict(Cached(s.cache, c.dapp), c.firstIndex, c.lastIndex)
            == Ok(|ClaimsOf(w.stream[..n], c.dapp)| < |ClaimsIn(w.log, c.dapp)|)
    ensures var dapp := w.stream[n].payload.dapp;
            |ClaimsOf(w.stream[..n], dapp)| <= |ClaimsIn(w.log, dapp)|
  {
    var c := w.stream[n].payload;
    var cached, onChain := Cached(s.cache, c.dapp), ClaimsIn(w.log, c.dapp);
    assert ExactlyOnce(w.stream, n, w.log, c.dapp);
    CacheIsPrefix(settings, s, w.log, c.dapp);
    assert onChain[..|cached|] == cached;
    StaleCacheVerdict(w.stream, n, w.log, |cached|);
    CheckIsRight(w.stream, n, w.log);
  }

  /** A submission that is mined and that the claimer survives. */
  predicate Succeeds(submission: Submission) {
    submission.mined.Some? && submission.survives
  }

  /** A tick whose update succeeded; the claim at position `n` is checked. */
  lemma {:induction false} CheckedKeeps(
      settings: Settings, w: World, n: nat, s: State, submission: Submission)
    returns (n': nat)
    requires Inv(settings, w, n) && n < |w.stream| && CacheIsLog(settings, s, w.log)
    requires Seen(s.cache, w.log, w.stream[n].payload)
    requires submission.mined.Some? ==> Unread(s, w.log, submission.mined.value)
    ensures var c := w.stream[n].payload;
            var verdict := Verdict(Cached(s.cache, c.dapp), c.firstIndex, c.lastIndex);
            var w1 := w.(lastClaimId := w.stream[n].id, checker := s);
            && verdict.Ok?
            && Inv(settings, if verdict.value then w1 else Submit(settings, w1, c, submission), n')
    ensures Succeeds(submission) ==> n' == n + 1
  {
    var c := w.stream[n].payload;
    SeenIsEnough(settings, w, n, s);
    if |ClaimsOf(w.stream[..n], c.dapp)| < |ClaimsIn(w.log, c.dapp)| {
      SkipKeeps(settings, w, n, s);
      return n + 1;
    }
    if submission.mined.None? {
      RestartKeeps(settings, w, n);
      return 0;
    }
    MinedKeeps(settings, w, n, s, submission.mined.value);
    if submission.survives {
      return n + 1;
    }
    RestartKeeps(settings, World(w.stream, Mined(w.log, c, submission.mined.value), w.stream[n].id, s), n + 1);
    return 0;
  }

  lemma {:induction false} TickKeeps(settings: Settings, w: World, n: nat, answer: Answer, submission: Submission)
    returns (n': nat)
    requires Inv(settings, w, n) && Legal(settings, w, Tick(answer, submission))
    ensures Inv(settings, TickStep(settings, w, answer, submission), n')
    ensures n < |w.stream| ==>
              var r := Check(settings, w, answer, w.stream[n].payload).0;
              r.Err? ==> !r.error.ClaimMismatch?
    ensures n < |w.stream| && Update(settings, w.checker, w.log, answer).Ok? && Succeeds(submission) ==> n' == n + 1
    ensures n == |w.stream| ==> n' == n
  {
    ReadsInOrder(w.stream, n);
    if n == |w.stream| {
      return n;
    }
    var r := Update(settings, w.checker, w.log, answer);
    if r.Err? {
      RestartKeeps(settings, w, n);
      return 0;
    }
    UpdateKeeps(settings, w.checker, w.log, answer);
    n' := CheckedKeeps(settings, w, n, r.value, submission);
  }

  lemma {:induction false} RefreshKeeps(settings: Settings, w: World, n: nat, answer: Answer) returns (n': nat)
    requires Inv(settings, w, n)
    ensures Inv(settings, Step(settings, w, Refresh(answer)), n')
  {
    var r := Update(settings, w.checker, w.log, answer);
    if r.Err? {
      RestartKeeps(settings, w, n);
      return 0;
    }
    UpdateKeeps(settings, w.checker, w.log, answer);
    return n;
  }

  lemma {:induction false} StepKeeps(settings: Settings, w: World, n: nat, a: Action) returns (n': nat)
    requires Inv(settings, w, n) && Legal(settings, w, a)
    ensures Inv(settings, Step(settings, w, a), n')
  {
    match a {
      case Publish(gap, claim) =>
        PublishKeeps(settings, w, n, gap, claim);
        n' := n;
      case Refresh(answer) =>
        n' := RefreshKeeps(settings, w, n, answer);
      case Tick(answer, submission) =>
        n' := TickKeeps(settings, w, n, answer, submission);
      case Crash =>
        RestartKeeps(settings, w, n);
        n' := 0;
    }
  }

  lemma {:induction false} RunKeeps(settings: Settings, actions: seq<Action>) returns (n: nat)
    requires LegalRun(settings, actions)
    ensures Inv(settings, Run(settings, actions), n)
  {
    if actions == [] {
      EmptyWindow([], settings.genesisBlock);
      return 0;
    }
    n := RunKeeps(settings, Front(actions));
    n := StepKeeps(settings, Run(settings, Front(actions)), n, Last(actions));
  }

  // ------------------------------------------------------------------ theorems

  /** Different claims of an application differ on the chain. */
  lemma {:induction false} ChainedAreDistinct(claims: seq<RollupsClaim>, i: nat, j: nat)
    requires Contiguous(claims) && i < j < |claims|
    ensures OnChain(claims[i]) != OnChain(claims[j])
  {
    ClaimsAscend(claims, i + 1, j);
    assert Begins(claims, i) == claims[i].firstIndex;
  }

  /**
   After any legal run, with any number of restarts, the on-chain history of every
   application is a prefix of its claims in the stream.
   */
  lemma {:induction false} ClaimsAreSubmittedInOrder(settings: Settings, actions: seq<Action>, dapp: Bytes)
    requires LegalRun(settings, actions)
    ensures var w := Run(settings, actions);
            && ClaimsIn(w.log, dapp) <= Chained(ClaimsOf(w.stream, dapp))
            && Contiguous(ClaimsOf(w.stream, dapp))
  {
    var n := RunKeeps(settings, actions);
    assert ExactlyOnce(Run(settings, actions).stream, n, Run(settings, actions).log, dapp);
  }

  /** Entry `k` of the history is claim `k` of the stream, field by field. */
  lemma {:induction false} HistoryTellsClaims(settings: Settings, actions: seq<Action>, dapp: Bytes, k: nat)
    requires LegalRun(settings, actions) && k < |ClaimsIn(Run(settings, actions).log, dapp)|
    ensures var w := Run(settings, actions);
            && k < |ClaimsOf(w.stream, dapp)|
            && var entry, claim := ClaimsIn(w.log, dapp)[k], ClaimsOf(w.stream, dapp)[k];
               && claim.dapp == dapp
               && entry.epochHash == claim.epochHash
               && entry.firstIndex == claim.firstIndex
               && entry.lastIndex == claim.lastIndex
  {
    var w := Run(settings, actions);
    ClaimsAreSubmittedInOrder(settings, actions, dapp);
    assert ClaimsIn(w.log, dapp)[k] == Chained(ClaimsOf(w.stream, dapp))[k];
    ClaimsOfOne(w.stream, dapp, k);
  }

  lemma {:induction false} ClaimsOfOne(stream: Claims, dapp: Bytes, k: nat)
    requires k < |ClaimsOf(stream, dapp)|
    ensures ClaimsOf(stream, dapp)[k].dapp == dapp
  {
    if k < |ClaimsOf(Front(stream), dapp)| {
      ClaimsOfOne(Front(stream), dapp, k);
    }
  }

  /** And no claim is there twice. */
  lemma {:induction false} ClaimsAreSubmittedOnce(settings: Settings, actions: seq<Action>, dapp: Bytes, i: nat, j: nat)
    requires LegalRun(settings, actions) && i < j < |ClaimsIn(Run(settings, actions).log, dapp)|
    ensures var history := ClaimsIn(Run(settings, actions).log, dapp);
            history[i] != history[j]
  {
    var w := Run(settings, actions);
    ClaimsAreSubmittedInOrder(settings, actions, dapp);
    ChainedAreDistinct(ClaimsOf(w.stream, dapp), i, j);
    assert ClaimsIn(w.log, dapp)[i] == Chained(ClaimsOf(w.stream, dapp))[i];
  }

  /** A claimer that has caught up with the stream has put every claim on the chain, once. */
  lemma {:induction false} CaughtUpMeansOnChain(settings: Settings, actions: seq<Action>, dapp: Bytes)
    requires LegalRun(settings, actions)
    requires Run(settings, actions).lastClaimId == LastId(Run(settings, actions).stream)
    ensures var w := Run(settings, actions);
            ClaimsIn(w.log, dapp) == Chained(ClaimsOf(w.stream, dapp))
  {
    var w := Run(settings, actions);
    var n := RunKeeps(settings, actions);
    LastReadMeansAll(w.stream, n);
    AllOnChain(settings, w, n, dapp);
  }

  // ------------------------------------------------------------------ progress

  /** A turn of the loop without a fault: the update succeeds, and so does a submission. */
  ghost predicate Smooth(settings: Settings, w: World, a: Action) {
    && a.Tick?
    && Legal(settings, w, a)
    && Update(settings, w.checker, w.log, a.answer).Ok?
    && Succeeds(a.submission)
  }

  /** Where the actions lead from `w`. */
  function Continue(settings: Settings, w: World, more: seq<Action>): World {
    if more == [] then w else Step(settings, Continue(settings, w, Front(more)), Last(more))
  }

  /** `more` are turns without a fault. */
  ghost predicate SmoothFrom(settings: Settings, w: World, more: seq<Action>) {
    more != [] ==>
      SmoothFrom(settings, w, Front(more)) && Smooth(settings, Continue(settings, w, Front(more)), Last(more))
  }

  lemma {:induction false} SmoothTurn(settings: Settings, w: World, n: nat, a: Action) returns (n': nat)
    requires Inv(settings, w, n) && Smooth(settings, w, a)
    ensures Inv(settings, Step(settings, w, a), n') && Step(settings, w, a).stream == w.stream
    ensures n' == if n < |w.stream| then n + 1 else n
  {
    n' := TickKeeps(settings, w, n, a.answer, a.submission);
  }

  /** Turns without a fault read one more claim each, until all are read. */
  lemma {:induction false} SmoothTurns(settings: Settings, w: World, n: nat, more: seq<Action>) returns (n': nat)
    requires Inv(settings, w, n) && SmoothFrom(settings, w, more)
    ensures Inv(settings, Continue(settings, w, more), n') && Continue(settings, w, more).stream == w.stream
    ensures n' <= |w.stream| && (n' == |w.stream| || |more| <= n')
  {
    if more == [] {
      n' := n;
    } else {
      n' := SmoothTurns(settings, w, n, Front(more));
      n' := SmoothTurn(settings, Continue(settings, w, Front(more)), n', Last(more));
    }
  }

  /** A claimer that has handled the whole stream has put every claim on the chain. */
  lemma {:induction false} AllOnChain(settings: Settings, w: World, n: nat, dapp: Bytes)
    requires Inv(settings, w, n) && n == |w.stream|
    ensures ClaimsIn(w.log, dapp) == Chained(ClaimsOf(w.stream, dapp))
  {
    assert w.stream[..n] == w.stream;
    assert ExactlyOnce(w.stream, n, w.log, dapp);
  }

  lemma {:induction false} SmoothTurnsCatchUp(settings: Settings, w: World, n: nat, more: seq<Action>, dapp: Bytes)
    requires Inv(settings, w, n) && SmoothFrom(settings, w, more) && |more| >= |w.stream|
    ensures ClaimsIn(Continue(settings, w, more).log, dapp) == Chained(ClaimsOf(w.stream, dapp))
  {
    var n' := SmoothTurns(settings, w, n, more);
    AllOnChain(settings, Continue(settings, w, more), n', dapp);
  }

  /** After any legal run, as many turns without a fault as there are claims put all of them on the chain. */
  lemma {:induction false} EveryClaimReachesChain(
      settings: Settings, actions: seq<Action>, more: seq<Action>, dapp: Bytes)
    requires LegalRun(settings, actions) && SmoothFrom(settings, Run(settings, actions), more)
    requires |more| >= |Run(settings, actions).stream|
    ensures var w := Run(settings, actions);
            ClaimsIn(Continue(settings, w, more).log, dapp) == Chained(ClaimsOf(w.stream, dapp))
  {
    var n := RunKeeps(settings, actions);
    SmoothTurnsCatchUp(settings, Run(settings, actions), n, more, dapp);
  }

  /** The last block with an event, or the next one to read if that is later. */
  function Latest(s: State, log: seq<HistoryEvent>): (block: nat)
    ensures s.nextBlockToRead <= block && (log != [] ==> Last(log).block <= block)
  {
    if log != [] && Last(log).block > s.nextBlockToRead then Last(log).block else s.nextBlockToRead
  }

  /** Reading up to a block after all the events completes what is cached of an application. */
  lemma {:induction false} ReadsAll(
      cache: map<Bytes, seq<Claim>>, log: seq<HistoryEvent>, dapp: Bytes, from: nat, mid: nat, to: nat)
    requires Sorted(log) && from <= mid <= to && forall i | 0 <= i < |log| :: from <= log[i].block < to
    requires Cached(cache, dapp) == ClaimsIn(Window(log, from, mid), dapp)
    ensures Cached(AppendClaims(cache, Window(log, mid, to)), dapp) == ClaimsIn(log, dapp)
  {
    ReadKeeps(cache, log, dapp, from, mid, to);
    WholeWindow(log, from, to);
  }

  lemma {:induction false} AllBelow(log: seq<HistoryEvent>, to: nat)
    requires Sorted(log) && (log != [] ==> Last(log).block < to)
    ensures forall i | 0 <= i < |log| :: log[i].block < to
  {
    forall i | 0 <= i < |log| ensures log[i].block < to {
      assert i == |log| - 1 || log[i].block <= log[|log| - 1].block;
    }
  }

  /** An update at the latest block reads every event. */
  lemma {:induction false} UpdateReadsAll(settings: Settings, s: State, log: seq<HistoryEvent>, dapp: Bytes)
    requires Sorted(log) && settings.genesisBlock <= s.nextBlockToRead
    requires Cached(s.cache, dapp) == ClaimsIn(Window(log, settings.genesisBlock, s.nextBlockToRead), dapp)
    requires forall i | 0 <= i < |log| :: settings.genesisBlock <= log[i].block
    ensures var r := Update(settings, s, log, Events(settings.confirmations + Latest(s, log)));
            && r.Ok? && r.value.nextBlockToRead == Latest(s, log) + 1
            && Cached(r.value.cache, dapp) == ClaimsIn(log, dapp)
  {
    var to := Latest(s, log) + 1;
    AllBelow(log, to);
    ReadsAll(s.cache, log, dapp, settings.genesisBlock, s.nextBlockToRead, to);
  }

  lemma {:induction false} UpdateSees(settings: Settings, s: State, log: seq<HistoryEvent>, claim: RollupsClaim)
    requires Sorted(log) && CacheIsLog(settings, s, log)
    requires forall i | 0 <= i < |log| :: settings.genesisBlock <= log[i].block
    ensures var r := Update(settings, s, log, Events(settings.confirmations + Latest(s, log)));
            r.Ok? && Seen(r.value.cache, log, claim) && Unread(r.value, log, Latest(s, log) + 1)
  {
    UpdateReadsAll(settings, s, log, claim.dapp);
  }

  /** The turn at which the chain has gone on, and the submission is mined in a new block. */
  lemma {:induction false} SmoothTick(settings: Settings, w: World) returns (a: Action)
    requires Sorted(w.log) && CacheIsLog(settings, w.checker, w.log)
    requires forall i | 0 <= i < |w.log| :: settings.genesisBlock <= w.log[i].block
    ensures Smooth(settings, w, a)
  {
    var block := Latest(w.checker, w.log);
    a := Tick(Events(settings.confirmations + block), Submission(Some(block + 1), true));
    var event := NextAfter(w.stream, w.lastClaimId);
    UpdateSees(settings, w.checker, w.log, if event.Some? then event.value.payload else RollupsClaim([], 0, [], 0, 0));
  }

  /** A turn without a fault is possible after every legal run. */
  lemma {:induction false} SmoothTurnExists(settings: Settings, actions: seq<Action>) returns (a: Action)
    requires LegalRun(settings, actions)
    ensures Smooth(settings, Run(settings, actions), a)
  {
    var n := RunKeeps(settings, actions);
    a := SmoothTick(settings, Run(settings, actions));
  }

  /** A failed update ends the claimer: nothing is submitted, and the next one begins again. */
  lemma {:induction false} FailedUpdateStops(settings: Settings, w: World, answer: Answer, submission: Submission)
    requires Update(settings, w.checker, w.log, answer).Err?
    ensures Step(settings, w, Refresh(answer)) == Restart(settings, w)
    ensures NextAfter(w.stream, w.lastClaimId).Some? ==>
              Step(settings, w, Tick(answer, submission)) == Restart(settings, w)
  {
  }

  /** In a legal run the checker never reports a claim mismatch. */
  lemma {:induction false} NoMismatch(settings: Settings, actions: seq<Action>, answer: Answer, submission: Submission)
    requires LegalRun(settings, actions + [Tick(answer, submission)])
    ensures var w := Run(settings, actions);
            var event := NextAfter(w.stream, w.lastClaimId);
            event.Some? ==>
              var r := Check(settings, w, answer, event.value.payload).0;
              r.Err? ==> !r.error.ClaimMismatch?
  {
    var all := actions + [Tick(answer, submission)];
    assert Front(all) == actions && Last(all) == Tick(answer, submission);
    var n := RunKeeps(settings, actions);
    var w := Run(settings, actions);
    ReadsInOrder(w.stream, n);
    var n' := TickKeeps(settings, w, n, answer, submission);
  }

  // ------------------------------------------------------------------ without confirmation

  /** A new claimer submits the first claim of the stream when the cache has read none of the log. */
  lemma {:induction false} BlindTick(
      settings: Settings, stream: Claims, log: seq<HistoryEvent>, c: RollupsClaim, latest: nat, block: nat)
    requires stream == [Event(1, c)] && c.firstIndex == 0
    requires settings.genesisBlock + settings.confirmations <= latest
    requires forall i | 0 <= i < |log| :: log[i].block > latest - settings.confirmations
    ensures TickStep(settings, World(stream, log, INITIAL_ID, Fresh(settings)),
                     Events(latest), Submission(Some(block), true)).log == Mined(log, c, block)
  {
    NothingBelow(log, settings.genesisBlock, latest - settings.confirmations + 1);
    assert NextAfter(stream, INITIAL_ID) == Some(stream[0]);
  }

  lemma {:induction false} NothingBelow(log: seq<HistoryEvent>, from: nat, to: nat)
    requires forall i | 0 <= i < |log| :: log[i].block >= to
    ensures Window(log, from, to) == []
  {
    if log != [] {
      NothingBelow(Front(log), from, to);
    }
  }

  /**
   Why confirmation matters: a claim that was mined in block 6, but is not
   confirmed when the claimer starts again at that block, is submitted a second time.
   */
  lemma {:induction false} UnconfirmedSubmissionIsRepeated(c: RollupsClaim)
    requires c.firstIndex == 0
    ensures var settings := Settings(4, 0);
            var w0 := Step(settings, Start(settings), Publish(0, c));
            var w1 := Step(settings, w0, Tick(Events(5), Submission(Some(6), true)));
            var w2 := Step(settings, Step(settings, w1, Crash), Tick(Events(6), Submission(Some(7), true)));
            w2.log == Mined(Mined([], c, 6), c, 7)
  {
    var settings := Settings(4, 0);
    var stream := [Event(1, c)];
    assert Step(settings, Start(settings), Publish(0, c)).stream == stream;
    BlindTick(settings, stream, [], c, 5, 6);
    BlindTick(settings, stream, Mined([], c, 6), c, 6, 7);
  }
}
