/**
 Broker streams: append-only logs whose events carry increasing identifiers.
 An identifier is a positive number here; `INITIAL_ID` comes before all of them.
 */
module Streams {
  import opened Common

  const INITIAL_ID: nat := 0

  datatype Event<+P> = Event(id: nat, payload: P)

  function LastId<P>(s: seq<Event<P>>): nat {
    if s == [] then INITIAL_ID else Last(s).id
  }

  function Payloads<P>(s: seq<Event<P>>): (r: seq<P>)
    ensures |r| == |s|
  {
    seq(|s|, i requires 0 <= i < |s| => s[i].payload)
  }

  ghost predicate Increasing<P>(s: seq<Event<P>>) {
    && (forall i | 0 <= i < |s| :: INITIAL_ID < s[i].id)
    && (forall i, j | 0 <= i < j < |s| :: s[i].id < s[j].id)
  }

  /**
   Append a payload. The broker picks the identifier: any number above the last
   one. `gap` says how far above, so it ranges over all such choices.
   */
  function Append<P>(s: seq<Event<P>>, gap: nat, p: P): seq<Event<P>> {
    s + [Event(LastId(s) + 1 + gap, p)]
  }

  /** Read the first event after `id`, if there is one. */
  function NextAfter<P>(s: seq<Event<P>>, id: nat): (r: Option<Event<P>>)
    ensures r.Some? ==> r.value in s && r.value.id > id
    ensures r.None? ==> forall i | 0 <= i < |s| :: s[i].id <= id
  {
    if s == [] then None
    else if s[0].id > id then Some(s[0])
    else NextAfter(s[1..], id)
  }

  lemma {:induction false} AppendIncreasing<P>(s: seq<Event<P>>, gap: nat, p: P)
    requires Increasing(s)
    ensures Increasing(Append(s, gap, p))
  {
  }

  /** A reader that saw the first `n` events is given event `n` next. */
  lemma {:induction false} ReadsInOrder<P>(s: seq<Event<P>>, n: nat)
    requires Increasing(s) && n <= |s|
    ensures NextAfter(s, LastId(s[..n])) == if n < |s| then Some(s[n]) else None
  {
    if n == 0 {
      assert s != [] ==> s[0].id > INITIAL_ID;
    } else {
      SkipsSeen(s, LastId(s[..n]), n);
    }
  }

  lemma {:induction false} SkipsSeen<P>(s: seq<Event<P>>, id: nat, n: nat)
    requires Increasing(s) && n <= |s|
    requires forall i | 0 <= i < n :: s[i].id <= id
    requires forall i | n <= i < |s| :: s[i].id > id
    ensures NextAfter(s, id) == if n < |s| then Some(s[n]) else None
  {
    if n > 0 {
      forall i | 0 <= i < |s[1..]| ensures s[1..][i].id == s[i + 1].id {
      }
      SkipsSeen(s[1..], id, n - 1);
    }
  }

  /** A reader that saw the last event saw all of them. */
  lemma {:induction false} LastReadMeansAll<T>(s: seq<Event<T>>, n: nat)
    requires Increasing(s) && n <= |s| && LastId(s[..n]) == LastId(s)
    ensures n == |s|
  {
    assert s[..|s|] == s;
    ReadsInOrder(s, n);
    ReadsInOrder(s, |s|);
  }
}
