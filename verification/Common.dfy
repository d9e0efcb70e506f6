/** Small types shared by every part of the model. */
module Common {

  datatype Option<+T> = None | Some(value: T)

  datatype Result<+T, +E> = Ok(value: T) | Err(error: E)

  newtype byte = x: int | 0 <= x < 256

  type Bytes = seq<byte>

  /** `s` without its last element. */
  function Front<T>(s: seq<T>): (r: seq<T>)
    requires |s| > 0
  {
    s[..|s| - 1]
  }

  function Last<T>(s: seq<T>): T
    requires |s| > 0
  {
    s[|s| - 1]
  }

  /** The prefix order on sequences is transitive. */
  lemma PrefixTransitive<T>(a: seq<T>, b: seq<T>, c: seq<T>)
    requires a <= b <= c
    ensures a <= c
  {
    assert forall i | 0 <= i < |a| :: a[i] == b[i] == c[i];
  }

  /** Concatenation is associative. */
  lemma {:induction false} Regroup<T>(a: seq<T>, b: seq<T>, c: seq<T>)
    ensures a + (b + c) == a + b + c
  {
  }

  lemma {:induction false} Units<T>(s: seq<T>)
    ensures [] + s == s && s + [] == s
  {
  }

  /** `k` steps from `s`. */
  function Iterate<S>(step: S -> S, s: S, k: nat): S {
    if k == 0 then s else step(Iterate(step, s, k - 1))
  }

  /** A measure that every step raises by one, up to `total`, reaches it in `total` steps. */
  lemma {:induction false} IterateReaches<S(!new)>(
      step: S -> S, at: (S, nat) -> bool, total: nat, s: S, done: nat, k: nat)
    returns (done': nat)
    requires at(s, done)
    requires forall x: S, d: nat {:trigger at(x, d), step(x)} | at(x, d) :: at(step(x), if d < total then d + 1 else d)
    ensures at(Iterate(step, s, k), done') && (done' >= total || k <= done')
  {
    done' := done;
    if k > 0 {
      done' := IterateReaches(step, at, total, s, done, k - 1);
      var x := Iterate(step, s, k - 1);
      assert at(step(x), if done' < total then done' + 1 else done');
      done' := if done' < total then done' + 1 else done';
    }
  }
}
