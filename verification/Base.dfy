// Stock types and the sequence functions every other module counts and filters with.

module Base {

  datatype Option<+T> = None | Some(value: T)

  datatype Result<+T, +E> = Ok(value: T) | Err(error: E)

  function Max(a: int, b: int): int { if a < b then b else a }

  /** Sum of `f` over a sequence; with a 0/1 valued `f` it counts. */
  function Sum<T>(f: T -> nat, s: seq<T>): nat {
    if s == [] then 0 else f(s[0]) + Sum(f, s[1..])
  }

  lemma {:induction false} SumAppend<T>(f: T -> nat, s: seq<T>, t: seq<T>)
    ensures Sum(f, s + t) == Sum(f, s) + Sum(f, t)
  {
    if s == [] {
      assert s + t == t;
    } else {
      SumAppend(f, s[1..], t);
      assert (s + t)[1..] == s[1..] + t;
    }
  }

  lemma {:induction false} SumPush<T>(f: T -> nat, s: seq<T>, x: T)
    ensures Sum(f, s + [x]) == Sum(f, s) + f(x)
  {
    SumAppend(f, s, [x]);
    assert Sum(f, [x]) == f(x) + Sum(f, []);
  }

  lemma SumUpdate<T>(f: T -> nat, s: seq<T>, i: nat, x: T)
    requires i < |s|
    ensures f(s[i]) <= Sum(f, s)
    ensures Sum(f, s[i := x]) == Sum(f, s) - f(s[i]) + f(x)
  {
    var l, r := s[..i], s[i + 1..];
    assert s == (l + [s[i]]) + r && s[i := x] == (l + [x]) + r;
    SumAppend(f, l + [s[i]], r);
    SumAppend(f, l + [x], r);
    SumPush(f, l, s[i]);
    SumPush(f, l, x);
  }

  lemma {:induction false} SumZero<T>(f: T -> nat, s: seq<T>)
    requires forall x :: x in s ==> f(x) == 0
    ensures Sum(f, s) == 0
  {
    if s != [] { SumZero(f, s[1..]); }
  }
}
