/** Vocabulary shared by every service model. */
module Basics {

  datatype Option<+T> = None | Some(value: T)

  datatype Result<+T, +E> = Ok(value: T) | Err(error: E)

  /** Times are whole microseconds, the precision at which Postgres stores them. */
  type Time = int

  /** What a remote call whose effect lives in another service did, and what its caller learned. */
  datatype CallOutcome =
    | Answered      // the call took effect and the reply arrived
    | Unreachable   // no effect, an error at the caller
    | ReplyLost     // the call took effect, but the caller sees an error

  /** An injection maps a finite set onto a set of the same size. */
  lemma {:induction false} InjectionKeepsSize<A, B>(from: set<A>, to: set<B>, f: map<A, B>)
    requires from <= f.Keys
    requires forall a, b | a in from && b in from && f[a] == f[b] :: a == b
    requires to == set a | a in from :: f[a]
    ensures |from| == |to|
  {
    if from == {} {
      assert to == {};
    } else {
      var a :| a in from;
      var rest := from - {a};
      assert to - {f[a]} == set b | b in rest :: f[b];
      InjectionKeepsSize(rest, to - {f[a]}, f);
      assert f[a] in to;
    }
  }

  lemma {:induction false} SubsetSize<A>(small: set<A>, big: set<A>)
    requires small <= big
    ensures |small| <= |big|
  {
    if small != {} {
      var a :| a in small;
      SubsetSize(small - {a}, big - {a});
    }
  }

  ghost function Pick<A>(s: set<A>): (a: A)
    requires |s| > 0
    ensures a in s
  {
    var a :| a in s; a
  }

  predicate IsLeast(m: int, s: set<int>) {
    m in s && forall x | x in s :: m <= x
  }

  lemma {:induction false} LeastExists(s: set<int>)
    requires |s| > 0
    ensures exists m :: IsLeast(m, s)
    decreases |s|
  {
    var a := Pick(s);
    var rest := s - {a};
    if |rest| == 0 {
      assert IsLeast(a, s) by {
        forall x | x in s ensures a <= x { assert x == a || x in rest; }
      }
    } else {
      LeastExists(rest);
      var m :| IsLeast(m, rest);
      var least := if a <= m then a else m;
      assert IsLeast(least, s) by {
        forall x | x in s ensures least <= x { assert x == a || x in rest; }
      }
    }
  }

  /** The elements of a set of ids in ascending order: what `ORDER BY id` returns. */
  ghost function Ascending(s: set<int>): (r: seq<int>)
    ensures forall x :: x in r <==> x in s
    ensures forall i, j | 0 <= i < j < |r| :: r[i] < r[j]
    decreases |s|
  {
    if s == {} then []
    else
      LeastExists(s);
      var m :| IsLeast(m, s);
      [m] + Ascending(s - {m})
  }

  lemma AscendingTakesLeast(s: set<int>, m: int)
    requires IsLeast(m, s)
    ensures Ascending(s) == [m] + Ascending(s - {m})
  {
    var first :| IsLeast(first, s) && Ascending(s) == [first] + Ascending(s - {first});
  }

  /** `part` is what is left of `whole` after deleting some of its elements. */
  predicate Subsequence<T(==)>(part: seq<T>, whole: seq<T>)
  {
    if whole == [] then part == []
    else
      || Subsequence(part, whole[..|whole| - 1])
      || (part != [] && part[|part| - 1] == whole[|whole| - 1]
          && Subsequence(part[..|part| - 1], whole[..|whole| - 1]))
  }
}
