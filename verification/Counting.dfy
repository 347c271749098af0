/** Sums over sequences, with the one fact every protocol step needs: replacing
    one element changes the sum by exactly the difference of the two summands. */
module Counting {

  function Sum<T>(f: T -> nat, s: seq<T>): nat {
    if s == [] then 0 else f(s[0]) + Sum(f, s[1..])
  }

  lemma {:induction false} SumUpdate<T>(f: T -> nat, s: seq<T>, i: nat, x: T)
    requires i < |s|
    ensures Sum(f, s[i := x]) + f(s[i]) == Sum(f, s) + f(x)
  {
    if i > 0 {
      assert s[i := x][1..] == s[1..][i - 1 := x];
      SumUpdate(f, s[1..], i - 1, x);
    } else {
      assert s[i := x][1..] == s[1..];
    }
  }

  lemma {:induction false} SumAppend<T>(f: T -> nat, s: seq<T>, x: T)
    ensures Sum(f, s + [x]) == Sum(f, s) + f(x)
  {
    if s == [] {
      assert (s + [x])[1..] == [];
    } else {
      assert (s + [x])[1..] == s[1..] + [x];
      SumAppend(f, s[1..], x);
    }
  }

  lemma {:induction false} SumMember<T>(f: T -> nat, s: seq<T>, i: nat)
    requires i < |s|
    ensures f(s[i]) <= Sum(f, s)
  {
    if i > 0 { SumMember(f, s[1..], i - 1); }
  }

  /** Two different positions contribute side by side. */
  lemma {:induction false} SumTwo<T>(f: T -> nat, s: seq<T>, i: nat, j: nat)
    requires i < j < |s|
    ensures f(s[i]) + f(s[j]) <= Sum(f, s)
  {
    if i > 0 {
      SumTwo(f, s[1..], i - 1, j - 1);
    } else {
      SumMember(f, s[1..], j - 1);
    }
  }

  lemma {:induction false} SumNone<T>(f: T -> nat, s: seq<T>)
    requires forall i :: 0 <= i < |s| ==> f(s[i]) == 0
    ensures Sum(f, s) == 0
  {
    if s != [] { SumNone(f, s[1..]); }
  }

  lemma {:induction false} SumBound<T>(f: T -> nat, s: seq<T>, b: nat)
    requires forall i :: 0 <= i < |s| ==> f(s[i]) <= b
    ensures Sum(f, s) <= b * |s|
  {
    if s != [] {
      SumBound(f, s[1..], b);
      assert b * |s| == b * |s[1..]| + b;
    }
  }

  /** A sum with one possible contributor. */
  lemma {:induction false} SumOnlyAt<T>(f: T -> nat, s: seq<T>, j: nat)
    requires j < |s|
    requires forall i :: 0 <= i < |s| && i != j ==> f(s[i]) == 0
    ensures Sum(f, s) == f(s[j])
  {
    if j == 0 { SumNone(f, s[1..]); } else { SumOnlyAt(f, s[1..], j - 1); }
  }

  lemma {:induction false} SumPositive<T>(f: T -> nat, s: seq<T>) returns (i: nat)
    requires Sum(f, s) > 0
    ensures i < |s| && f(s[i]) > 0
  {
    if f(s[0]) > 0 { i := 0; } else { i := SumPositive(f, s[1..]); i := i + 1; }
  }

  function Same<T(==)>(x: T): T -> nat { y => if y == x then 1 else 0 }

  /** Counting the occurrences of one value gives its multiplicity. */
  lemma {:induction false} SumSameIsMultiplicity<T>(x: T, s: seq<T>)
    ensures Sum(Same(x), s) == multiset(s)[x]
  {
    if s != [] {
      assert s == [s[0]] + s[1..];
      SumSameIsMultiplicity(x, s[1..]);
    }
  }
}
