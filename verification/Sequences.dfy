/** Facts about sequences, stated once where the solver has nothing else to look at. */
module Sequences {

  lemma TakeDrop<T>(s: seq<T>, n: nat)
    requires n <= |s|
    ensures s[..n] + s[n..] == s
  {
  }

  lemma HeadTail<T>(s: seq<T>)
    requires s != []
    ensures s == [s[0]] + s[1..]
  {
  }

  lemma ConsAt<T>(x: T, xs: seq<T>, i: nat)
    requires i <= |xs|
    ensures ([x] + xs)[i] == if i == 0 then x else xs[i - 1]
  {
  }

  lemma ConsAppend<T>(a: seq<T>, b: seq<T>)
    requires a != []
    ensures a + b == [a[0]] + (a[1..] + b)
  {
  }

  lemma SplitAfter<T>(a: seq<T>, b: seq<T>, c: seq<T>, whole: seq<T>)
    requires whole == a + c && a + b <= whole
    ensures b <= c && whole == (a + b) + c[|b|..]
  {
    assert whole[|a|..] == c;
    assert (a + b)[|a|..] == b;
  }

  lemma EmptyFirst<T>(s: seq<T>)
    ensures [] + s == s
  {
  }

  lemma TakeSnoc<T>(s: seq<T>, i: nat)
    requires i < |s|
    ensures s[..i] + [s[i]] == s[..i + 1]
  {
  }

  lemma SnocFront<T>(s: seq<T>, x: T)
    ensures (s + [x])[..|s|] == s
  {
  }
}
