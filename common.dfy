/** Small shared definitions: Python's `min` on naturals, and sums and
    multiset unions of a per-element measure over a sequence, with the
    facts the scheduler proofs use about them. */
module Common {

  /** Python's `min` on two naturals. */
  function Min(a: nat, b: nat): (m: nat)
    ensures m <= a && m <= b
    ensures m == a || m == b
  {
    if a <= b then a else b
  }

  /** Sum of the weight `f` over the elements of `s`. */
  function Total<T>(s: seq<T>, f: T -> nat): nat
  {
    if s == [] then 0 else f(s[0]) + Total(s[1..], f)
  }

  /** Union of the multisets `f` assigns to the elements of `s`. */
  function Gather<T, U>(s: seq<T>, f: T -> multiset<U>): multiset<U>
  {
    if s == [] then multiset{} else f(s[0]) + Gather(s[1..], f)
  }

  /** Concatenation of the sequences `f` assigns to the elements of `s`, in order. */
  function Flatten<T, U>(s: seq<T>, f: T -> seq<U>): seq<U>
  {
    if s == [] then [] else f(s[0]) + Flatten(s[1..], f)
  }

  lemma {:induction false} FlattenAppend<T, U>(s: seq<T>, t: seq<T>, f: T -> seq<U>)
    ensures Flatten(s + t, f) == Flatten(s, f) + Flatten(t, f)
  {
    if s == [] {
      assert s + t == t;
    } else {
      assert (s + t)[1..] == s[1..] + t;
      FlattenAppend(s[1..], t, f);
    }
  }

  lemma Singletons<T, U, V>(x: T, f: T -> nat, g: T -> multiset<U>, h: T -> seq<V>)
    ensures Total([x], f) == f(x) && Gather([x], g) == g(x) && Flatten([x], h) == h(x)
  {
    assert [x][1..] == [];
  }

  lemma {:induction false} TotalAppend<T>(s: seq<T>, t: seq<T>, f: T -> nat)
    ensures Total(s + t, f) == Total(s, f) + Total(t, f)
  {
    if s == [] {
      assert s + t == t;
    } else {
      assert (s + t)[1..] == s[1..] + t;
      TotalAppend(s[1..], t, f);
    }
  }

  lemma {:induction false} GatherAppend<T, U>(s: seq<T>, t: seq<T>, f: T -> multiset<U>)
    ensures Gather(s + t, f) == Gather(s, f) + Gather(t, f)
  {
    if s == [] {
      assert s + t == t;
    } else {
      assert (s + t)[1..] == s[1..] + t;
      GatherAppend(s[1..], t, f);
    }
  }

  /** Replacing one element changes the sum by exactly the difference of
      the two weights. */
  lemma {:induction false} TotalUpdate<T>(s: seq<T>, i: nat, x: T, f: T -> nat)
    requires i < |s|
    ensures Total(s[i := x], f) + f(s[i]) == Total(s, f) + f(x)
  {
    if i == 0 {
      assert s[i := x][1..] == s[1..];
    } else {
      assert s[i := x][1..] == s[1..][i - 1 := x];
      TotalUpdate(s[1..], i - 1, x, f);
    }
  }

  lemma {:induction false} GatherUpdate<T, U>(s: seq<T>, i: nat, x: T, f: T -> multiset<U>)
    requires i < |s|
    ensures Gather(s[i := x], f) + f(s[i]) == Gather(s, f) + f(x)
    ensures f(s[i]) == f(x) ==> Gather(s[i := x], f) == Gather(s, f)
  {
    if i == 0 {
      assert s[i := x][1..] == s[1..];
    } else {
      var t := s[i := x];
      assert t[0] == s[0] && t[1..] == s[1..][i - 1 := x];
      GatherUpdate(s[1..], i - 1, x, f);
      assert s[1..][i - 1] == s[i];
      calc {
        Gather(t, f) + f(s[i]);
        f(s[0]) + Gather(s[1..][i - 1 := x], f) + f(s[i]);
        f(s[0]) + (Gather(s[1..][i - 1 := x], f) + f(s[1..][i - 1]));
        f(s[0]) + (Gather(s[1..], f) + f(x));
        Gather(s, f) + f(x);
      }
    }
  }

  /** Each element's weight is at most the sum. */
  lemma {:induction false} TotalAtLeast<T>(s: seq<T>, f: T -> nat, j: nat)
    requires j < |s|
    ensures f(s[j]) <= Total(s, f)
  {
    if j > 0 {
      TotalAtLeast(s[1..], f, j - 1);
    }
  }

  /** With 0/1 weights the sum is at most the length. */
  lemma {:induction false} TotalAtMostLength<T>(s: seq<T>, f: T -> nat)
    requires forall x :: f(x) <= 1
    ensures Total(s, f) <= |s|
  {
    if s != [] {
      TotalAtMostLength(s[1..], f);
    }
  }

  /** With 0/1 weights, a sum equal to the length means every weight is 1. */
  lemma {:induction false} TotalFull<T>(s: seq<T>, f: T -> nat, j: nat)
    requires forall x :: f(x) <= 1
    requires Total(s, f) == |s| && j < |s|
    ensures f(s[j]) == 1
  {
    TotalAtMostLength(s[1..], f);
    if j > 0 {
      TotalFull(s[1..], f, j - 1);
    }
  }

  /** With 0/1 weights, a sum below the length exhibits an element of weight 0. */
  lemma {:induction false} TotalShort<T>(s: seq<T>, f: T -> nat) returns (j: nat)
    requires forall x :: f(x) <= 1
    requires Total(s, f) < |s|
    ensures j < |s| && f(s[j]) == 0
  {
    if f(s[0]) == 0 {
      j := 0;
    } else {
      var k := TotalShort(s[1..], f);
      j := k + 1;
    }
  }

  /** A positive sum exhibits an element of positive weight. */
  lemma {:induction false} TotalPositive<T>(s: seq<T>, f: T -> nat) returns (j: nat)
    requires Total(s, f) > 0
    ensures j < |s| && f(s[j]) > 0
  {
    if f(s[0]) > 0 {
      j := 0;
    } else {
      var k := TotalPositive(s[1..], f);
      j := k + 1;
    }
  }

  /** If every element has weight 0 the sum is 0. */
  lemma {:induction false} TotalOfZeros<T>(s: seq<T>, f: T -> nat)
    requires forall j :: 0 <= j < |s| ==> f(s[j]) == 0
    ensures Total(s, f) == 0
  {
    if s != [] {
      TotalOfZeros(s[1..], f);
    }
  }

  /** If every element has weight 1 the sum is the length. */
  lemma {:induction false} TotalOfOnes<T>(s: seq<T>, f: T -> nat)
    requires forall j :: 0 <= j < |s| ==> f(s[j]) == 1
    ensures Total(s, f) == |s|
  {
    if s != [] {
      TotalOfOnes(s[1..], f);
    }
  }

  /** If every element contributes nothing the union is empty. */
  lemma {:induction false} GatherOfEmpties<T, U>(s: seq<T>, f: T -> multiset<U>)
    requires forall j :: 0 <= j < |s| ==> f(s[j]) == multiset{}
    ensures Gather(s, f) == multiset{}
  {
    if s != [] {
      GatherOfEmpties(s[1..], f);
    }
  }
}
