/** Vocabulary shared by every module: optional values, results, and sequences read as sets. */
module Prelude {

  datatype Option<+T> = None | Some(value: T)

  datatype Result<+T, +E> = Success(value: T) | Failure(error: E)

  newtype Byte = b: int | 0 <= b < 256

  /** Text as the bytes of its UTF-8 encoding. */
  type Bytes = seq<Byte>

  ghost function Elems<T>(s: seq<T>): set<T> {
    set x | x in s
  }

  ghost predicate NoDup<T>(s: seq<T>) {
    forall i, j | 0 <= i < j < |s| :: s[i] != s[j]
  }

  ghost function Below(n: nat): (r: set<nat>)
    ensures forall t: nat :: t in r <==> t < n
  {
    if n == 0 then {} else Below(n - 1) + {n - 1}
  }

  ghost function Flatten<T>(rows: seq<seq<T>>): seq<T> {
    if rows == [] then [] else Flatten(rows[..|rows| - 1]) + rows[|rows| - 1]
  }

  lemma {:induction false} BelowSize(n: nat)
    ensures |Below(n)| == n
  {
    if n > 0 {
      BelowSize(n - 1);
    }
  }

  lemma {:induction false} NoDupSize<T>(s: seq<T>)
    requires NoDup(s)
    ensures |Elems(s)| == |s|
  {
    if s != [] {
      var init, last := s[..|s| - 1], s[|s| - 1];
      NoDupSize(init);
      assert Elems(s) == Elems(init) + {last};
    }
  }

  lemma SubsetSize<T>(a: set<T>, b: set<T>)
    requires a <= b
    ensures |a| <= |b|
  {
    assert b == a + (b - a);
  }

  /** The pigeonhole principle: more than `n` numbers below `n` repeat one. */
  lemma Pigeonhole(s: seq<nat>, n: nat) returns (i: nat, j: nat)
    requires |s| > n
    requires forall k | 0 <= k < |s| :: s[k] < n
    ensures i < j < |s| && s[i] == s[j]
  {
    if NoDup(s) {
      NoDupSize(s);
      BelowSize(n);
      SubsetSize(Elems(s), Below(n));
      assert false;
    }
    i, j :| 0 <= i < j < |s| && s[i] == s[j];
  }

  // ----- Permutations -----

  /** The elements of a sequence with their multiplicities: two sequences are permutations when their bags agree. */
  ghost function Bag<T>(s: seq<T>): multiset<T> {
    multiset(s)
  }

  lemma BagConcat<T>(a: seq<T>, b: seq<T>)
    ensures Bag(a + b) == Bag(a) + Bag(b)
  {
  }

  lemma BagSize<T>(s: seq<T>)
    ensures |Bag(s)| == |s|
  {
  }

  lemma BagCancel<T>(a: multiset<T>, b: multiset<T>, x: multiset<T>)
    requires a + x == b + x
    ensures a == b
  {
    assert a == (a + x) - x;
  }

  lemma BagFind<T>(s: seq<T>, x: T) returns (j: nat)
    requires x in Bag(s)
    ensures j < |s| && s[j] == x
  {
    j :| 0 <= j < |s| && s[j] == x;
  }

  /** Taking one occurrence of an element out of a sequence. */
  lemma BagRemove<T>(s: seq<T>, j: nat)
    requires j < |s|
    ensures Bag(s) == Bag(s[..j]) + Bag(s[j + 1..]) + Bag([s[j]])
  {
    assert s == s[..j] + ([s[j]] + s[j + 1..]);
    BagConcat(s[..j], [s[j]] + s[j + 1..]);
    BagConcat([s[j]], s[j + 1..]);
  }
}
