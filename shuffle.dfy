/** `random.shuffle` as the scrapers use it: the Fisher-Yates loop of
    Python's `random` module, walking `i` from the last index down to 1 and
    swapping position `i` with a drawn position `j <= i`. The random source
    is a parameter: `draw(i) % (i + 1)` stands for `randbelow(i + 1)`. */
module Shuffling {

  /** The list with the items at `i` and `j` exchanged. */
  function Swap<T>(s: seq<T>, i: nat, j: nat): (r: seq<T>)
    requires i < |s| && j < |s|
    ensures |r| == |s| && r[i] == s[j] && r[j] == s[i]
    ensures forall k :: 0 <= k < |s| && k != i && k != j ==> r[k] == s[k]
  {
    s[i := s[j]][j := s[i]]
  }

  /** The swaps for positions `i` down to 1. */
  function ShuffleDown<T>(s: seq<T>, draw: nat -> nat, i: nat): seq<T>
    requires i < |s|
    decreases i
  {
    if i == 0 then s else ShuffleDown(Swap(s, i, draw(i) % (i + 1)), draw, i - 1)
  }

  /** The order `random.shuffle` leaves a list in, for a given random source. */
  function Shuffled<T>(s: seq<T>, draw: nat -> nat): seq<T> {
    if |s| <= 1 then s else ShuffleDown(s, draw, |s| - 1)
  }

  lemma SwapPermutes<T>(s: seq<T>, i: nat, j: nat)
    requires i < |s| && j < |s|
    ensures multiset(Swap(s, i, j)) == multiset(s)
  {
    var t := s[i := s[j]];
    assert multiset(t) == multiset(s) - multiset{s[i]} + multiset{s[j]};
    assert t[j] == (if i == j then s[j] else s[j]);
  }

  lemma {:induction false} ShuffleDownPermutes<T>(s: seq<T>, draw: nat -> nat, i: nat)
    requires i < |s|
    ensures |ShuffleDown(s, draw, i)| == |s|
    ensures multiset(ShuffleDown(s, draw, i)) == multiset(s)
    decreases i
  {
    if i > 0 {
      SwapPermutes(s, i, draw(i) % (i + 1));
      ShuffleDownPermutes(Swap(s, i, draw(i) % (i + 1)), draw, i - 1);
    }
  }

  /** Whatever the random source, the shuffled list is a permutation of the original. */
  lemma ShuffledPermutes<T>(s: seq<T>, draw: nat -> nat)
    ensures |Shuffled(s, draw)| == |s|
    ensures multiset(Shuffled(s, draw)) == multiset(s)
  {
    if |s| > 1 {
      ShuffleDownPermutes(s, draw, |s| - 1);
    }
  }

  /** The in-place loop. */
  method Shuffle<T>(a: array<T>, draw: nat -> nat)
    modifies a
    ensures a[..] == Shuffled(old(a[..]), draw)
  {
    if a.Length <= 1 {
      return;
    }
    var i := a.Length - 1;
    while i >= 1
      invariant 0 <= i < a.Length
      invariant ShuffleDown(a[..], draw, i) == Shuffled(old(a[..]), draw)
      decreases i
    {
      var j := draw(i) % (i + 1);
      ghost var before := a[..];
      a[i], a[j] := a[j], a[i];
      assert a[..] == Swap(before, i, j);
      i := i - 1;
    }
  }

  /** `random.shuffle` on a list value: the list is copied into an array,
      shuffled in place, and read back. */
  method ShuffleList<T>(s: seq<T>, draw: nat -> nat) returns (r: seq<T>)
    ensures r == Shuffled(s, draw)
    ensures multiset(r) == multiset(s) && |r| == |s|
  {
    if |s| == 0 {
      return s;
    }
    var a := new T[|s|](k requires 0 <= k < |s| => s[k]);
    assert a[..] == s;
    Shuffle(a, draw);
    r := a[..];
    ShuffledPermutes(s, draw);
  }
}
