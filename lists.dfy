/** Sequence helpers shared by the table models and the view model: reversal and joining. */
module Lists {

  /** std::reverse on a copy: the last element first. */
  function Reversed<T>(s: seq<T>): (r: seq<T>)
    ensures |r| == |s|
    ensures forall i :: 0 <= i < |s| ==> r[i] == s[|s| - 1 - i]
  {
    if s == [] then [] else [s[|s| - 1]] + Reversed(s[..|s| - 1])
  }

  /** Reversing a concatenation reverses the order of the parts. */
  lemma ReversedAppend<T>(a: seq<T>, b: seq<T>)
    ensures Reversed(a + b) == Reversed(b) + Reversed(a)
  {
    var l, r := Reversed(a + b), Reversed(b) + Reversed(a);
    assert |l| == |r|;
    forall i | 0 <= i < |l| ensures l[i] == r[i] {
      if i < |b| {
        assert l[i] == (a + b)[|a| + |b| - 1 - i] == b[|b| - 1 - i];
      } else {
        assert l[i] == (a + b)[|a| + |b| - 1 - i] == a[|a| - 1 - (i - |b|)];
      }
    }
  }

  /** Prepending a batch one element at a time puts its last element first and shifts the old elements down. */
  lemma PrependedReversed<T>(batch: seq<T>, s: seq<T>)
    ensures |Reversed(batch) + s| == |batch| + |s|
    ensures forall i :: 0 <= i < |batch| ==> (Reversed(batch) + s)[i] == batch[|batch| - 1 - i]
    ensures forall i :: 0 <= i < |s| ==> (Reversed(batch) + s)[|batch| + i] == s[i]
  {
  }

  /** QStringList::join(""): the strings one after another. */
  function Concat(lines: seq<string>): string
  {
    if lines == [] then "" else Concat(lines[..|lines| - 1]) + lines[|lines| - 1]
  }

  /** Joining distributes over concatenation of the lists. */
  lemma {:induction false} ConcatAppend(a: seq<string>, b: seq<string>)
    ensures Concat(a + b) == Concat(a) + Concat(b)
    decreases |b|
  {
    if b != [] {
      var b' := b[..|b| - 1];
      assert (a + b)[..|a + b| - 1] == a + b';
      ConcatAppend(a, b');
    } else {
      assert a + b == a;
    }
  }
}
