/** Reference definitions for the counting passes of the MRDA metadata script:
    the running sum, the running maximum (started at 0) and the flattening
    of a list of lists. Each is defined left to right, one element at a
    time, the way the script's loops accumulate. */
module SeqStats {

  /** The sum of a sequence of counts. */
  function Sum(s: seq<nat>): (total: nat)
  {
    if |s| == 0 then 0 else Sum(s[..|s| - 1]) + s[|s| - 1]
  }

  /** The running maximum that starts at 0 and takes each element that is
      larger than the maximum so far. */
  function MaxOf(s: seq<nat>): (max: nat)
  {
    if |s| == 0 then 0
    else
      var m := MaxOf(s[..|s| - 1]);
      if s[|s| - 1] > m then s[|s| - 1] else m
  }

  /** The concatenation of all the inner sequences, in order. */
  function Flatten<T>(ss: seq<seq<T>>): (flat: seq<T>)
  {
    if |ss| == 0 then [] else Flatten(ss[..|ss| - 1]) + ss[|ss| - 1]
  }

  /** The length of each inner sequence. */
  function Lengths<T>(ss: seq<seq<T>>): (lens: seq<nat>)
  {
    seq(|ss|, i requires 0 <= i < |ss| => |ss[i]|)
  }

  /** `m` is the maximum of `s`, with 0 standing for the maximum of nothing. */
  ghost predicate IsMaximum(m: nat, s: seq<nat>)
  {
    && (forall i :: 0 <= i < |s| ==> s[i] <= m)
    && (|s| == 0 ==> m == 0)
    && (|s| > 0 ==> m in s)
  }

  /** The running maximum is the maximum: an upper bound of every element,
      one of the elements when there is one, and 0 otherwise. */
  lemma {:induction false} MaxOfIsMaximum(s: seq<nat>)
    ensures IsMaximum(MaxOf(s), s)
  {
    if |s| > 0 {
      var p := s[..|s| - 1];
      MaxOfIsMaximum(p);
      assert forall i :: 0 <= i < |p| ==> s[i] == p[i];
      if |p| > 0 {
        var k :| 0 <= k < |p| && p[k] == MaxOf(p);
        assert s[k] == MaxOf(p);
      }
    }
  }

  /** The two conditions of IsMaximum pin the maximum down. */
  lemma MaximumIsUnique(m1: nat, m2: nat, s: seq<nat>)
    requires IsMaximum(m1, s) && IsMaximum(m2, s)
    ensures m1 == m2
  {
    if |s| > 0 {
      var i :| 0 <= i < |s| && s[i] == m1;
      var j :| 0 <= j < |s| && s[j] == m2;
    }
  }

  /** The maximum of a concatenation is the larger of the two maxima. */
  lemma {:induction false} MaxOfAppend(a: seq<nat>, b: seq<nat>)
    ensures MaxOf(a + b) == if MaxOf(a) < MaxOf(b) then MaxOf(b) else MaxOf(a)
  {
    if |b| > 0 {
      var b' := b[..|b| - 1];
      assert (a + b)[..|a + b| - 1] == a + b';
      MaxOfAppend(a, b');
    } else {
      assert a + b == a;
    }
  }

  /** The sum of a concatenation is the sum of the two sums. */
  lemma {:induction false} SumAppend(a: seq<nat>, b: seq<nat>)
    ensures Sum(a + b) == Sum(a) + Sum(b)
  {
    if |b| > 0 {
      var b' := b[..|b| - 1];
      assert (a + b)[..|a + b| - 1] == a + b';
      SumAppend(a, b');
    } else {
      assert a + b == a;
    }
  }

  /** Extending a prefix by one inner sequence extends its flattening by
      that sequence. */
  lemma FlattenPrefix<T>(ss: seq<seq<T>>, i: nat)
    requires i < |ss|
    ensures Flatten(ss[..i + 1]) == Flatten(ss[..i]) + ss[i]
  {
    assert ss[..i + 1][..i] == ss[..i];
  }

  /** Flattening keeps every element: the flattened length is the sum of the
      inner lengths. */
  lemma {:induction false} FlattenLength<T>(ss: seq<seq<T>>)
    ensures |Flatten(ss)| == Sum(Lengths(ss))
  {
    if |ss| > 0 {
      var p := ss[..|ss| - 1];
      FlattenLength(p);
      assert Lengths(ss)[..|ss| - 1] == Lengths(p);
    }
  }

  /** The maximum over all elements of all inner sequences is the maximum of
      the inner sequences' maxima. */
  lemma {:induction false} MaxOfFlatten(ss: seq<seq<nat>>)
    ensures MaxOf(Flatten(ss)) == MaxOf(seq(|ss|, i requires 0 <= i < |ss| => MaxOf(ss[i])))
  {
    var maxima := seq(|ss|, i requires 0 <= i < |ss| => MaxOf(ss[i]));
    if |ss| > 0 {
      var p := ss[..|ss| - 1];
      MaxOfFlatten(p);
      assert maxima[..|ss| - 1] == seq(|p|, i requires 0 <= i < |p| => MaxOf(p[i]));
      MaxOfAppend(Flatten(p), ss[|ss| - 1]);
    }
  }

  /** A sum never exceeds the maximum times the number of elements, so a
      mean never exceeds the maximum. */
  lemma {:induction false} SumAtMostMaxTimesCount(s: seq<nat>)
    ensures Sum(s) <= MaxOf(s) * |s|
  {
    if |s| > 0 {
      var p := s[..|s| - 1];
      SumAtMostMaxTimesCount(p);
      var m, m' := MaxOf(p), MaxOf(s);
      assert m <= m';
      MulMonotone(m, m', |p|);
      assert m' * |s| == m' * |p| + m';
    }
  }

  lemma MulMonotone(a: nat, b: nat, n: nat)
    requires a <= b
    ensures a * n <= b * n
  {
  }
}
