/** The corpus line format `id|utterance|basic_label|general_label|full_label`
    and Python's `line.split("|")` on it: the pieces between separators, in
    order, with empty pieces kept and no limit on the number of pieces. */
module PipeSplit {

  const Pipe: char := '|'

  /** `s.split("|")`. There is always at least one piece. */
  function Split(s: string): (fields: seq<string>)
    ensures |fields| >= 1
  {
    if |s| == 0 then [""]
    else
      var rest := Split(s[1..]);
      if s[0] == Pipe then [""] + rest
      else [[s[0]] + rest[0]] + rest[1..]
  }

  /** `"|".join(fields)`. */
  function Join(fields: seq<string>): (line: string)
    requires |fields| >= 1
  {
    if |fields| == 1 then fields[0] else fields[0] + [Pipe] + Join(fields[1..])
  }

  /** Joining the pieces with the separator gives back the line. */
  lemma {:induction false} JoinSplit(s: string)
    ensures Join(Split(s)) == s
  {
    if |s| > 0 {
      var rest := Split(s[1..]);
      JoinSplit(s[1..]);
      if s[0] == Pipe {
        assert Split(s)[1..] == rest;
      } else if |rest| > 1 {
        assert Split(s)[1..] == rest[1..];
      }
    }
  }

  /** No piece contains the separator. */
  lemma {:induction false} SplitFieldsHaveNoPipe(s: string)
    ensures forall k :: 0 <= k < |Split(s)| ==> Pipe !in Split(s)[k]
  {
    if |s| > 0 {
      var rest := Split(s[1..]);
      SplitFieldsHaveNoPipe(s[1..]);
      if s[0] != Pipe {
        assert forall k :: 1 <= k < |Split(s)| ==> Split(s)[k] == rest[k];
      }
    }
  }

  /** There is one more piece than there are separators in the line; in
      particular, field 1 exists exactly when the line holds a `|`. */
  lemma {:induction false} SplitFieldCount(s: string)
    ensures |Split(s)| == multiset(s)[Pipe] + 1
    ensures |Split(s)| >= 2 <==> Pipe in s
  {
    if |s| > 0 {
      SplitFieldCount(s[1..]);
      assert s == [s[0]] + s[1..];
      assert multiset(s) == multiset{s[0]} + multiset(s[1..]);
    }
  }

  /** When the first `|` of `s` is at `j` (or there is none and `j` is the
      end), piece 0 is everything before it and the remaining pieces are
      the split of what follows it. */
  lemma {:induction false} SplitAtFirstPipe(s: string, j: nat)
    requires j <= |s| && Pipe !in s[..j] && (j == |s| || s[j] == Pipe)
    ensures Split(s)[0] == s[..j]
    ensures j == |s| ==> |Split(s)| == 1
    ensures j < |s| ==> Split(s)[1..] == Split(s[j + 1..])
  {
    if j > 0 {
      assert s[0] in s[..j];
      var t := s[1..];
      assert t[..j - 1] == s[1..j];
      SplitAtFirstPipe(t, j - 1);
      if j < |s| {
        assert t[j..] == s[j + 1..];
      }
      assert [s[0]] + s[1..j] == s[..j];
    } else if |s| > 0 {
      assert Split(s)[1..] == Split(s[1..]);
    }
  }

  /** Field 1 of a line is the text between its first and second `|`, or
      between its first `|` and the end when it has only one. */
  lemma SecondField(s: string, i: nat, j: nat)
    requires i < j <= |s| && s[i] == Pipe && Pipe !in s[..i]
    requires Pipe !in s[i + 1..j] && (j == |s| || s[j] == Pipe)
    ensures |Split(s)| >= 2 && Split(s)[1] == s[i + 1..j]
  {
    SplitAtFirstPipe(s, i);
    var t := s[i + 1..];
    assert t[..j - i - 1] == s[i + 1..j];
    SplitAtFirstPipe(t, j - i - 1);
  }

  /** Splitting a join of pieces without separators gives back the pieces,
      so splitting and joining are inverse bijections. */
  lemma {:induction false} SplitJoin(fields: seq<string>)
    requires |fields| >= 1
    requires forall k :: 0 <= k < |fields| ==> Pipe !in fields[k]
    ensures Split(Join(fields)) == fields
  {
    var s := Join(fields);
    if |fields| == 1 {
      assert s[..|s|] == s;
      SplitAtFirstPipe(s, |s|);
    } else {
      var j := |fields[0]|;
      var tail := Join(fields[1..]);
      assert s == fields[0] + [Pipe] + tail;
      assert s[..j] == fields[0];
      assert s[j + 1..] == tail;
      SplitAtFirstPipe(s, j);
      SplitJoin(fields[1..]);
      assert Split(s) == [Split(s)[0]] + Split(s)[1..];
    }
  }
}
