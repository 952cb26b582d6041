/** The word-frequency table of the MRDA metadata script: a mapping from
    each distinct token to the number of times it occurs, built by one pass
    over the flattened token sequence (gluonnlp's `count_tokens` with its
    default of no lower-casing). */
module TokenCount {

  /** The sum of all counts in a frequency table. */
  ghost function Total(freq: map<string, nat>): (total: nat)
    decreases |freq|
  {
    if freq == map[] then 0
    else
      var t :| t in freq;
      assert |freq.Keys - {t}| < |freq.Keys|;
      freq[t] + Total(freq - {t})
  }

  /** Any one entry can be taken out of the total first. */
  lemma {:induction false} TotalRemove(freq: map<string, nat>, t: string)
    requires t in freq
    ensures Total(freq) == freq[t] + Total(freq - {t})
    decreases |freq|
  {
    var u :| u in freq && Total(freq) == freq[u] + Total(freq - {u});
    if u != t {
      assert |(freq - {u}).Keys| < |freq.Keys| by {
        assert (freq - {u}).Keys == freq.Keys - {u};
      }
      assert |(freq - {t}).Keys| < |freq.Keys| by {
        assert (freq - {t}).Keys == freq.Keys - {t};
      }
      TotalRemove(freq - {u}, t);
      TotalRemove(freq - {t}, u);
      assert freq - {u} - {t} == freq - {t} - {u};
    }
  }

  /** Counting one more occurrence of a token adds one to the total. */
  lemma TotalCountOne(freq: map<string, nat>, t: string)
    ensures Total(freq[t := if t in freq then freq[t] + 1 else 1]) == Total(freq) + 1
  {
    var freq' := freq[t := if t in freq then freq[t] + 1 else 1];
    TotalRemove(freq', t);
    if t in freq {
      TotalRemove(freq, t);
      assert freq' - {t} == freq - {t};
    } else {
      assert freq' - {t} == freq;
    }
  }

  /** Counts the tokens: the table holds exactly the tokens that occur, each
      with its number of occurrences, so the counts add up to the number of
      tokens. */
  method CountTokens(tokens: seq<string>) returns (freq: map<string, nat>)
    ensures forall t :: t in freq <==> t in tokens
    ensures forall t :: t in freq ==> freq[t] == multiset(tokens)[t] && freq[t] >= 1
    ensures Total(freq) == |tokens|
  {
    freq := map[];
    var i := 0;
    while i < |tokens|
      invariant 0 <= i <= |tokens|
      invariant forall t :: t in freq <==> t in tokens[..i]
      invariant forall t :: t in freq ==> freq[t] == multiset(tokens[..i])[t]
      invariant Total(freq) == i
    {
      var t := tokens[i];
      assert tokens[..i + 1] == tokens[..i] + [t];
      TotalCountOne(freq, t);
      freq := freq[t := if t in freq then freq[t] + 1 else 1];
      i := i + 1;
    }
    assert tokens[..i] == tokens;
  }
}
