/** The two worked examples of the MRDA metadata run: a three-line corpus
    and a single non-empty split. Each lemma shows that the properties the
    counting passes establish pin the recorded values down completely. */
module MrdaExamples {
  import opened SeqStats
  import PipeSplit
  import opened MrdaMetadata

  /** A train split of two dialogues with 5 and 3 lines and empty test and
      val splits: two dialogues, the longest has 5 lines, the mean is 8 / 2. */
  lemma DialogueStatsExample(d: DialogueStats)
    requires DialogueStatsHold([5, 3], [], [], d)
    ensures d.splits[0] == SplitStats("train", 2, 5)
    ensures d.splits[1] == SplitStats("test", 0, 0) && d.splits[2] == SplitStats("val", 0, 0)
    ensures d.numDialogues == 2 && d.maxDialoguesLen == 5 && d.meanDialoguesLen == Mean(8, 2)
  {
    var all: seq<nat> := [5, 3] + [] + [];
    assert all == [5, 3];
    assert all[..1] == [5];
    assert MaxOf(all) == 5;
    assert Sum(all) == 8;
  }

  /** `line` is a corpus line, with fields free of `|`, whose utterance is
      `utterance`. */
  ghost predicate IsCorpusLineOf(line: string, utterance: string)
  {
    exists id, basic, general, full ::
      && PipeSplit.Pipe !in id && PipeSplit.Pipe !in utterance
      && PipeSplit.Pipe !in basic && PipeSplit.Pipe !in general && PipeSplit.Pipe !in full
      && line == CorpusLine(id, utterance, basic, general, full)
  }

  lemma UtteranceOfCorpusLine(line: string, utterance: string)
    requires IsCorpusLineOf(line, utterance)
    ensures PipeSplit.Pipe in line
    ensures |PipeSplit.Split(line)| >= 2 && PipeSplit.Split(line)[1] == utterance
  {
    var id, basic, general, full :|
      && PipeSplit.Pipe !in id && PipeSplit.Pipe !in utterance
      && PipeSplit.Pipe !in basic && PipeSplit.Pipe !in general && PipeSplit.Pipe !in full
      && line == CorpusLine(id, utterance, basic, general, full);
    CorpusLineFields(id, utterance, basic, general, full);
  }

  /** A corpus shaped like `1|hi there|z|a|x`, `2|hi|z|a|x`, `3|bye|z|b|y`
      (any ids, labels and words will do): the first utterance tokenises to
      two distinct words, the second to the first of them again, the third to
      a third word. */
  ghost predicate IsExampleCorpus(lines: seq<string>, tokenise: string -> seq<string>,
                                  hi: string, there: string, bye: string)
  {
    && |lines| == 3
    && hi != there && hi != bye && there != bye
    && (exists u0 :: IsCorpusLineOf(lines[0], u0) && tokenise(u0) == [hi, there])
    && (exists u1 :: IsCorpusLineOf(lines[1], u1) && tokenise(u1) == [hi])
    && (exists u2 :: IsCorpusLineOf(lines[2], u2) && tokenise(u2) == [bye])
  }

  /** The example corpus tokenises to 2, 1 and 1 tokens. */
  lemma ExampleTokenised(lines: seq<string>, tokenise: string -> seq<string>,
                         hi: string, there: string, bye: string)
    requires IsExampleCorpus(lines, tokenise, hi, there, bye)
    ensures AllHaveUtterance(lines)
    ensures Tokenised(Utterances(lines), tokenise) == [[hi, there], [hi], [bye]]
  {
    var u0 :| IsCorpusLineOf(lines[0], u0) && tokenise(u0) == [hi, there];
    var u1 :| IsCorpusLineOf(lines[1], u1) && tokenise(u1) == [hi];
    var u2 :| IsCorpusLineOf(lines[2], u2) && tokenise(u2) == [bye];
    UtteranceOfCorpusLine(lines[0], u0);
    UtteranceOfCorpusLine(lines[1], u1);
    UtteranceOfCorpusLine(lines[2], u2);
    UtterancesOfThree(lines, u0, u1, u2);
  }

  lemma UtterancesOfThree(lines: seq<string>, u0: string, u1: string, u2: string)
    requires |lines| == 3
    requires |PipeSplit.Split(lines[0])| >= 2 && PipeSplit.Split(lines[0])[1] == u0
    requires |PipeSplit.Split(lines[1])| >= 2 && PipeSplit.Split(lines[1])[1] == u1
    requires |PipeSplit.Split(lines[2])| >= 2 && PipeSplit.Split(lines[2])[1] == u2
    ensures AllHaveUtterance(lines) && Utterances(lines) == [u0, u1, u2]
  {
    forall k | 0 <= k < |lines| ensures PipeSplit.Pipe in lines[k] {
      PipeSplit.SplitFieldCount(lines[k]);
    }
  }

  /** A table keyed by exactly the words of the example has three entries. */
  lemma ThreeWords(freq: map<string, nat>, hi: string, there: string, bye: string)
    requires hi != there && hi != bye && there != bye
    requires forall t :: t in freq <==> t in [hi, there, hi, bye]
    ensures |freq| == 3
  {
    assert freq.Keys == {hi, there, bye};
    assert |{hi, there, bye}| == 3;
  }

  /** The example's words, their lengths, maximum and sum. */
  lemma ExampleCounts(hi: string, there: string, bye: string)
    ensures Flatten([[hi, there], [hi], [bye]]) == [hi, there, hi, bye]
    ensures MaxOf(Lengths([[hi, there], [hi], [bye]])) == 2
    ensures Sum(Lengths([[hi, there], [hi], [bye]])) == 4
  {
    var ts := [[hi, there], [hi], [bye]];
    assert ts[..2] == [[hi, there], [hi]] && ts[..2][..1] == [[hi, there]];
    assert ts[..2][..1][..0] == [];
    assert Flatten(ts[..2][..1]) == [hi, there];
    assert Flatten(ts[..2]) == [hi, there, hi];
    var lens: seq<nat> := [2, 1, 1];
    assert Lengths(ts) == lens;
    assert lens[..2] == [2, 1] && [2, 1][..1] == [2] && [2][..0] == [];
    assert MaxOf([2]) == 2 && Sum([2]) == 2;
    assert MaxOf([2, 1]) == 2 && Sum([2, 1]) == 3;
  }

  /** On the example corpus: three utterances of 2, 1 and 1 tokens, a mean
      of 4 / 3, and three distinct words, the repeated one counted twice.
      The vocabulary size recorded is the number of distinct words, 3. */
  lemma CorpusStatsExample(lines: seq<string>, tokenise: string -> seq<string>, c: CorpusStats,
                           hi: string, there: string, bye: string)
    requires IsExampleCorpus(lines, tokenise, hi, there, bye)
    requires AllHaveUtterance(lines) && CorpusStatsHold(lines, tokenise, c)
    ensures c.numUtterances == 3 && c.maxUtteranceLen == 2 && c.meanUtteranceLen == Mean(4, 3)
    ensures c.vocabularySize == 3 && c.wordFreq == map[hi := 2, there := 1, bye := 1]
  {
    ExampleTokenised(lines, tokenise, hi, there, bye);
    ExampleCounts(hi, there, bye);
    var ts := [[hi, there], [hi], [bye]];
    var words := [hi, there, hi, bye];
    assert IsMaximum(c.maxUtteranceLen, Lengths(ts));
    MaxOfIsMaximum(Lengths(ts));
    MaximumIsUnique(c.maxUtteranceLen, 2, Lengths(ts));
    ThreeWords(c.wordFreq, hi, there, bye);
    assert multiset(words)[hi] == 2 && multiset(words)[there] == 1 && multiset(words)[bye] == 1;
    assert c.wordFreq.Keys == {hi, there, bye};
  }
}
