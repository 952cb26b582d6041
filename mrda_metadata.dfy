/** The counting passes of the MRDA metadata script, mrda_metadata.py.

    The script runs once, top to bottom. It extracts one utterance per
    corpus line, tokenises every utterance while keeping a running maximum
    and a running sum of token counts, counts the word frequencies, and then
    walks the train, test and val splits, keeping per-split and overall
    dialogue counts, maxima and a sum of dialogue lengths. Everything it
    computes goes into one metadata record.

    File loading is outside the model: the corpus is given as its lines and
    each split as the utterance count of each of its dialogues. The spaCy
    tokeniser is a parameter `tokenise`. Python's float division for the two
    means is kept as a numerator and a denominator. */
module MrdaMetadata {
  import opened SeqStats
  import PipeSplit
  import TokenCount

  /** The exceptions the counting passes can raise. */
  datatype Error =
    | IndexError(line: nat)     // `line.split("|")[1]` on a corpus line without `|`
    | ZeroDivisionError         // a mean over no utterances or no dialogues

  datatype Result<T> = Ok(value: T) | Err(error: Error)

  /** A positive count, the only divisor the script's `/` accepts. */
  type PosNat = n: nat | n > 0 witness 1

  /** A mean kept exactly, as the quotient total / count. */
  datatype Mean = Mean(total: nat, count: PosNat)

  /** The number a mean stands for, `total / count` over the reals. */
  ghost function Value(m: Mean): real
  {
    m.total as real / m.count as real
  }

  /** A mean whose total is at most `max` per counted item is at most `max`. */
  lemma MeanAtMostMax(m: Mean, max: nat)
    requires m.total <= max * m.count
    ensures Value(m) <= max as real
  {
    var c := m.count as real;
    assert Value(m) * c == m.total as real;
    assert (max * m.count) as real == max as real * c;
  }

  /** One split as the script reads it: its name and, for each dialogue its
      manifest lists, the number of lines of that dialogue's file. */
  datatype SplitManifest = SplitManifest(name: string, dialogueLens: seq<nat>)

  /** What the script records for one split: `<name>_num_dialogues` and
      `<name>_max_dialogues_len`. */
  datatype SplitStats = SplitStats(name: string, numDialogues: nat, maxDialoguesLen: nat)

  /** The scalars and the table the corpus half of the script stores. */
  datatype CorpusStats = CorpusStats(
    numUtterances: nat,
    maxUtteranceLen: nat,
    meanUtteranceLen: Mean,
    wordFreq: map<string, nat>,
    vocabularySize: nat)

  /** The scalars the split half of the script stores. */
  datatype DialogueStats = DialogueStats(
    splits: seq<SplitStats>,
    numDialogues: nat,
    maxDialoguesLen: nat,
    meanDialoguesLen: Mean)

  /** The metadata record of the counting passes. */
  datatype Metadata = Metadata(corpus: CorpusStats, dialogues: DialogueStats)

  /** The three splits, in the order the script visits them. */
  const SplitNames: seq<string> := ["train", "test", "val"]

  // ---------------------------------------------------------------------
  // Reference definitions

  /** Every line has field 1, that is, holds a `|`. */
  ghost predicate AllHaveUtterance(lines: seq<string>)
  {
    forall k :: 0 <= k < |lines| ==> PipeSplit.Pipe in lines[k]
  }

  /** Line `n` is the first line without a `|`. */
  ghost predicate IsFirstWithoutPipe(lines: seq<string>, n: nat)
  {
    && n < |lines| && PipeSplit.Pipe !in lines[n]
    && forall k :: 0 <= k < n ==> PipeSplit.Pipe in lines[k]
  }

  /** Field 1 of every line. */
  ghost function Utterances(lines: seq<string>): seq<string>
    requires AllHaveUtterance(lines)
  {
    seq(|lines|, k requires 0 <= k < |lines| =>
      PipeSplit.SplitFieldCount(lines[k]); PipeSplit.Split(lines[k])[1])
  }

  /** The tokeniser applied to each utterance. */
  ghost function Tokenised(utterances: seq<string>, tokenise: string -> seq<string>): seq<seq<string>>
  {
    seq(|utterances|, k requires 0 <= k < |utterances| => tokenise(utterances[k]))
  }

  /** The dialogue lengths of each split. */
  ghost function DialogueLens(splits: seq<SplitManifest>): seq<seq<nat>>
  {
    seq(|splits|, i requires 0 <= i < |splits| => splits[i].dialogueLens)
  }

  /** What the split pass records for one split: its dialogue count and its
      longest dialogue. */
  ghost function StatsOf(split: SplitManifest): SplitStats
  {
    SplitStats(split.name, |split.dialogueLens|, MaxOf(split.dialogueLens))
  }

  /** The recorded maximum of each split. */
  ghost function SplitMaxima(stats: seq<SplitStats>): seq<nat>
  {
    seq(|stats|, i requires 0 <= i < |stats| => stats[i].maxDialoguesLen)
  }

  /** The recorded dialogue count of each split. */
  ghost function SplitCounts(stats: seq<SplitStats>): seq<nat>
  {
    seq(|stats|, i requires 0 <= i < |stats| => stats[i].numDialogues)
  }

  /** A corpus line `id|utterance|basic_label|general_label|full_label`. */
  function CorpusLine(id: string, utterance: string, basic: string, general: string, full: string): string
  {
    PipeSplit.Join([id, utterance, basic, general, full])
  }

  /** Splitting a corpus line whose fields hold no `|` gives back its five
      fields, so field 1, the one the script keeps, is the utterance. */
  lemma CorpusLineFields(id: string, utterance: string, basic: string, general: string, full: string)
    requires PipeSplit.Pipe !in id && PipeSplit.Pipe !in utterance
    requires PipeSplit.Pipe !in basic && PipeSplit.Pipe !in general && PipeSplit.Pipe !in full
    ensures PipeSplit.Split(CorpusLine(id, utterance, basic, general, full)) == [id, utterance, basic, general, full]
    ensures PipeSplit.Pipe in CorpusLine(id, utterance, basic, general, full)
  {
    var fields := [id, utterance, basic, general, full];
    assert forall k :: 0 <= k < |fields| ==> PipeSplit.Pipe !in fields[k];
    PipeSplit.SplitJoin(fields);
    PipeSplit.SplitFieldCount(CorpusLine(id, utterance, basic, general, full));
  }

  // ---------------------------------------------------------------------
  // The passes

  /** The quotient `total / count` of the script: a ZeroDivisionError when
      the count is 0, and otherwise the mean that, multiplied by the count,
      gives back the total. */
  function Divide(total: nat, count: nat): (r: Result<Mean>)
    ensures r.Ok? <==> count > 0
    ensures r.Err? ==> r.error == ZeroDivisionError
    ensures r.Ok? ==> Value(r.value) * count as real == total as real
    ensures r.Ok? ==> r.value.total == total && r.value.count == count
  {
    if count == 0 then Err(ZeroDivisionError) else Ok(Mean(total, count))
  }

  /** Utterance extraction: field 1 of each corpus line, appended in order.
      The first line without a `|` raises IndexError and nothing after it
      is read. */
  method ExtractUtterances(lines: seq<string>) returns (r: Result<seq<string>>)
    ensures r.Ok? <==> AllHaveUtterance(lines)
    ensures r.Ok? ==> |r.value| == |lines|
    ensures r.Ok? ==> forall k :: 0 <= k < |lines| ==>
      |PipeSplit.Split(lines[k])| >= 2 && r.value[k] == PipeSplit.Split(lines[k])[1]
    ensures r.Err? ==> r.error.IndexError? && IsFirstWithoutPipe(lines, r.error.line)
  {
    var utterances: seq<string> := [];
    var i := 0;
    while i < |lines|
      invariant 0 <= i <= |lines| && |utterances| == i
      invariant forall k :: 0 <= k < i ==>
        PipeSplit.Pipe in lines[k] && |PipeSplit.Split(lines[k])| >= 2 &&
        utterances[k] == PipeSplit.Split(lines[k])[1]
    {
      var fields := PipeSplit.Split(lines[i]);
      PipeSplit.SplitFieldCount(lines[i]);
      if |fields| < 2 {
        return Err(IndexError(i));
      }
      utterances := utterances + [fields[1]];
      i := i + 1;
    }
    return Ok(utterances);
  }

  /** The token-length pass: tokenises each utterance, appends the tokens to
      the tokenised list, raises the running maximum when the new length
      exceeds it, and adds the length to the running sum. */
  method TokenLengthStats(utterances: seq<string>, tokenise: string -> seq<string>)
    returns (maxLen: nat, lenTotal: nat, tokenised: seq<seq<string>>)
    ensures |tokenised| == |utterances|
    ensures forall k :: 0 <= k < |utterances| ==> tokenised[k] == tokenise(utterances[k])
    ensures maxLen == MaxOf(Lengths(tokenised)) && IsMaximum(maxLen, Lengths(tokenised))
    ensures lenTotal == Sum(Lengths(tokenised))
    ensures lenTotal == |Flatten(tokenised)|
  {
    maxLen, lenTotal, tokenised := 0, 0, [];
    var i := 0;
    while i < |utterances|
      invariant 0 <= i <= |utterances| && |tokenised| == i
      invariant forall k :: 0 <= k < i ==> tokenised[k] == tokenise(utterances[k])
      invariant maxLen == MaxOf(Lengths(tokenised))
      invariant lenTotal == Sum(Lengths(tokenised))
    {
      var tokens := tokenise(utterances[i]);
      if |tokens| > maxLen {
        maxLen := |tokens|;
      }
      assert Lengths(tokenised + [tokens])[..i] == Lengths(tokenised);
      tokenised := tokenised + [tokens];
      lenTotal := lenTotal + |tokens|;
      i := i + 1;
    }
    MaxOfIsMaximum(Lengths(tokenised));
    FlattenLength(tokenised);
  }

  /** The inner loop of the split pass, over the dialogues of one split:
      each dialogue adds one to the dialogue count and its length to the
      length sum, raises the split's maximum if it is longer, and then the
      overall maximum is raised to the split's maximum. */
  method ScanSplit(dialogues: seq<nat>, count: nat, total: nat, maxLen: nat)
    returns (setMax: nat, count': nat, total': nat, maxLen': nat)
    ensures setMax == MaxOf(dialogues)
    ensures count' == count + |dialogues|
    ensures total' == total + Sum(dialogues)
    ensures maxLen' == if setMax > maxLen then setMax else maxLen
  {
    setMax, count', total', maxLen' := 0, count, total, maxLen;
    var j := 0;
    while j < |dialogues|
      invariant 0 <= j <= |dialogues|
      invariant count' == count + j
      invariant total' == total + Sum(dialogues[..j])
      invariant setMax == MaxOf(dialogues[..j])
      invariant maxLen' == if setMax > maxLen then setMax else maxLen
    {
      assert dialogues[..j + 1][..j] == dialogues[..j];
      count' := count' + 1;
      total' := total' + dialogues[j];
      if dialogues[j] > setMax {
        setMax := dialogues[j];
      }
      if setMax > maxLen' {
        maxLen' := setMax;
      }
      j := j + 1;
    }
    assert dialogues[..j] == dialogues;
  }

  /** The split pass. For each split it records the number of dialogues and
      the longest dialogue; across all splits it counts the dialogues, keeps
      the overall maximum (raised from the split's maximum after every
      dialogue) and sums the dialogue lengths. */
  method AggregateSplits(splits: seq<SplitManifest>)
    returns (stats: seq<SplitStats>, numDialogues: nat, maxDialoguesLen: nat, lenTotal: nat)
    ensures |stats| == |splits|
    ensures forall i :: 0 <= i < |splits| ==> stats[i] == StatsOf(splits[i])
    ensures forall i :: 0 <= i < |splits| ==>
      && stats[i].name == splits[i].name
      && stats[i].numDialogues == |splits[i].dialogueLens|
      && IsMaximum(stats[i].maxDialoguesLen, splits[i].dialogueLens)
    ensures numDialogues == Sum(SplitCounts(stats)) == |Flatten(DialogueLens(splits))|
    ensures maxDialoguesLen == MaxOf(SplitMaxima(stats))
    ensures IsMaximum(maxDialoguesLen, Flatten(DialogueLens(splits)))
    ensures lenTotal == Sum(Flatten(DialogueLens(splits)))
  {
    ghost var lens := DialogueLens(splits);
    stats, numDialogues, maxDialoguesLen, lenTotal := [], 0, 0, 0;
    var i := 0;
    while i < |splits|
      invariant 0 <= i <= |splits| && |stats| == i
      invariant forall k :: 0 <= k < i ==> stats[k] == StatsOf(splits[k])
      invariant numDialogues == |Flatten(lens[..i])|
      invariant maxDialoguesLen == MaxOf(SplitMaxima(stats))
      invariant lenTotal == Sum(Flatten(lens[..i]))
    {
      var dialogues := splits[i].dialogueLens;
      var setMax;
      setMax, numDialogues, lenTotal, maxDialoguesLen :=
        ScanSplit(dialogues, numDialogues, lenTotal, maxDialoguesLen);
      FlattenPrefix(lens, i);
      assert lens[i] == dialogues;
      SumAppend(Flatten(lens[..i]), dialogues);
      ghost var before := stats;
      stats := stats + [SplitStats(splits[i].name, |dialogues|, setMax)];
      assert SplitMaxima(stats)[..i] == SplitMaxima(before);
      i := i + 1;
    }
    assert lens[..i] == lens;
    SplitTotals(splits, stats);
  }

  /** What the per-split records say about all dialogues together: the
      counts add up to the number of dialogues, and the maximum of the
      per-split maxima is the maximum over every dialogue. */
  lemma SplitTotals(splits: seq<SplitManifest>, stats: seq<SplitStats>)
    requires |stats| == |splits|
    requires forall k :: 0 <= k < |splits| ==> stats[k] == StatsOf(splits[k])
    ensures Sum(SplitCounts(stats)) == |Flatten(DialogueLens(splits))|
    ensures IsMaximum(MaxOf(SplitMaxima(stats)), Flatten(DialogueLens(splits)))
    ensures forall k :: 0 <= k < |splits| ==>
      IsMaximum(stats[k].maxDialoguesLen, splits[k].dialogueLens)
  {
    var lens := DialogueLens(splits);
    assert SplitCounts(stats) == Lengths(lens);
    FlattenLength(lens);
    assert SplitMaxima(stats) == seq(|lens|, k requires 0 <= k < |lens| => MaxOf(lens[k]));
    MaxOfFlatten(lens);
    MaxOfIsMaximum(Flatten(lens));
    forall k | 0 <= k < |splits|
      ensures IsMaximum(stats[k].maxDialoguesLen, splits[k].dialogueLens)
    {
      MaxOfIsMaximum(splits[k].dialogueLens);
    }
  }

  /** What the corpus half of the script stores for a corpus: one utterance
      per line, the longest and the summed token counts of the utterances
      (so a mean that never exceeds the maximum), and a word-frequency table
      that counts every token of every utterance, whose size is the
      vocabulary size. */
  ghost predicate CorpusStatsHold(lines: seq<string>, tokenise: string -> seq<string>, c: CorpusStats)
    requires AllHaveUtterance(lines)
  {
    var tokenised := Tokenised(Utterances(lines), tokenise);
    && c.numUtterances == |lines|
    && IsMaximum(c.maxUtteranceLen, Lengths(tokenised))
    && c.meanUtteranceLen.total == Sum(Lengths(tokenised))
    && c.meanUtteranceLen.count == |lines|
    && c.meanUtteranceLen.total <= c.maxUtteranceLen * c.meanUtteranceLen.count
    && Value(c.meanUtteranceLen) <= c.maxUtteranceLen as real
    && (forall t :: t in c.wordFreq <==> t in Flatten(tokenised))
    && (forall t :: t in c.wordFreq ==> c.wordFreq[t] == multiset(Flatten(tokenised))[t])
    && TokenCount.Total(c.wordFreq) == c.meanUtteranceLen.total
    && c.vocabularySize == |c.wordFreq|
  }

  /** What the split half of the script stores for the train, test and val
      splits: per split its dialogue count and longest dialogue, and over all
      dialogues their number, the longest one and the summed lengths (so a
      mean that never exceeds the maximum). */
  ghost predicate DialogueStatsHold(train: seq<nat>, test: seq<nat>, val: seq<nat>, d: DialogueStats)
  {
    && |d.splits| == 3
    && d.splits[0] == SplitStats("train", |train|, MaxOf(train))
    && d.splits[1] == SplitStats("test", |test|, MaxOf(test))
    && d.splits[2] == SplitStats("val", |val|, MaxOf(val))
    && d.numDialogues == |train| + |test| + |val|
    && IsMaximum(d.maxDialoguesLen, train + test + val)
    && d.meanDialoguesLen.total == Sum(train + test + val)
    && d.meanDialoguesLen.count == |train + test + val|
    && d.meanDialoguesLen.total <= d.maxDialoguesLen * d.meanDialoguesLen.count
    && Value(d.meanDialoguesLen) <= d.maxDialoguesLen as real
  }

  /** The corpus half of the script: extraction, the token-length pass and
      its mean, then the word frequencies. */
  method CorpusMetadata(lines: seq<string>, tokenise: string -> seq<string>)
    returns (r: Result<CorpusStats>)
    ensures !AllHaveUtterance(lines) ==> r.Err? && r.error.IndexError?
    ensures r.Err? && r.error.IndexError? ==> IsFirstWithoutPipe(lines, r.error.line)
    ensures AllHaveUtterance(lines) && |lines| == 0 ==> r == Err(ZeroDivisionError)
    ensures r.Ok? <==> AllHaveUtterance(lines) && |lines| > 0
    ensures r.Ok? ==> CorpusStatsHold(lines, tokenise, r.value)
  {
    var extracted := ExtractUtterances(lines);
    if extracted.Err? {
      return Err(extracted.error);
    }
    var utterances := extracted.value;
    var numUtterances := |utterances|;

    var maxUtteranceLen, utteranceLenTotal, tokenised := TokenLengthStats(utterances, tokenise);
    assert numUtterances == |tokenised|;
    var meanUtteranceLen := Divide(utteranceLenTotal, numUtterances);
    if meanUtteranceLen.Err? {
      return Err(meanUtteranceLen.error);
    }

    var wordFreq := TokenCount.CountTokens(Flatten(tokenised));
    var vocabularySize := |wordFreq|;

    assert Utterances(lines) == utterances;
    assert Tokenised(utterances, tokenise) == tokenised;
    SumAtMostMaxTimesCount(Lengths(tokenised));
    MeanAtMostMax(meanUtteranceLen.value, maxUtteranceLen);
    r := Ok(CorpusStats(numUtterances, maxUtteranceLen, meanUtteranceLen.value, wordFreq,
                        vocabularySize));
  }

  /** The split half of the script: the split pass over train, test and val,
      then the mean dialogue length. */
  method DialogueMetadata(train: seq<nat>, test: seq<nat>, val: seq<nat>)
    returns (r: Result<DialogueStats>)
    ensures r.Ok? <==> |train| + |test| + |val| > 0
    ensures r.Err? ==> r.error == ZeroDivisionError
    ensures r.Ok? ==> DialogueStatsHold(train, test, val, r.value)
  {
    var manifests := [SplitManifest(SplitNames[0], train), SplitManifest(SplitNames[1], test),
                      SplitManifest(SplitNames[2], val)];
    var splitStats, numDialogues, maxDialoguesLen, dialoguesLenTotal := AggregateSplits(manifests);
    var meanDialoguesLen := Divide(dialoguesLenTotal, numDialogues);
    assert DialogueLens(manifests) == [train, test, val];
    FlattenThree(train, test, val);
    if meanDialoguesLen.Err? {
      return Err(meanDialoguesLen.error);
    }

    SumAtMostMaxTimesCount(train + test + val);
    MaxOfIsMaximum(train + test + val);
    MaximumIsUnique(maxDialoguesLen, MaxOf(train + test + val), train + test + val);
    MeanAtMostMax(meanDialoguesLen.value, maxDialoguesLen);
    r := Ok(DialogueStats(splitStats, numDialogues, maxDialoguesLen, meanDialoguesLen.value));
  }

  /** The whole counting run of the script, in its order: the corpus half,
      then the split half. The first exception ends the run. */
  method ComputeMetadata(lines: seq<string>, tokenise: string -> seq<string>,
                         train: seq<nat>, test: seq<nat>, val: seq<nat>)
    returns (r: Result<Metadata>)
    ensures !AllHaveUtterance(lines) ==> r.Err? && r.error.IndexError?
    ensures r.Err? && r.error.IndexError? ==> IsFirstWithoutPipe(lines, r.error.line)
    ensures AllHaveUtterance(lines) && |lines| == 0 ==> r == Err(ZeroDivisionError)
    ensures AllHaveUtterance(lines) && |lines| > 0 && |train| + |test| + |val| == 0 ==>
      r == Err(ZeroDivisionError)
    ensures r.Ok? <==> AllHaveUtterance(lines) && |lines| > 0 && |train| + |test| + |val| > 0
    ensures r.Ok? ==> CorpusStatsHold(lines, tokenise, r.value.corpus)
    ensures r.Ok? ==> DialogueStatsHold(train, test, val, r.value.dialogues)
  {
    var corpus := CorpusMetadata(lines, tokenise);
    if corpus.Err? {
      return Err(corpus.error);
    }
    var dialogues := DialogueMetadata(train, test, val);
    if dialogues.Err? {
      return Err(dialogues.error);
    }
    r := Ok(Metadata(corpus.value, dialogues.value));
  }

  /** Flattening the three splits puts their dialogues one after another. */
  lemma FlattenThree(a: seq<nat>, b: seq<nat>, c: seq<nat>)
    ensures Flatten([a, b, c]) == a + b + c
  {
    assert [a, b, c][..2] == [a, b];
    assert [a, b][..1] == [a];
    assert [a][..0] == [];
    calc {
      Flatten([a, b, c]);
      Flatten([a, b]) + c;
      Flatten([a]) + b + c;
      Flatten([]) + a + b + c;
    }
  }
}
