# MRDA corpus metadata: a verified model of the counting passes

`mrda_metadata.py` computes statistics over the MRDA dialogue-act corpus.
This project models its counting and accumulation logic in Dafny and
proves what that logic computes:

- **Utterance extraction.** Each corpus line
  `id|utterance|basic_label|general_label|full_label` is split on `|`.
  Field 1 is appended to the utterance list. A line without a `|` raises
  IndexError.
- **Token-length pass.** Each utterance is tokenised and the tokens are
  appended to the tokenised list. A running maximum and a running sum of
  token counts are kept. The mean is that sum divided by the number of
  utterances.
- **Word frequencies.** The tokenised utterances are flattened and counted
  into a token → count table. `vocabulary_size` is the size of that table.
- **Split pass.** The train, test and val splits are visited in that order.
  For each split the pass records the number of dialogues and the longest
  dialogue, measured in utterance lines. Over all splits it keeps the
  dialogue count, the overall maximum and the sum of lengths. The overall
  maximum is raised after every dialogue. The mean is the sum divided by
  the dialogue count.

The script is a sequence of module-level loops that update accumulators and
append to lists, so each pass is a Dafny `method` with a `while` loop and
loop invariants. Each method is proved against reference functions
(`SeqStats.Sum`, `SeqStats.MaxOf`, `SeqStats.Flatten`, `PipeSplit.Split`).
It is also proved against independent characterisations: `IsMaximum` says
"an upper bound that is attained, or 0 when empty", multiset counts give
occurrences, and `Join` is the inverse of `Split`.

Modules:

- `seq_stats.dfy` (`SeqStats`): the running sum, the running maximum,
  flattening, and their lemmas.
- `pipe_split.dfy` (`PipeSplit`): Python's `str.split("|")`, its inverse
  `"|".join`, and the field lemmas.
- `token_count.dfy` (`TokenCount`): the word-frequency count and the total
  of a table.
- `mrda_metadata.dfy` (`MrdaMetadata`): the passes, the metadata record,
  and the whole run `ComputeMetadata`.
- `mrda_examples.dfy` (`MrdaExamples`): the two worked examples, a
  three-line corpus and one split with dialogues of 5 and 3 lines. Lemmas
  show that the proved properties fix every recorded value.

Inputs are abstracted as follows:

- The corpus is its list of lines.
- The tokeniser is a parameter `tokenise: string -> seq<string>`. Being a
  function, it is deterministic.
- Each split is the list of line counts of its dialogues.

Each mean is a `Mean(total, count)` pair whose count is positive by its
type. `Value` gives the real number it stands for, `total / count`. A mean is
produced only when the count is positive; otherwise the run stops with
`ZeroDivisionError`, as Python's `/` does.

Two behaviours of the script are worth noting:

- `vocabulary_size` is `len(word_freq)` (mrda_metadata.py:55), the number of
  distinct tokens. It does not include the 4 reserved entries that gluonnlp's
  `Vocab` adds. `MrdaExamples.CorpusStatsExample` gives 3 for the three-word
  example.
- A dialogue file with no lines counts as a dialogue of length 0.

## Model

| member | source | states |
|---|---|---|
| `PipeSplit.JoinSplit` | mrda_metadata.py:22 | joining the pieces of `line.split("\|")` with `\|` gives back the line |
| `PipeSplit.SplitJoin` | mrda_metadata.py:22 | splitting a `\|`-join of `\|`-free pieces gives back the pieces, so split and join are inverse |
| `PipeSplit.SplitFieldsHaveNoPipe` | mrda_metadata.py:22 | no piece of the split contains `\|` |
| `PipeSplit.SplitFieldCount` | mrda_metadata.py:22 | there is one more piece than there are `\|` in the line, so field 1 exists exactly when the line holds a `\|` |
| `PipeSplit.SecondField` | mrda_metadata.py:22 | field 1 is the text between the first and the second `\|`, or between the first `\|` and the end |
| `MrdaMetadata.CorpusLineFields` | mrda_metadata.py:20-22 | a corpus line built from five `\|`-free fields splits back into those fields, so the extracted utterance is the utterance field |
| `MrdaMetadata.ExtractUtterances` | mrda_metadata.py:20-25 | succeeds exactly when every line holds a `\|`, giving one utterance per line in order, each equal to field 1, so `num_utterances` is the number of lines; otherwise IndexError at the first line without `\|`, with every earlier line valid |
| `MrdaMetadata.TokenLengthStats` | mrda_metadata.py:31-44 | the tokenised list matches the utterances one-to-one, element k being the tokeniser applied to utterance k; the running maximum is the maximum token count (at least every count, equal to one when there is one, 0 for none); the length accumulator is the sum of the counts and the length of the flattened tokens |
| `SeqStats.MaxOfIsMaximum` | mrda_metadata.py:38-39 | the running maximum started at 0 is an upper bound of every element, is one of them when there is one, and is 0 for an empty sequence |
| `SeqStats.FlattenLength` | mrda_metadata.py:53 | the flattened token list is as long as the sum of the per-utterance token counts |
| `SeqStats.SumAtMostMaxTimesCount` | mrda_metadata.py:44-49 | the sum never exceeds maximum × count, so a stored mean never exceeds the stored maximum |
| `MrdaMetadata.Divide` | mrda_metadata.py:49 | `/` raises ZeroDivisionError exactly when the count is 0; otherwise the mean's value times the count gives back the total, so it is the exact quotient |
| `MrdaMetadata.MeanAtMostMax` | mrda_metadata.py:44-49 | when the total is at most maximum × count, the value of the mean is at most the maximum |
| `TokenCount.CountTokens` | mrda_metadata.py:53 | the frequency table has exactly the tokens that occur as keys, each mapped to its number of occurrences (at least 1), and its counts add up to the number of tokens |
| `MrdaMetadata.CorpusMetadata` | mrda_metadata.py:17-59 | for lines that all hold a `\|`, succeeds exactly when there is at least one line, and then records the line count, the maximum and the summed token counts (the mean's value at most the maximum), and a frequency table of every token whose total equals the length accumulator and whose size is `vocabulary_size`; otherwise IndexError at the first line without `\|` (every earlier line valid), or ZeroDivisionError |
| `MrdaMetadata.ScanSplit` | mrda_metadata.py:134-149 | after one split's dialogues, the split maximum is the maximum of their lengths, the dialogue count and length sum have grown by the split's count and length sum, and the overall maximum is the larger of its old value and the split maximum |
| `MrdaMetadata.AggregateSplits` | mrda_metadata.py:119-151 | per split: its name, dialogue count equal to the manifest length, and maximum dialogue length (0 if empty); overall: the dialogue count equals the sum of per-split counts and the number of all dialogues, the maximum equals the maximum of the per-split maxima and is the maximum over all dialogues, and the length accumulator is the sum of all dialogue lengths |
| `SeqStats.MaxOfFlatten` | mrda_metadata.py:145-149 | the maximum over all dialogues of all splits equals the maximum of the per-split maxima |
| `MrdaMetadata.SplitTotals` | mrda_metadata.py:141-156 | per-split counts add up to the total number of dialogues, and the maximum of per-split maxima is the maximum over every dialogue |
| `MrdaMetadata.DialogueMetadata` | mrda_metadata.py:119-158 | succeeds exactly when the three splits hold at least one dialogue (ZeroDivisionError otherwise), recording `train`, `test`, `val` counts and maxima, the total count, the overall maximum and the mean as sum of lengths over count, whose value is at most the maximum |
| `MrdaMetadata.ComputeMetadata` | mrda_metadata.py:17-159 | the whole run: IndexError at the first corpus line that lacks `\|`, ZeroDivisionError for an empty corpus and then for no dialogues, otherwise a record satisfying both halves' properties |
| `MrdaExamples.DialogueStatsExample` | mrda_metadata.py:119-158 | train split with dialogues of 5 and 3 lines, test and val empty: train has 2 dialogues with longest 5, test and val have 0 and 0; overall 2 dialogues, longest 5, mean 8 / 2 |
| `MrdaExamples.CorpusStatsExample` | mrda_metadata.py:20-59 | three lines whose utterances tokenise to two words, the first word again, and a third word: 3 utterances, longest 2 tokens, mean 4 / 3, vocabulary size 3, and the frequency table maps the repeated word to 2 and each other word to 1 |

## Left out

- File loading (`load_text_data`, mrda_metadata.py:17,126,138) is I/O from `mrda_utilities`, which is not part of this model. The corpus is given as its lines and each dialogue as its line count. Stripping and filtering of lines, and missing-file errors, are the loader's.
- The spaCy tokeniser (mrda_metadata.py:5,37) is a foreign library. It is the parameter `tokenise`, about which nothing is assumed.
- gluonnlp's `Vocab` (mrda_metadata.py:54) and the `vocabulary.txt` writer (mrda_metadata.py:66-68) depend on that library's index layout, with 4 reserved indices. The `vocabulary` entry of the record is not modelled.
- The three label-frequency passes (mrda_metadata.py:71-116) call `get_label_frequency_distributions`, `plot_label_distributions` and `save_label_frequency_distributions` from `mrda_utilities`, which is not part of this model. The charts and `savefig` are presentation only.
- `save_data_pickle` (mrda_metadata.py:162) and every `print` are output only.
- MrdaMetadata.Divide: the means are exact quotients kept as (total, count). Python's floating-point rounding of `/` is not modelled.
- TokenCount.CountTokens: the table is a map. The iteration order of the `Counter` that `count_tokens` returns is not modelled.
- The global `metadata` dict, which is only ever extended, is replaced by the returned `Metadata` record. It has one field per stored scalar or table, and one `SplitStats` per `<split>_…` key pair.
- MrdaMetadata.ScanSplit: the inner loop of the split pass is its own method. Its statements and their order are the script's.
