# faster-whisper tokenizer, modelled in Dafny

This project models the `Tokenizer` class of faster-whisper
(`faster_whisper/tokenizer.py`). The class wraps a Hugging Face
`tokenizers.Tokenizer` for the Whisper speech model. It does the following:

- It checks the task and the language at construction.
- It builds the start-of-transcript prologue.
- It encodes a text prompt.
- It decodes token streams, with and without timestamp tokens.
- It splits a token stream into words, each with its group of tokens. The
  words are used for word-level timestamps.

The wrapped vocabulary is kept abstract. Its `encode`, `decode` and
`token_to_id` are function-valued fields of `Vocabulary`, so every property
holds whatever the vocabulary does. The float formatting of timestamp
literals is abstract in the same way (`FloatFormatting`).

Files:

- `Wrappers.dfy`: `Option` (Python's `None`) and `Result` (a raised exception).
- `Seqs.dfy`: sequence helpers.
  - `Flatten` is the concatenation of groups.
  - `Below` is the order-preserving filter `[t for t in s if t < bound]`.
  - `SliceTo` is Python's `s[:k]`, including negative `k`.
- `PyText.dfy`: the Python string operations the class relies on.
  - `str.strip()` over Python's whitespace set.
  - `str.index(c)`, with `None` for the `ValueError`.
  - The substring test `a in b`.
  - `string.punctuation`.
- `Tokenizer.dfy` (module `WhisperTokenizer`): the class itself.
  - The class becomes the immutable datatype `Tokenizer`, built by
    `NewTokenizer`.
  - Its three loops are methods. Each loop invariant ties the loop's
    accumulators to a specification function that consumes the first `i`
    tokens or chunks: `Runs`, `Chunked` and `Merged`.
  - The properties are lemmas about those functions.

Two details of the code are modelled as written:

- `split_tokens_on_unicode` also flushes when the first U+FFFD of the
  buffer's text, shifted by the running offset, lands on a U+FFFD of the full
  text (`faster_whisper/tokenizer.py:194-197`). A pending buffer that never
  passes this test is dropped at the end. The groups therefore form a
  *prefix* of the input, not the whole input.
- "Stripped text is punctuation" in `split_tokens_on_spaces` is the substring
  test `subword.strip() in string.punctuation` (`faster_whisper/tokenizer.py:215`).
  The empty string and runs such as `"()"` pass it; `"?!"` does not.

## Model

| member | source | states |
|---|---|---|
| `WhisperTokenizer.NewTokenizer` | faster_whisper/tokenizer.py:19-51 | In multilingual mode construction succeeds exactly when the task is one of the two tasks and the language one of the language codes. Otherwise it fails with the task error first, then the language error. On success the task and language are the vocabulary ids of the task's and the language's special tokens, and the language code is the language. In monolingual mode construction always succeeds, with no task, no language and code "en". |
| `WhisperTokenizer.Tokenizer.SotSequence` | faster_whisper/tokenizer.py:85-95 | The prologue starts with `sot`. The language id comes second when set, and the task id comes last when set. Its length is 1 plus one per id that is set. With neither set it is exactly `[sot]`. |
| `WhisperTokenizer.Tokenizer.TimestampToToken` | faster_whisper/tokenizer.py:97-102 | It fails exactly for times below 0 or above 30 seconds. Otherwise it returns the formatted literal. |
| `WhisperTokenizer.Tokenizer.Encode` | faster_whisper/tokenizer.py:104-119 | For a string, the text tokens are a prefix of the vocabulary's encoding of `" " + strip(text)`. They are the whole encoding when it is shorter than `max_length // 2`, and otherwise `max_length // 2 - 1` tokens long (Python's negative slice when that is negative). `timestamp_begin` comes first unless timestamps are off. A value that is neither a string nor a list fails. |
| `Seqs.SliceTo` | faster_whisper/tokenizer.py:110 | Python's `s[:k]` is a prefix of `s` of length `min(k, len)`, or `max(0, len + k)` for negative `k`. |
| `PyText.StripShape` | faster_whisper/tokenizer.py:107 | `str.strip()` returns `s` less some leading and trailing whitespace, and the result neither starts nor ends with whitespace. |
| `WhisperTokenizer.TimestampBeginFirst` | faster_whisper/tokenizer.py:81-83 | `timestamp_begin` is the first token `decode_with_timestamps` treats as a timestamp: it becomes the timestamp at offset 0. `no_timestamps`, just below it, joins the last text run like any text token. |
| `Seqs.Below` | faster_whisper/tokenizer.py:144 | The comprehension keeps exactly the elements below the bound, and never more elements than it was given. |
| `WhisperTokenizer.Tokenizer.Decode` | faster_whisper/tokenizer.py:143-145 | `decode` of tokens that are all below `eot` hands the vocabulary those tokens unchanged. |
| `WhisperTokenizer.DecodeSkipsControl` | faster_whisper/tokenizer.py:143-145 | A token at or above `eot`, wherever it stands, does not change what `decode` returns. |
| `Seqs.BelowAppend` | faster_whisper/tokenizer.py:144 | Filtering a concatenation filters each part in order, so the order of the kept tokens is preserved. |
| `WhisperTokenizer.Tokenizer.DecodeWithTimestamps` | faster_whisper/tokenizer.py:147-160 | The loop's `outputs` is, after each token, the runs of the tokens consumed so far. The result is the runs' texts joined in order. |
| `WhisperTokenizer.RunsStepShape` | faster_whisper/tokenizer.py:150-156 | One token keeps every run but the last. A timestamp token also keeps the last run and adds its timestamp run and a fresh text run. Any other token is appended to the last text run. |
| `WhisperTokenizer.RunsCount` | faster_whisper/tokenizer.py:148-156 | With k tokens at or above `timestamp_begin` there are 2k + 1 runs. |
| `WhisperTokenizer.RunsAlternate` | faster_whisper/tokenizer.py:148-156 | Runs alternate: text runs sit at even positions and hold only tokens below `timestamp_begin`. Timestamp runs sit at odd positions, at a non-negative offset. The list starts and ends with a text run. |
| `WhisperTokenizer.RunsText` | faster_whisper/tokenizer.py:148-156 | The text runs, joined in order, are exactly the tokens below `timestamp_begin`. |
| `WhisperTokenizer.RunsOfText` | faster_whisper/tokenizer.py:148-156 | Without timestamp tokens there is a single text run holding all the tokens. |
| `WhisperTokenizer.RunsAround` | faster_whisper/tokenizer.py:150-154 | A timestamp token closes the runs before it, adds its own run, and the tokens after it are run afresh. |
| `WhisperTokenizer.TimestampedTextOfText` | faster_whisper/tokenizer.py:147-160 | Without timestamp tokens, `decode_with_timestamps` returns the vocabulary's decoding of the tokens. |
| `WhisperTokenizer.TimestampedTextAtStamp` | faster_whisper/tokenizer.py:147-160 | The text of `a + [t] + b` for a timestamp token `t` is the text of `a`, then the literal for `t - timestamp_begin`, then the text of `b`. |
| `PyText.IndexOf` | faster_whisper/tokenizer.py:188-192 | `str.index` finds the first occurrence of the character, and reports "absent" exactly when the character does not occur. |
| `WhisperTokenizer.FlushesFirstReplacement` | faster_whisper/tokenizer.py:188-197 | A buffer text without U+FFFD always passes the test. Otherwise only its first U+FFFD counts: the test passes exactly when the full text has a U+FFFD at that index plus the offset. |
| `WhisperTokenizer.ChunkStepShape` | faster_whisper/tokenizer.py:184-201 | One token either joins the pending buffer or, when the buffer's text passes the test, closes it as one new chunk and empties the buffer. Earlier chunks are kept, and the chunks and buffer, joined, grow by exactly that token. |
| `WhisperTokenizer.Tokenizer.SplitTokensOnUnicode` | faster_whisper/tokenizer.py:173-203 | The loop's accumulators are, after each token, the chunking of the tokens consumed so far. The result is that chunking's words and groups, with one non-empty group per word. |
| `WhisperTokenizer.ChunkedInvariant` | faster_whisper/tokenizer.py:179-201 | After each token the following hold. The chunks and the pending buffer, joined, are the tokens consumed so far. Each chunk is non-empty and its word is its group's timestamped text. The offset is the total length of the words. Each chunk is the shortest buffer that passed the test at its offset, and no prefix of the pending buffer has passed it. |
| `WhisperTokenizer.UnicodeSplitShape` | faster_whisper/tokenizer.py:173-203 | Words and groups have equal length and every group is non-empty. `words[i]` is the timestamped text of `groups[i]`. The groups, joined, are a prefix of the input. |
| `PyText.Contains` | faster_whisper/tokenizer.py:215 | `a in b` for strings holds exactly when `a` occurs in `b` at some index. |
| `WhisperTokenizer.StartsWordCases` | faster_whisper/tokenizer.py:213-216 | A chunk starts a word exactly when its first token is at least `eot`, its text starts with a space, or its stripped text occurs in `string.punctuation`. A chunk whose stripped text is empty always starts a word. |
| `WhisperTokenizer.PunctuationMarkStartsWord` | faster_whisper/tokenizer.py:215-216 | A chunk whose stripped text is one punctuation mark starts a word. |
| `WhisperTokenizer.MergeStepShape` | faster_whisper/tokenizer.py:212-221 | One chunk adds a word exactly when it starts a word or there is no word yet; otherwise it extends the last word. Earlier words and groups are kept, and the words and groups, joined, grow by exactly the chunk's text and tokens. |
| `WhisperTokenizer.StartsShape` | faster_whisper/tokenizer.py:212-216 | The word-starting chunks among the first n are listed in strictly increasing order. Chunk 0 comes first, and a later chunk is listed exactly when it starts a word. |
| `WhisperTokenizer.MergeSubwords` | faster_whisper/tokenizer.py:209-223 | The merge loop's `words` and `word_tokens` are, after each chunk, the merge of the chunks consumed so far. |
| `WhisperTokenizer.Tokenizer.SplitTokensOnSpaces` | faster_whisper/tokenizer.py:205-223 | The result is the merge of the Unicode chunks, with one non-empty group per word. |
| `WhisperTokenizer.MergeStepKeeps` | faster_whisper/tokenizer.py:212-221 | Appending a chunk that starts a word, or extending the last word with one that does not, loses, duplicates and reorders neither tokens nor text. Word j stays exactly the chunks from the j-th word-starting chunk up to the next one. |
| `WhisperTokenizer.MergedKeepsAll` | faster_whisper/tokenizer.py:209-221 | After n chunks the following hold. The groups, joined, are the first n chunk groups joined, and the words, joined, the first n chunk texts joined. Every group is non-empty. With b the word-starting chunks (`Starts`) followed by n, word j is the chunk texts from b[j] up to b[j+1] joined, and its group is their token groups joined. |
| `WhisperTokenizer.MergedShape` | faster_whisper/tokenizer.py:209-223 | After all chunks: the words and groups, joined, are all chunk texts and all chunk groups joined, every group is non-empty, there are never more words than chunks, and word j is exactly the chunks from the j-th word-starting chunk up to the next one or the end. |
| `WhisperTokenizer.SpaceSplitShape` | faster_whisper/tokenizer.py:205-223 | Merged words have non-empty groups. Joined, the groups equal the joined Unicode groups and form a prefix of the input, and the joined words equal the joined Unicode texts. There are never more words than chunks. |
| `WhisperTokenizer.Tokenizer.SplitToWordTokens` | faster_whisper/tokenizer.py:162-171 | For zh, ja, th, lo, my and yue the result is the Unicode split unchanged. For every other language code it is the space-merged split. |

## Left out

- The `tokenizers.Tokenizer` library is foreign code. Its `encode`, `decode`
  and `token_to_id` are uninterpreted total functions. UTF-8 decoding, and
  when U+FFFD appears, are not modelled.
- `token_to_id` returns `None` for an unknown token. The model's `tokenToId`
  always returns an id.
- `encode` on a list (`faster_whisper/tokenizer.py:114-117, 121-141`):
  `encode_with_timestamps` and `encode_without_timestamps` call `map` with a
  single argument, which raises `TypeError`. The model returns the error
  `MapTypeError` for any list. There is no intended words-to-tokens path to
  model.
- `TimestampToToken`: the time is a real, so NaN is not modelled. In Python
  a NaN passes the range check (`faster_whisper/tokenizer.py:99`) and `round`
  then raises (`faster_whisper/tokenizer.py:101`).
- Float formatting is abstract. This covers the timestamp literal of
  `decode_with_timestamps` (a function of `token - timestamp_begin`) and the
  rounding and `:.2f` formatting of `timestamp_to_token`.
- `cached_property` caching: the control ids are functions of the vocabulary,
  so their value never changes.
- `Word.start`, `Word.end` and `Word.probability` (floats, unused by the
  modelled code).
- Python lists are mutable and shared. `split_tokens_on_spaces` extends the
  lists it received from `split_tokens_on_unicode` in place
  (`word_tokens[-1].extend`). The model works on values and does not capture
  that aliasing.
- `MergeSubwords`: the merge loop of `split_tokens_on_spaces` is a separate
  method taking `eot` as a parameter. The source inlines it and reads
  `self.eot`.
- Python's `str.isspace()` is modelled for the characters Python treats as
  whitespace. There is no Unicode normalisation or case folding.
