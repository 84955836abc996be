/** The `Tokenizer` wrapper of faster-whisper: control tokens, the start
    sequence, prompt encoding, decoding with and without timestamps, and the
    split of a token stream into words with their tokens.

    The wrapped vocabulary (`tokenizers.Tokenizer`) and the float formatting of
    timestamps are not interpreted: they are function-valued fields that every
    operation uses as given. */
module WhisperTokenizer {
  import opened Wrappers
  import opened Seqs
  import opened PyText

  // ---------------------------------------------------------------------
  // External collaborators and configuration data
  // ---------------------------------------------------------------------

  /** The three operations of the wrapped vocabulary that the tokenizer uses. */
  datatype Vocabulary = Vocabulary(
    encode: string -> seq<int>,   // `encode(text, add_special_tokens=False).ids`
    decode: seq<int> -> string,   // `decode(ids)`
    tokenToId: string -> int)     // `token_to_id(token)`

  /** Float formatting, kept abstract. */
  datatype FloatFormatting = FloatFormatting(
    offsetLiteral: int -> string, // the literal `<|x.xx|>` for the timestamp token `k` places after timestamp_begin
    timeLiteral: real -> string)  // the literal `<|x.xx|>` for a time in seconds, rounded to 20 ms

  const Tasks: seq<string> := ["transcribe", "translate"]

  const LanguageCodes: seq<string> := [
    "af", "am", "ar", "as", "az", "ba", "be", "bg", "bn", "bo", "br", "bs",
    "ca", "cs", "cy", "da", "de", "el", "en", "es", "et", "eu", "fa", "fi",
    "fo", "fr", "gl", "gu", "ha", "haw", "he", "hi", "hr", "ht", "hu", "hy",
    "id", "is", "it", "ja", "jw", "ka", "kk", "km", "kn", "ko", "la", "lb",
    "ln", "lo", "lt", "lv", "mg", "mi", "mk", "ml", "mn", "mr", "ms", "mt",
    "my", "ne", "nl", "nn", "no", "oc", "pa", "pl", "ps", "pt", "ro", "ru",
    "sa", "sd", "si", "sk", "sl", "sn", "so", "sq", "sr", "su", "sv", "sw",
    "ta", "te", "tg", "th", "tk", "tl", "tr", "tt", "uk", "ur", "uz", "vi",
    "yi", "yo", "zh", "yue"
  ]

  /** Languages written without spaces between words: their words are the
      Unicode-complete chunks, with no merging. */
  const NoSpaceLanguages: set<string> := {"zh", "ja", "th", "lo", "my", "yue"}

  // Control token strings of the vocabulary.
  const TranscribeToken: string := "<|transcribe|>"
  const TranslateToken: string := "<|translate|>"
  const SotToken: string := "<|startoftranscript|>"
  const SotLmToken: string := "<|startoflm|>"
  const SotPrevToken: string := "<|startofprev|>"
  const EotToken: string := "<|endoftext|>"
  const NoTimestampsToken: string := "<|notimestamps|>"

  /** U+FFFD, which the vocabulary's decoder emits for an incomplete character. */
  const ReplacementChar: char := '\U{FFFD}'

  /** Python's `x in accepted`, where `x` may be `None`. */
  predicate Accepted(x: Option<string>, accepted: seq<string>)
  {
    x.Some? && x.value in accepted
  }

  datatype ConfigError =
    | InvalidTask(task: Option<string>, acceptedTasks: seq<string>)
    | InvalidLanguage(language: Option<string>, acceptedLanguages: seq<string>)

  datatype EncodeError =
    | InvalidInput   // neither a string nor a list
    | MapTypeError   // the list path calls `map` with one argument, which raises

  datatype TimestampError = OutOfRange

  /** A word of a transcript; its times and probability are not modelled. */
  datatype Word = Word(word: string)

  /** What `encode` can be called with. */
  datatype PromptInput = Text(text: string) | Words(words: seq<Word>) | OtherValue

  /** One element of the `outputs` list of `decode_with_timestamps`: a run of
      text tokens, or a timestamp token given by its distance from
      timestamp_begin. */
  datatype Run = TextRun(tokens: seq<int>) | StampRun(offset: int)

  /** The accumulators of `split_tokens_on_unicode`. */
  datatype Chunking = Chunking(words: seq<string>, groups: seq<seq<int>>, current: seq<int>, offset: nat)

  // ---------------------------------------------------------------------
  // Construction
  // ---------------------------------------------------------------------

  /** `Tokenizer.__init__`: in multilingual mode the task and the language
      must come from the fixed lists; otherwise neither is set and the
      language code is "en". */
  function NewTokenizer(vocab: Vocabulary, floats: FloatFormatting, multilingual: bool,
                        task: Option<string>, language: Option<string>,
                        withoutTimestamps: bool, maxLength: int): (r: Result<Tokenizer, ConfigError>)
    ensures r.Success? <==> !multilingual || (Accepted(task, Tasks) && Accepted(language, LanguageCodes))
    ensures multilingual && !Accepted(task, Tasks) ==> r == Failure(InvalidTask(task, Tasks))
    ensures multilingual && Accepted(task, Tasks) && !Accepted(language, LanguageCodes) ==>
              r == Failure(InvalidLanguage(language, LanguageCodes))
    ensures r.Success? ==>
              && r.value.vocab == vocab && r.value.floats == floats
              && r.value.withoutTimestamps == withoutTimestamps && r.value.maxLength == maxLength
    ensures !multilingual ==> r.Success? && r.value.task.None? && r.value.language.None? && r.value.languageCode == "en"
    ensures multilingual && r.Success? ==>
              && r.value.task == Some(vocab.tokenToId("<|" + task.value + "|>"))
              && r.value.language == Some(vocab.tokenToId("<|" + language.value + "|>"))
              && r.value.languageCode == language.value
  {
    if multilingual then
      if !Accepted(task, Tasks) then Failure(InvalidTask(task, Tasks))
      else if !Accepted(language, LanguageCodes) then Failure(InvalidLanguage(language, LanguageCodes))
      else
        Success(Tokenizer(vocab, floats, withoutTimestamps, maxLength,
                          Some(vocab.tokenToId("<|" + task.value + "|>")),
                          Some(vocab.tokenToId("<|" + language.value + "|>")),
                          language.value))
    else
      Success(Tokenizer(vocab, floats, withoutTimestamps, maxLength, None, None, "en"))
  }

  // ---------------------------------------------------------------------
  // The tokenizer
  // ---------------------------------------------------------------------

  datatype Tokenizer = Tokenizer(
    vocab: Vocabulary,
    floats: FloatFormatting,
    withoutTimestamps: bool,
    maxLength: int,
    task: Option<int>,       // token id of the task, set in multilingual mode
    language: Option<int>,   // token id of the language, set in multilingual mode
    languageCode: string)
  {
    // Control token ids, looked up in the vocabulary.
    function Transcribe(): int { vocab.tokenToId(TranscribeToken) }
    function Translate(): int { vocab.tokenToId(TranslateToken) }
    function Sot(): int { vocab.tokenToId(SotToken) }
    function SotLm(): int { vocab.tokenToId(SotLmToken) }
    function SotPrev(): int { vocab.tokenToId(SotPrevToken) }
    function Eot(): int { vocab.tokenToId(EotToken) }
    function NoTimestamps(): int { vocab.tokenToId(NoTimestampsToken) }

    /** The first timestamp token, right after the no-timestamps token, which
        is therefore never taken for a timestamp. */
    function TimestampBegin(): (r: int)
      ensures NoTimestamps() < r
    {
      NoTimestamps() + 1
    }

    /** The prologue of every prompt: start of transcript, then the language
        when set, then the task when set. */
    function SotSequence(): (r: seq<int>)
      ensures |r| == 1 + (if language.Some? then 1 else 0) + (if task.Some? then 1 else 0)
      ensures r[0] == Sot()
      ensures language.Some? ==> r[1] == language.value
      ensures task.Some? ==> r[|r| - 1] == task.value
      ensures language.None? && task.None? ==> r == [Sot()]
    {
      [Sot()] + (if language.Some? then [language.value] else [])
              + (if task.Some? then [task.value] else [])
    }

    /** `timestamp_to_token`: only times within [0, 30] seconds have a literal. */
    function TimestampToToken(timestamp: real): (r: Result<string, TimestampError>)
      ensures r.Failure? <==> timestamp < 0.0 || timestamp > 30.0
      ensures r.Success? ==> r.value == floats.timeLiteral(timestamp)
    {
      if timestamp < 0.0 || timestamp > 30.0 then Failure(OutOfRange)
      else Success(floats.timeLiteral(timestamp))
    }

    /** `encode`: a string becomes the vocabulary's tokens for " " + the
        stripped string, cut when it reaches half of `maxLength`, and preceded
        by timestamp_begin unless timestamps are off. */
    method Encode(input: PromptInput) returns (r: Result<seq<int>, EncodeError>)
      ensures input.OtherValue? ==> r == Failure(InvalidInput)
      ensures input.Words? ==> r == Failure(MapTypeError)
      ensures input.Text? ==> r.Success?
      ensures input.Text? && !withoutTimestamps ==> |r.value| >= 1 && r.value[0] == TimestampBegin()
      ensures input.Text? ==>
                var full := vocab.encode(" " + Strip(input.text));
                var half := maxLength / 2;
                var body := if withoutTimestamps then r.value else r.value[1..];
                && body <= full
                && (|full| < half ==> body == full)
                && (|full| >= half && half >= 1 ==> |body| == half - 1)
                && (|full| >= half && half < 1 ==> |body| == Max(0, |full| + half - 1))
    {
      match input {
        case Text(text) =>
          var prefixTokens := vocab.encode(" " + Strip(text));
          if |prefixTokens| >= maxLength / 2 {
            prefixTokens := SliceTo(prefixTokens, maxLength / 2 - 1);
          }
          if !withoutTimestamps {
            prefixTokens := [TimestampBegin()] + prefixTokens;
          }
          r := Success(prefixTokens);
        case Words(_) =>
          r := Failure(MapTypeError);
        case OtherValue =>
          r := Failure(InvalidInput);
      }
    }

    /** `decode`: the vocabulary's text for the tokens below end-of-text;
        tokens that are all below end-of-text reach the vocabulary
        unchanged. */
    function Decode(tokens: seq<int>): (r: string)
      ensures (forall i :: 0 <= i < |tokens| ==> tokens[i] < Eot()) ==> r == vocab.decode(tokens)
    {
      BelowKeepsAll(tokens, Eot());
      vocab.decode(Below(tokens, Eot()))
    }

    /** The text of one element of `outputs`. */
    function Render(run: Run): string
    {
      match run
      case TextRun(ts) => vocab.decode(ts)
      case StampRun(k) => floats.offsetLiteral(k)
    }

    /** `"".join` of the texts of the first `n` runs. */
    function Rendered(runs: seq<Run>, n: nat): string
      requires n <= |runs|
    {
      if n == 0 then "" else Rendered(runs, n - 1) + Render(runs[n - 1])
    }

    /** What `decode_with_timestamps` returns. */
    function TimestampedText(tokens: seq<int>): string
    {
      var runs := Runs(TimestampBegin(), tokens, |tokens|);
      Rendered(runs, |runs|)
    }

    /** `decode_with_timestamps`: collects the runs in a loop, then joins
        their texts. */
    method DecodeWithTimestamps(tokens: seq<int>) returns (text: string)
      ensures text == TimestampedText(tokens)
    {
      var timestampBegin := TimestampBegin();
      var outputs: seq<Run> := [TextRun([])];
      for i := 0 to |tokens|
        invariant outputs == Runs(timestampBegin, tokens, i)
      {
        var token := tokens[i];
        if token >= timestampBegin {
          RunsStepAtStamp(timestampBegin, outputs, token);
          outputs := outputs + [StampRun(token - timestampBegin)] + [TextRun([])];
        } else {
          RunsStepAtText(timestampBegin, outputs, token);
          outputs := outputs[..|outputs| - 1] + [TextRun(outputs[|outputs| - 1].tokens + [token])];
        }
      }
      text := Rendered(outputs, |outputs|);
    }

    /** One pass of the loop of `split_tokens_on_unicode`, where `full` is the
        timestamped text of the whole input. */
    function ChunkStep(full: string, c: Chunking, t: int): Chunking
    {
      var buffer := c.current + [t];
      var decoded := TimestampedText(buffer);
      if Flushes(full, c.offset, decoded) then
        Chunking(c.words + [decoded], c.groups + [buffer], [], c.offset + |decoded|)
      else
        c.(current := buffer)
    }

    /** The accumulators of `split_tokens_on_unicode` after it has consumed
        the first `n` tokens of `s`. */
    function Chunked(full: string, s: seq<int>, n: nat): Chunking
      requires n <= |s|
    {
      if n == 0 then Chunking([], [], [], 0)
      else ChunkStep(full, Chunked(full, s, n - 1), s[n - 1])
    }

    /** What `split_tokens_on_unicode` returns. */
    function UnicodeSplit(tokens: seq<int>): (seq<string>, seq<seq<int>>)
    {
      var c := Chunked(TimestampedText(tokens), tokens, |tokens|);
      (c.words, c.groups)
    }

    /** What `split_tokens_on_spaces` returns: the chunks of the Unicode
        split, merged into words. */
    function SpaceSplit(tokens: seq<int>): (seq<string>, seq<seq<int>>)
    {
      var (subwords, subwordGroups) := UnicodeSplit(tokens);
      UnicodeSplitShape(this, tokens);
      Merged(Eot(), subwords, subwordGroups, |subwords|)
    }

    /** `split_tokens_on_unicode`: grows a buffer token by token and emits it
        as a chunk once its text passes the completeness test. */
    method SplitTokensOnUnicode(tokens: seq<int>) returns (words: seq<string>, groups: seq<seq<int>>)
      ensures (words, groups) == UnicodeSplit(tokens)
      ensures Grouped(words, groups)
    {
      var full := DecodeWithTimestamps(tokens);
      words, groups := [], [];
      var current: seq<int> := [];
      var offset: nat := 0;
      for i := 0 to |tokens|
        invariant Chunking(words, groups, current, offset) == Chunked(full, tokens, i)
      {
        current := current + [tokens[i]];
        var decoded := DecodeWithTimestamps(current);
        var index := IndexOf(decoded, ReplacementChar);
        FlushesAt(full, offset, decoded, index);
        if index.None? || (index.value + offset < |full| && full[index.value + offset] == ReplacementChar) {
          ChunkedFlush(this, full, tokens, i, current, decoded);
          words := words + [decoded];
          groups := groups + [current];
          current := [];
          offset := offset + |decoded|;
        } else {
          ChunkedKeep(this, full, tokens, i, current);
        }
      }
      UnicodeSplitShape(this, tokens);
    }

    /** `split_tokens_on_spaces`: merges each Unicode chunk into the previous
        word unless it starts a word of its own. */
    method SplitTokensOnSpaces(tokens: seq<int>) returns (words: seq<string>, groups: seq<seq<int>>)
      ensures (words, groups) == SpaceSplit(tokens)
      ensures Grouped(words, groups)
    {
      var subwords, subwordGroups := SplitTokensOnUnicode(tokens);
      words, groups := MergeSubwords(Eot(), subwords, subwordGroups);
      SpaceSplitShape(this, tokens);
    }

    /** `split_to_word_tokens`: the Unicode chunks for languages written
        without spaces, the merged words otherwise. */
    method SplitToWordTokens(tokens: seq<int>) returns (words: seq<string>, groups: seq<seq<int>>)
      ensures languageCode in NoSpaceLanguages ==> (words, groups) == UnicodeSplit(tokens)
      ensures languageCode !in NoSpaceLanguages ==> (words, groups) == SpaceSplit(tokens)
      ensures Grouped(words, groups)
    {
      if languageCode in NoSpaceLanguages {
        words, groups := SplitTokensOnUnicode(tokens);
      } else {
        words, groups := SplitTokensOnSpaces(tokens);
      }
    }

    /** No non-empty prefix of `buffer` passes the completeness test. */
    ghost predicate Pending(full: string, offset: nat, buffer: seq<int>)
    {
      forall k :: 0 < k <= |buffer| ==> !Flushes(full, offset, TimestampedText(buffer[..k]))
    }

    /** Each group is non-empty and its word is its timestamped text. */
    ghost predicate Labelled(words: seq<string>, groups: seq<seq<int>>)
      requires |words| == |groups|
    {
      forall i :: 0 <= i < |groups| ==> groups[i] != [] && words[i] == TimestampedText(groups[i])
    }

    /** The chunks and the pending buffer together are the first `n` tokens
        of `s`, in order; each chunk is labelled with its text; the offset is
        the length of the words so far. */
    ghost predicate Covers(s: seq<int>, n: nat, c: Chunking)
      requires n <= |s|
    {
      && |c.words| == |c.groups|
      && Labelled(c.words, c.groups)
      && Flatten(c.groups) + c.current == s[..n]
      && c.offset == |Flatten(c.words)|
    }

    /** The state of `split_tokens_on_unicode` after the first `n` tokens of
        `s`: it covers them and was built greedily. */
    ghost predicate Chunks(full: string, s: seq<int>, n: nat, c: Chunking)
      requires n <= |s|
    {
      Covers(s, n, c) && Greedy(full, c)
    }

    /** Each chunk is the shortest buffer that passed the completeness test
        at its offset, and the pending buffer has not passed it. */
    ghost predicate Greedy(full: string, c: Chunking)
      requires |c.words| == |c.groups|
    {
      AllFlushedFirst(full, c.words, c.groups) && Pending(full, c.offset, c.current)
    }

    /** Every chunk passed the test first at the offset where it started,
        the total length of the words before it. */
    ghost predicate AllFlushedFirst(full: string, words: seq<string>, groups: seq<seq<int>>)
      requires |words| == |groups|
      decreases |words|
    {
      words == [] ||
        var n := |words| - 1;
        AllFlushedFirst(full, words[..n], groups[..n]) && FlushedFirst(full, |Flatten(words[..n])|, words[n], groups[n])
    }

    /** `group` passed the test with text `word`, and none of its proper
        prefixes did. */
    ghost predicate FlushedFirst(full: string, offset: nat, word: string, group: seq<int>)
    {
      group != [] && Flushes(full, offset, word) && Pending(full, offset, group[..|group| - 1])
    }
  }

  // ---------------------------------------------------------------------
  // decode
  // ---------------------------------------------------------------------

  /** A control token, wherever it stands, does not change the decoded text. */
  lemma DecodeSkipsControl(tok: Tokenizer, a: seq<int>, t: int, b: seq<int>)
    requires t >= tok.Eot()
    ensures tok.Decode(a + [t] + b) == tok.Decode(a + b)
  {
    var eot := tok.Eot();
    BelowAppend(a + [t], b, eot);
    BelowAppend(a, [t], eot);
    BelowDropsSingle(t, eot);
    BelowAppend(a, b, eot);
    assert Below(a + [t] + b, eot) == Below(a + b, eot);
    assert tok.Decode(a + b) == tok.vocab.decode(Below(a + b, eot));
  }

  // ---------------------------------------------------------------------
  // decode_with_timestamps
  // ---------------------------------------------------------------------

  /** The `outputs` list of `decode_with_timestamps` always ends with the
      text run that the next ordinary token joins. */
  predicate EndsInText(runs: seq<Run>)
  {
    |runs| >= 1 && runs[|runs| - 1].TextRun?
  }

  /** One pass of the loop of `decode_with_timestamps`: a timestamp token
      appends its own run and a fresh text run; any other token joins the
      last text run. */
  function RunsStep(tb: int, runs: seq<Run>, t: int): (r: seq<Run>)
    requires EndsInText(runs)
    ensures EndsInText(r)
  {
    if t >= tb then runs + [StampRun(t - tb)] + [TextRun([])]
    else runs[..|runs| - 1] + [TextRun(runs[|runs| - 1].tokens + [t])]
  }

  /** The `outputs` list of `decode_with_timestamps` after it has consumed
      the first `n` tokens of `s`; it always ends in a text run. */
  function Runs(tb: int, s: seq<int>, n: nat): (r: seq<Run>)
    requires n <= |s|
    ensures EndsInText(r)
  {
    if n == 0 then [TextRun([])]
    else RunsStep(tb, Runs(tb, s, n - 1), s[n - 1])
  }

  // Unfolding aids: `RunsStepAtStamp`, `RunsStepAtText` and `RunsUnfold`
  // only restate one step of `RunsStep` or `Runs` so that the loop of
  // `DecodeWithTimestamps` and the inductions below can name it cheaply.

  lemma RunsStepAtStamp(tb: int, runs: seq<Run>, t: int)
    requires EndsInText(runs) && t >= tb
    ensures RunsStep(tb, runs, t) == runs + [StampRun(t - tb)] + [TextRun([])]
  {
  }

  lemma RunsStepAtText(tb: int, runs: seq<Run>, t: int)
    requires EndsInText(runs) && t < tb
    ensures RunsStep(tb, runs, t) == runs[..|runs| - 1] + [TextRun(runs[|runs| - 1].tokens + [t])]
  {
  }

  /** What one token does to `outputs`: every run but the last is kept; a
      timestamp token also keeps the last run and appends its own run and a
      fresh text run, and any other token is appended to the last text run. */
  lemma RunsStepShape(tb: int, runs: seq<Run>, t: int)
    requires EndsInText(runs)
    ensures var r, m := RunsStep(tb, runs, t), |runs| - 1;
            && |r| == |runs| + (if t >= tb then 2 else 0)
            && r[..m] == runs[..m]
            && (t >= tb ==> r[m] == runs[m] && r[m + 1] == StampRun(t - tb) && r[m + 2] == TextRun([]))
            && (t < tb ==> r[m] == TextRun(runs[m].tokens + [t]))
  {
  }

  /** `timestamp_begin` is the first token that `decode_with_timestamps`
      treats as a timestamp, at offset 0; `no_timestamps`, just below it,
      joins the last text run like any text token. */
  lemma TimestampBeginFirst(tok: Tokenizer, runs: seq<Run>)
    requires EndsInText(runs)
    ensures var tb, m := tok.TimestampBegin(), |runs| - 1;
            && RunsStep(tb, runs, tb) == runs + [StampRun(0), TextRun([])]
            && RunsStep(tb, runs, tok.NoTimestamps()) == runs[..m] + [TextRun(runs[m].tokens + [tok.NoTimestamps()])]
  {
  }

  lemma RunsStepAppend(tb: int, p: seq<Run>, q: seq<Run>, t: int)
    requires EndsInText(q)
    ensures RunsStep(tb, p + q, t) == p + RunsStep(tb, q, t)
  {
    if t >= tb {
      RunsStepAtStamp(tb, p + q, t);
      RunsStepAtStamp(tb, q, t);
    } else {
      RunsStepAtText(tb, p + q, t);
      RunsStepAtText(tb, q, t);
      assert (p + q)[..|p + q| - 1] == p + q[..|q| - 1];
    }
  }

  /** The runs depend only on the tokens consumed so far. */
  lemma {:induction false} RunsAgree(tb: int, s: seq<int>, s': seq<int>, n: nat)
    requires n <= |s| && n <= |s'|
    requires forall i :: 0 <= i < n ==> s[i] == s'[i]
    ensures Runs(tb, s, n) == Runs(tb, s', n)
  {
    if n > 0 {
      RunsAgree(tb, s, s', n - 1);
    }
  }

  /** Without timestamp tokens there is one text run holding every token. */
  lemma {:induction false} RunsOfText(tb: int, s: seq<int>, n: nat)
    requires n <= |s|
    requires forall i :: 0 <= i < n ==> s[i] < tb
    ensures Runs(tb, s, n) == [TextRun(s[..n])]
  {
    if n > 0 {
      RunsOfText(tb, s, n - 1);
      RunsStepAtText(tb, [TextRun(s[..n - 1])], s[n - 1]);
      assert s[..n - 1] + [s[n - 1]] == s[..n];
    }
  }

  /** The last step of `Runs`, with the consumed token named by value (an
      unfolding aid). */
  lemma RunsUnfold(tb: int, s: seq<int>, n: nat, t: int)
    requires 0 < n <= |s| && s[n - 1] == t
    ensures Runs(tb, s, n) == RunsStep(tb, Runs(tb, s, n - 1), t)
  {
  }

  /** The tokens of a text run; none for a timestamp run. */
  function RunTokens(run: Run): seq<int>
  {
    match run
    case TextRun(ts) => ts
    case StampRun(_) => []
  }

  /** The tokens of the text runs, in order. */
  function TextTokens(runs: seq<Run>): seq<int>
  {
    if runs == [] then [] else TextTokens(runs[..|runs| - 1]) + RunTokens(runs[|runs| - 1])
  }

  lemma TextTokensSnoc(runs: seq<Run>, run: Run)
    ensures TextTokens(runs + [run]) == TextTokens(runs) + RunTokens(run)
  {
    assert (runs + [run])[..|runs|] == runs;
  }

  lemma TextTokensAfterStamp(runs: seq<Run>, k: int)
    ensures TextTokens(runs + [StampRun(k)] + [TextRun([])]) == TextTokens(runs)
  {
    TextTokensSnoc(runs, StampRun(k));
    TextTokensSnoc(runs + [StampRun(k)], TextRun([]));
  }

  lemma TextTokensExtendLast(runs: seq<Run>, t: int)
    requires EndsInText(runs)
    ensures var n := |runs| - 1;
            TextTokens(runs[..n] + [TextRun(runs[n].tokens + [t])]) == TextTokens(runs) + [t]
  {
    var n := |runs| - 1;
    TextTokensSnoc(runs[..n], TextRun(runs[n].tokens + [t]));
  }

  lemma TextTokensStepStamp(tb: int, runs: seq<Run>, t: int)
    requires EndsInText(runs) && t >= tb
    ensures TextTokens(RunsStep(tb, runs, t)) == TextTokens(runs)
  {
    RunsStepAtStamp(tb, runs, t);
    TextTokensAfterStamp(runs, t - tb);
  }

  lemma TextTokensStepText(tb: int, runs: seq<Run>, t: int)
    requires EndsInText(runs) && t < tb
    ensures TextTokens(RunsStep(tb, runs, t)) == TextTokens(runs) + [t]
  {
    RunsStepAtText(tb, runs, t);
    TextTokensExtendLast(runs, t);
  }

  /** The text runs after `n` tokens, joined, are the first `n` tokens that
      are below timestamp_begin. The induction `TextKeptAll` is stated over
      this predicate to keep each step small; `RunsText` states the same
      fact in full. */
  ghost predicate TextKept(tb: int, s: seq<int>, n: nat)
    requires n <= |s|
  {
    TextTokens(Runs(tb, s, n)) == Below(s[..n], tb)
  }

  lemma {:induction false} TextKeptAll(tb: int, s: seq<int>, n: nat)
    requires n <= |s|
    ensures TextKept(tb, s, n)
  {
    if n == 0 {
      TextTokensOfEmpty();
    } else {
      TextKeptAll(tb, s, n - 1);
      RunsTextStep(tb, s, n);
    }
  }

  /** The text runs, joined, are exactly the tokens below timestamp_begin,
      in their original order. */
  lemma RunsText(tb: int, s: seq<int>, n: nat)
    requires n <= |s|
    ensures TextTokens(Runs(tb, s, n)) == Below(s[..n], tb)
  {
    TextKeptAll(tb, s, n);
  }

  lemma TextTokensOfEmpty()
    ensures TextTokens([TextRun([])]) == []
  {
    assert [TextRun([])][..0] == [];
    assert TextTokens([]) + [] == [];
  }

  lemma RunsTextStep(tb: int, s: seq<int>, n: nat)
    requires 0 < n <= |s|
    requires TextKept(tb, s, n - 1)
    ensures TextKept(tb, s, n)
  {
    var runs, t := Runs(tb, s, n - 1), s[n - 1];
    BelowPrefixStep(s, n - 1, tb);
    RunsUnfold(tb, s, n, t);
    if t >= tb {
      TextTokensStepStamp(tb, runs, t);
    } else {
      TextTokensStepText(tb, runs, t);
    }
  }

  /** For k tokens at or above timestamp_begin there are 2k + 1 runs. */
  lemma {:induction false} RunsCount(tb: int, s: seq<int>, n: nat)
    requires n <= |s|
    ensures |Runs(tb, s, n)| == 2 * (n - |Below(s[..n], tb)|) + 1
  {
    if n > 0 {
      RunsCount(tb, s, n - 1);
      BelowPrefixStep(s, n - 1, tb);
      if s[n - 1] >= tb {
        RunsStepAtStamp(tb, Runs(tb, s, n - 1), s[n - 1]);
      } else {
        RunsStepAtText(tb, Runs(tb, s, n - 1), s[n - 1]);
      }
    }
  }

  /** Text and timestamp runs alternate, starting and ending with text. */
  ghost predicate Alternating(tb: int, runs: seq<Run>)
  {
    |runs| % 2 == 1 && forall i :: 0 <= i < |runs| ==> WellPlaced(tb, i, runs[i])
  }

  /** Run `i` is a text run exactly when `i` is even; text runs hold only
      tokens below timestamp_begin, and timestamp runs are at a non-negative
      distance from it. */
  ghost predicate WellPlaced(tb: int, i: int, run: Run)
  {
    match run
    case TextRun(ts) => i % 2 == 0 && forall x :: x in ts ==> x < tb
    case StampRun(k) => i % 2 == 1 && k >= 0
  }

  lemma AlternatingStepStamp(tb: int, runs: seq<Run>, t: int)
    requires EndsInText(runs) && t >= tb
    requires Alternating(tb, runs)
    ensures Alternating(tb, RunsStep(tb, runs, t))
  {
    RunsStepAtStamp(tb, runs, t);
    var r := runs + [StampRun(t - tb)] + [TextRun([])];
    forall i | 0 <= i < |r| ensures WellPlaced(tb, i, r[i]) {
      if i < |runs| {
        assert r[i] == runs[i];
      }
    }
  }

  lemma AlternatingStepText(tb: int, runs: seq<Run>, t: int)
    requires EndsInText(runs) && t < tb
    requires Alternating(tb, runs)
    ensures Alternating(tb, RunsStep(tb, runs, t))
  {
    RunsStepAtText(tb, runs, t);
    var n := |runs| - 1;
    var r := runs[..n] + [TextRun(runs[n].tokens + [t])];
    forall i | 0 <= i < |r| ensures WellPlaced(tb, i, r[i]) {
      if i < n {
        assert r[i] == runs[i];
      } else {
        assert WellPlaced(tb, n, runs[n]);
      }
    }
  }

  /** The runs alternate between text and timestamps, as `Alternating` says. */
  lemma {:induction false} RunsAlternate(tb: int, s: seq<int>, n: nat)
    requires n <= |s|
    ensures Alternating(tb, Runs(tb, s, n))
  {
    if n == 0 {
      assert WellPlaced(tb, 0, TextRun([]));
    } else {
      RunsAlternate(tb, s, n - 1);
      if s[n - 1] >= tb {
        AlternatingStepStamp(tb, Runs(tb, s, n - 1), s[n - 1]);
      } else {
        AlternatingStepText(tb, Runs(tb, s, n - 1), s[n - 1]);
      }
    }
  }

  /** The rendered text depends only on the runs rendered so far. */
  lemma {:induction false} RenderedAgree(tok: Tokenizer, p: seq<Run>, q: seq<Run>, n: nat)
    requires n <= |p| && n <= |q|
    requires forall i :: 0 <= i < n ==> p[i] == q[i]
    ensures tok.Rendered(p, n) == tok.Rendered(q, n)
  {
    if n > 0 {
      RenderedAgree(tok, p, q, n - 1);
    }
  }

  /** Rendering a concatenation concatenates the renderings. */
  lemma {:induction false} RenderedAppend(tok: Tokenizer, p: seq<Run>, q: seq<Run>, n: nat)
    requires n <= |q|
    ensures tok.Rendered(p + q, |p| + n) == tok.Rendered(p, |p|) + tok.Rendered(q, n)
  {
    if n == 0 {
      RenderedAgree(tok, p + q, p, |p|);
    } else {
      RenderedAppend(tok, p, q, n - 1);
      assert (p + q)[|p| + n - 1] == q[n - 1];
    }
  }

  /** A single run renders as its own text. */
  lemma RenderedSingle(tok: Tokenizer, run: Run)
    ensures tok.Rendered([run], 1) == tok.Render(run)
  {
    assert tok.Rendered([run], 0) == "";
    assert "" + tok.Render(run) == tok.Render(run);
  }

  /** Without timestamp tokens, the timestamped text is the vocabulary's text. */
  lemma TimestampedTextOfText(tok: Tokenizer, s: seq<int>)
    requires forall i :: 0 <= i < |s| ==> s[i] < tok.TimestampBegin()
    ensures tok.TimestampedText(s) == tok.vocab.decode(s)
  {
    RunsOfText(tok.TimestampBegin(), s, |s|);
    assert s[..|s|] == s;
    RenderedSingle(tok, TextRun(s));
  }

  /** The runs of `a + [t] + b` up to the `n`-th token of `b` are those of
      `a`, the run of the timestamp token `t`, and those of `b` up to `n`.
      The induction `RunsSplitAround` is stated over this predicate to keep
      each step small; `RunsAround` states the case `n == |b|` in full. */
  ghost predicate SplitsAround(tb: int, a: seq<int>, t: int, b: seq<int>, n: nat)
    requires n <= |b|
  {
    Runs(tb, a + [t] + b, |a| + 1 + n) == Runs(tb, a, |a|) + [StampRun(t - tb)] + Runs(tb, b, n)
  }

  lemma {:induction false} RunsSplitAround(tb: int, a: seq<int>, t: int, b: seq<int>, n: nat)
    requires t >= tb && n <= |b|
    ensures SplitsAround(tb, a, t, b, n)
  {
    if n == 0 {
      RunsAtStampToken(tb, a, t, b);
    } else {
      RunsSplitAround(tb, a, t, b, n - 1);
      RunsAroundStep(tb, a + [t] + b, Runs(tb, a, |a|) + [StampRun(t - tb)], b, |a| + n, n);
    }
  }

  /** A timestamp token `t` cuts the runs in two around its own run: what
      follows it is run afresh, as if `b` were decoded on its own. */
  lemma RunsAround(tb: int, a: seq<int>, t: int, b: seq<int>)
    requires t >= tb
    ensures var u := a + [t] + b;
            Runs(tb, u, |u|) == Runs(tb, a, |a|) + [StampRun(t - tb)] + Runs(tb, b, |b|)
  {
    RunsSplitAround(tb, a, t, b, |b|);
  }

  /** The timestamp token itself closes the runs of `a`. */
  lemma RunsAtStampToken(tb: int, a: seq<int>, t: int, b: seq<int>)
    requires t >= tb
    ensures Runs(tb, a + [t] + b, |a| + 1) == Runs(tb, a, |a|) + [StampRun(t - tb)] + [TextRun([])]
  {
    var u := a + [t] + b;
    RunsAgree(tb, u, a, |a|);
    RunsUnfold(tb, u, |a| + 1, t);
    RunsStepAtStamp(tb, Runs(tb, u, |a|), t);
  }

  /** One token after the timestamp: it extends the runs of `u` exactly as it
      extends those of `b`. */
  lemma RunsAroundStep(tb: int, u: seq<int>, front: seq<Run>, b: seq<int>, m: nat, n: nat)
    requires 0 < n <= |b| && m < |u| && u[m] == b[n - 1]
    requires Runs(tb, u, m) == front + Runs(tb, b, n - 1)
    ensures Runs(tb, u, m + 1) == front + Runs(tb, b, n)
  {
    var x := b[n - 1];
    calc {
      Runs(tb, u, m + 1);
      { RunsUnfold(tb, u, m + 1, x); }
      RunsStep(tb, Runs(tb, u, m), x);
      RunsStep(tb, front + Runs(tb, b, n - 1), x);
      { RunsStepAppend(tb, front, Runs(tb, b, n - 1), x); }
      front + RunsStep(tb, Runs(tb, b, n - 1), x);
      { RunsUnfold(tb, b, n, x); }
      front + Runs(tb, b, n);
    }
  }

  /** Rendering `p`, one run and `q` renders each in turn. */
  lemma RenderedAround(tok: Tokenizer, p: seq<Run>, run: Run, q: seq<Run>)
    ensures var r := p + [run] + q;
            tok.Rendered(r, |r|) == tok.Rendered(p, |p|) + tok.Render(run) + tok.Rendered(q, |q|)
  {
    var front := p + [run];
    calc {
      tok.Rendered(front + q, |front| + |q|);
      { RenderedAppend(tok, front, q, |q|); }
      tok.Rendered(front, |p| + 1) + tok.Rendered(q, |q|);
      { RenderedAppend(tok, p, [run], 1); }
      tok.Rendered(p, |p|) + tok.Rendered([run], 1) + tok.Rendered(q, |q|);
      { RenderedSingle(tok, run); }
      tok.Rendered(p, |p|) + tok.Render(run) + tok.Rendered(q, |q|);
    }
  }

  /** A timestamp token contributes its literal between the texts of what
      precedes and what follows it. */
  lemma TimestampedTextAtStamp(tok: Tokenizer, a: seq<int>, t: int, b: seq<int>)
    requires t >= tok.TimestampBegin()
    ensures tok.TimestampedText(a + [t] + b)
            == tok.TimestampedText(a) + tok.floats.offsetLiteral(t - tok.TimestampBegin()) + tok.TimestampedText(b)
  {
    var tb, u := tok.TimestampBegin(), a + [t] + b;
    var p, run, q := Runs(tb, a, |a|), StampRun(t - tb), Runs(tb, b, |b|);
    calc {
      tok.TimestampedText(u);
      tok.Rendered(Runs(tb, u, |u|), |Runs(tb, u, |u|)|);
      { RunsAround(tb, a, t, b); }
      tok.Rendered(p + [run] + q, |p + [run] + q|);
      { RenderedAround(tok, p, run, q); }
      tok.Rendered(p, |p|) + tok.Render(run) + tok.Rendered(q, |q|);
    }
  }

  // ---------------------------------------------------------------------
  // split_tokens_on_unicode
  // ---------------------------------------------------------------------

  /** The completeness test of `split_tokens_on_unicode`: the buffer's text
      has no U+FFFD, or its first U+FFFD, shifted by `offset`, falls inside
      the full text at a U+FFFD of the full text. */
  predicate Flushes(full: string, offset: nat, decoded: string)
  {
    match IndexOf(decoded, ReplacementChar)
    case None => true
    case Some(i) => i + offset < |full| && full[i + offset] == ReplacementChar
  }

  /** The test in terms of the buffer's text: a text without U+FFFD always
      passes; otherwise only the first U+FFFD counts, and the test passes
      exactly when the full text has a U+FFFD at its index plus `offset`. */
  lemma FlushesFirstReplacement(full: string, offset: nat, decoded: string)
    ensures ReplacementChar !in decoded ==> Flushes(full, offset, decoded)
    ensures forall i :: 0 <= i < |decoded| && decoded[i] == ReplacementChar && ReplacementChar !in decoded[..i] ==>
              (Flushes(full, offset, decoded) <==> i + offset < |full| && full[i + offset] == ReplacementChar)
  {
  }

  // Unfolding aids: `FlushesAt`, `ChunkedFlush`, `ChunkedKeep`,
  // `ChunkStepFlush` and `ChunkStepKeep` only restate one branch of
  // `Flushes`, `Chunked` or `ChunkStep`, for the loop of
  // `SplitTokensOnUnicode` and the invariant proofs below.

  lemma FlushesAt(full: string, offset: nat, decoded: string, index: Option<nat>)
    requires index == IndexOf(decoded, ReplacementChar)
    ensures Flushes(full, offset, decoded)
            <==> index.None? || (index.value + offset < |full| && full[index.value + offset] == ReplacementChar)
  {
  }

  /** A buffer that passes the test becomes a chunk and the buffer empties. */
  lemma ChunkedFlush(tok: Tokenizer, full: string, s: seq<int>, n: nat, buffer: seq<int>, decoded: string)
    requires n < |s|
    requires buffer == tok.Chunked(full, s, n).current + [s[n]] && decoded == tok.TimestampedText(buffer)
    requires Flushes(full, tok.Chunked(full, s, n).offset, decoded)
    ensures var c := tok.Chunked(full, s, n);
            tok.Chunked(full, s, n + 1) == Chunking(c.words + [decoded], c.groups + [buffer], [], c.offset + |decoded|)
  {
  }

  /** A buffer that fails the test stays pending. */
  lemma ChunkedKeep(tok: Tokenizer, full: string, s: seq<int>, n: nat, buffer: seq<int>)
    requires n < |s|
    requires buffer == tok.Chunked(full, s, n).current + [s[n]]
    requires !Flushes(full, tok.Chunked(full, s, n).offset, tok.TimestampedText(buffer))
    ensures tok.Chunked(full, s, n + 1) == tok.Chunked(full, s, n).(current := buffer)
  {
  }

  lemma ChunkStepFlush(tok: Tokenizer, full: string, c: Chunking, t: int)
    requires Flushes(full, c.offset, tok.TimestampedText(c.current + [t]))
    ensures var buffer := c.current + [t];
            var decoded := tok.TimestampedText(buffer);
            tok.ChunkStep(full, c, t) == Chunking(c.words + [decoded], c.groups + [buffer], [], c.offset + |decoded|)
  {
  }

  lemma ChunkStepKeep(tok: Tokenizer, full: string, c: Chunking, t: int)
    requires !Flushes(full, c.offset, tok.TimestampedText(c.current + [t]))
    ensures tok.ChunkStep(full, c, t) == c.(current := c.current + [t])
  {
  }

  /** One token either joins the pending buffer or, when the buffer's text
      passes the test, closes it as a new chunk; earlier chunks are kept,
      and no token is lost, duplicated or reordered. */
  lemma ChunkStepShape(tok: Tokenizer, full: string, c: Chunking, t: int)
    ensures var r, buffer := tok.ChunkStep(full, c, t), c.current + [t];
            var flushed := Flushes(full, c.offset, tok.TimestampedText(buffer));
            && Flatten(r.groups) + r.current == Flatten(c.groups) + buffer
            && c.words <= r.words && c.groups <= r.groups
            && |r.groups| == |c.groups| + (if flushed then 1 else 0)
            && (r.current == [] <==> flushed)
  {
    FlattenSnoc(c.groups, c.current + [t]);
  }

  lemma LabelledSnoc(tok: Tokenizer, words: seq<string>, groups: seq<seq<int>>, w: string, g: seq<int>)
    requires |words| == |groups| && tok.Labelled(words, groups)
    requires g != [] && w == tok.TimestampedText(g)
    ensures tok.Labelled(words + [w], groups + [g])
  {
    var words', groups' := words + [w], groups + [g];
    forall i | 0 <= i < |groups'| ensures groups'[i] != [] && words'[i] == tok.TimestampedText(groups'[i]) {
      if i < |groups| {
        assert groups'[i] == groups[i] && words'[i] == words[i];
      }
    }
  }

  /** Emitting the buffer as a chunk keeps `Covers`. */
  lemma CoversAfterFlush(tok: Tokenizer, s: seq<int>, n: nat, c: Chunking, buffer: seq<int>, decoded: string)
    requires n < |s| && tok.Covers(s, n, c)
    requires buffer == c.current + [s[n]] && decoded == tok.TimestampedText(buffer)
    ensures tok.Covers(s, n + 1, Chunking(c.words + [decoded], c.groups + [buffer], [], c.offset + |decoded|))
  {
    FlattenSnoc(c.groups, buffer);
    FlattenSnoc(c.words, decoded);
    assert s[..n + 1] == s[..n] + [s[n]];
    assert Flatten(c.groups) + (c.current + [s[n]]) + [] == s[..n + 1];
    LabelledSnoc(tok, c.words, c.groups, decoded, buffer);
  }

  /** Keeping the buffer keeps `Covers`. */
  lemma CoversAfterKeep(tok: Tokenizer, s: seq<int>, n: nat, c: Chunking)
    requires n < |s| && tok.Covers(s, n, c)
    ensures tok.Covers(s, n + 1, c.(current := c.current + [s[n]]))
  {
    assert s[..n + 1] == s[..n] + [s[n]];
  }

  /** Emitting the buffer as a chunk, when it passes the test, keeps `Greedy`. */
  lemma GreedyAfterFlush(tok: Tokenizer, full: string, c: Chunking, buffer: seq<int>, decoded: string)
    requires |c.words| == |c.groups| && c.offset == |Flatten(c.words)|
    requires tok.Greedy(full, c)
    requires buffer != [] && buffer[..|buffer| - 1] == c.current
    requires Flushes(full, c.offset, decoded)
    ensures tok.Greedy(full, Chunking(c.words + [decoded], c.groups + [buffer], [], c.offset + |decoded|))
  {
    var words, groups := c.words + [decoded], c.groups + [buffer];
    assert words[..|c.words|] == c.words;
    assert groups[..|c.groups|] == c.groups;
    assert tok.FlushedFirst(full, c.offset, decoded, buffer);
  }

  /** Keeping the buffer, when it fails the test, keeps `Greedy`. */
  lemma GreedyAfterKeep(tok: Tokenizer, full: string, c: Chunking, t: int)
    requires |c.words| == |c.groups|
    requires tok.Greedy(full, c)
    requires !Flushes(full, c.offset, tok.TimestampedText(c.current + [t]))
    ensures tok.Greedy(full, c.(current := c.current + [t]))
  {
    var buffer := c.current + [t];
    forall k | 0 < k <= |buffer| ensures !Flushes(full, c.offset, tok.TimestampedText(buffer[..k])) {
      if k <= |c.current| {
        assert buffer[..k] == c.current[..k];
      } else {
        assert buffer[..k] == buffer;
      }
    }
  }

  /** One pass of the loop of `split_tokens_on_unicode` keeps `Covers` and
      `Greedy`. */
  lemma ChunkStepKeepsInvariant(tok: Tokenizer, full: string, s: seq<int>, n: nat, c: Chunking)
    requires n < |s| && tok.Chunks(full, s, n, c)
    ensures tok.Chunks(full, s, n + 1, tok.ChunkStep(full, c, s[n]))
  {
    var t := s[n];
    var buffer := c.current + [t];
    var decoded := tok.TimestampedText(buffer);
    if Flushes(full, c.offset, decoded) {
      ChunkStepFlush(tok, full, c, t);
      CoversAfterFlush(tok, s, n, c, buffer, decoded);
      assert buffer[..|buffer| - 1] == c.current;
      GreedyAfterFlush(tok, full, c, buffer, decoded);
    } else {
      ChunkStepKeep(tok, full, c, t);
      CoversAfterKeep(tok, s, n, c);
      GreedyAfterKeep(tok, full, c, t);
    }
  }

  /** The loop of `split_tokens_on_unicode` keeps `Covers` and `Greedy`. */
  lemma {:induction false} ChunkedInvariant(tok: Tokenizer, full: string, s: seq<int>, n: nat)
    requires n <= |s|
    ensures tok.Chunks(full, s, n, tok.Chunked(full, s, n))
  {
    if n > 0 {
      ChunkedInvariant(tok, full, s, n - 1);
      ChunkStepKeepsInvariant(tok, full, s, n - 1, tok.Chunked(full, s, n - 1));
    }
  }

  /** The chunks of `split_tokens_on_unicode` are non-empty, each word is
      its group's timestamped text, the offset is the length of the words,
      and the groups, joined, are a prefix of the input. */
  lemma UnicodeSplitShape(tok: Tokenizer, tokens: seq<int>)
    ensures var (words, groups) := tok.UnicodeSplit(tokens);
            && Grouped(words, groups)
            && (forall i :: 0 <= i < |groups| ==> words[i] == tok.TimestampedText(groups[i]))
            && Flatten(groups) <= tokens
  {
    var full := tok.TimestampedText(tokens);
    ChunkedInvariant(tok, full, tokens, |tokens|);
    var c := tok.Chunked(full, tokens, |tokens|);
    assert tokens[..|tokens|] == tokens;
    assert Flatten(c.groups) + c.current == tokens;
  }

  // ---------------------------------------------------------------------
  // split_tokens_on_spaces
  // ---------------------------------------------------------------------

  /** The word-start test of `split_tokens_on_spaces`, short of the "no word
      yet" case: a special first token, a leading space, or a stripped text
      that is a substring of `string.punctuation`. */
  predicate StartsWord(eot: int, subword: string, subwordTokens: seq<int>)
    requires subwordTokens != []
  {
    || subwordTokens[0] >= eot
    || (|subword| > 0 && subword[0] == ' ')
    || IsPunctuation(Strip(subword))
  }

  /** A chunk starts a word when its first token is a control or timestamp
      token, when its text starts with a space, or when its stripped text
      occurs inside `string.punctuation`, which the empty text always does. */
  lemma StartsWordCases(eot: int, subword: string, subwordTokens: seq<int>)
    requires subwordTokens != []
    ensures StartsWord(eot, subword, subwordTokens)
            <==> || subwordTokens[0] >= eot
                 || (|subword| > 0 && subword[0] == ' ')
                 || exists i :: OccursAt(Punctuation, Strip(subword), i)
    ensures Strip(subword) == [] ==> StartsWord(eot, subword, subwordTokens)
  {
    var stripped := Strip(subword);
    if stripped == [] {
      assert OccursAt(Punctuation, stripped, 0);
    }
  }

  /** A chunk whose stripped text is a single punctuation mark starts a word. */
  lemma PunctuationMarkStartsWord(eot: int, subword: string, subwordTokens: seq<int>, k: nat)
    requires subwordTokens != [] && k < |Punctuation| && Strip(subword) == [Punctuation[k]]
    ensures StartsWord(eot, subword, subwordTokens)
  {
    assert OccursAt(Punctuation, Strip(subword), k);
  }

  /** One pass of the loop of `split_tokens_on_spaces`. */
  function MergeStep(eot: int, words: seq<string>, groups: seq<seq<int>>,
                     subword: string, subwordTokens: seq<int>): (seq<string>, seq<seq<int>>)
    requires |words| == |groups| && subwordTokens != []
  {
    if StartsWord(eot, subword, subwordTokens) || |words| == 0 then
      (words + [subword], groups + [subwordTokens])
    else
      (words[..|words| - 1] + [words[|words| - 1] + subword],
       groups[..|groups| - 1] + [groups[|groups| - 1] + subwordTokens])
  }

  /** One chunk either starts a new word or extends the last one; every
      earlier word is kept, and the texts and groups, joined, grow by exactly
      the chunk's text and tokens. */
  lemma MergeStepShape(eot: int, words: seq<string>, groups: seq<seq<int>>, subword: string, subwordTokens: seq<int>)
    requires |words| == |groups| && subwordTokens != []
    ensures var r, m := MergeStep(eot, words, groups, subword, subwordTokens), |words| - 1;
            && Flatten(r.0) == Flatten(words) + subword
            && Flatten(r.1) == Flatten(groups) + subwordTokens
            && |r.0| == |words| + (if StartsWord(eot, subword, subwordTokens) || words == [] then 1 else 0)
            && (words != [] ==> words[..m] <= r.0 && groups[..m] <= r.1)
  {
    if StartsWord(eot, subword, subwordTokens) || words == [] {
      FlattenSnoc(words, subword);
      FlattenSnoc(groups, subwordTokens);
    } else {
      FlattenExtendLast(words, subword);
      FlattenExtendLast(groups, subwordTokens);
    }
  }

  /** The loop of `split_tokens_on_spaces`, over the Unicode chunks; `eot`
      is the tokenizer's end-of-text id. */
  method MergeSubwords(eot: int, subwords: seq<string>, subwordGroups: seq<seq<int>>)
    returns (words: seq<string>, groups: seq<seq<int>>)
    requires Grouped(subwords, subwordGroups)
    ensures (words, groups) == Merged(eot, subwords, subwordGroups, |subwords|)
  {
    words, groups := [], [];
    for i := 0 to |subwords|
      invariant (words, groups) == Merged(eot, subwords, subwordGroups, i)
    {
      var subword, subwordTokens := subwords[i], subwordGroups[i];
      if StartsWord(eot, subword, subwordTokens) || |words| == 0 {
        words := words + [subword];
        groups := groups + [subwordTokens];
      } else {
        words := words[..|words| - 1] + [words[|words| - 1] + subword];
        groups := groups[..|groups| - 1] + [groups[|groups| - 1] + subwordTokens];
      }
    }
  }

  /** One token group per word, and no group is empty. */
  ghost predicate Grouped(words: seq<string>, groups: seq<seq<int>>)
  {
    |words| == |groups| && forall i :: 0 <= i < |groups| ==> groups[i] != []
  }

  /** The words and groups of `split_tokens_on_spaces` after it has consumed
      the first `n` chunks. */
  function Merged(eot: int, subwords: seq<string>, subwordGroups: seq<seq<int>>, n: nat): (r: (seq<string>, seq<seq<int>>))
    requires Grouped(subwords, subwordGroups) && n <= |subwords|
    ensures |r.0| == |r.1|
  {
    if n == 0 then ([], [])
    else
      var prev := Merged(eot, subwords, subwordGroups, n - 1);
      MergeStep(eot, prev.0, prev.1, subwords[n - 1], subwordGroups[n - 1])
  }

  /** Which chunks start a word: the first, and every later one that passes
      `StartsWord`. */
  ghost function StartFlags(eot: int, subwords: seq<string>, subwordGroups: seq<seq<int>>): seq<bool>
    requires Grouped(subwords, subwordGroups)
  {
    seq(|subwords|, i requires 0 <= i < |subwords| => i == 0 || StartsWord(eot, subwords[i], subwordGroups[i]))
  }

  /** The indices of the chunks, among the first `n`, that start a word. */
  ghost function Starts(eot: int, subwords: seq<string>, subwordGroups: seq<seq<int>>, n: nat): seq<nat>
    requires Grouped(subwords, subwordGroups) && n <= |subwords|
  {
    TrueIndices(StartFlags(eot, subwords, subwordGroups), n)
  }

  /** `Starts` lists, in strictly increasing order, chunk 0 and exactly those
      later chunks below `n` that start a word. */
  lemma StartsShape(eot: int, subwords: seq<string>, subwordGroups: seq<seq<int>>, n: nat)
    requires Grouped(subwords, subwordGroups) && n <= |subwords|
    ensures var r := Starts(eot, subwords, subwordGroups, n);
            && |r| <= n
            && (n > 0 ==> |r| >= 1 && r[0] == 0)
            && (forall j :: 0 < j < |r| ==> r[j - 1] < r[j])
            && (forall j :: 0 <= j < |r| ==> r[j] < n)
            && (forall i :: 0 < i < n ==> (i in r <==> StartsWord(eot, subwords[i], subwordGroups[i])))
  {
    var flags := StartFlags(eot, subwords, subwordGroups);
    TrueIndicesShape(flags, n);
    var r := TrueIndices(flags, n);
    forall i | 0 < i < n ensures i in r <==> StartsWord(eot, subwords[i], subwordGroups[i]) {
      assert flags[i] == StartsWord(eot, subwords[i], subwordGroups[i]);
    }
  }

  /** Word `j` is the chunks from index `b[j]` up to `b[j + 1]`, joined, and
      its group is their token groups, joined. */
  ghost predicate Segment(subwords: seq<string>, subwordGroups: seq<seq<int>>,
                          words: seq<string>, groups: seq<seq<int>>, b: seq<nat>, j: nat)
  {
    && j < |words| && j < |groups| && j + 1 < |b|
    && b[j] < b[j + 1] <= |subwords| && b[j + 1] <= |subwordGroups|
    && words[j] == Flatten(subwords[b[j]..b[j + 1]])
    && groups[j] == Flatten(subwordGroups[b[j]..b[j + 1]])
  }

  /** Every word is the segment of chunks between consecutive boundaries of
      `b`. */
  ghost predicate Segments(subwords: seq<string>, subwordGroups: seq<seq<int>>,
                           words: seq<string>, groups: seq<seq<int>>, b: seq<nat>)
  {
    && |groups| == |words| && |b| == |words| + 1
    && forall j: nat :: j < |words| ==> Segment(subwords, subwordGroups, words, groups, b, j)
  }

  /** What merging keeps: no token or character is lost, duplicated or
      reordered, and word `j` is exactly the chunks from the `j`-th chunk
      that starts a word up to the next one (or chunk `n`). */
  ghost predicate MergeKeeps(eot: int, subwords: seq<string>, subwordGroups: seq<seq<int>>, n: nat,
                             words: seq<string>, groups: seq<seq<int>>)
    requires Grouped(subwords, subwordGroups) && n <= |subwords|
  {
    && Grouped(words, groups)
    && Flatten(groups) == Flatten(subwordGroups[..n])
    && Flatten(words) == Flatten(subwords[..n])
    && Segments(subwords, subwordGroups, words, groups, Starts(eot, subwords, subwordGroups, n) + [n])
  }

  /** A chunk that starts a word becomes a segment of its own. */
  lemma SegmentsSnoc(subwords: seq<string>, subwordGroups: seq<seq<int>>,
                     words: seq<string>, groups: seq<seq<int>>, b: seq<nat>, k: nat)
    requires Segments(subwords, subwordGroups, words, groups, b)
    requires b[|b| - 1] == k && k < |subwords| && k < |subwordGroups|
    ensures Segments(subwords, subwordGroups, words + [subwords[k]], groups + [subwordGroups[k]], b + [k + 1])
  {
    var words', groups', b' := words + [subwords[k]], groups + [subwordGroups[k]], b + [k + 1];
    forall j: nat | j < |words'|
      ensures Segment(subwords, subwordGroups, words', groups', b', j)
    {
      if j < |words| {
        assert Segment(subwords, subwordGroups, words, groups, b, j);
        assert b'[j] == b[j] && b'[j + 1] == b[j + 1];
        assert words'[j] == words[j] && groups'[j] == groups[j];
      } else {
        assert subwords[k..k + 1] == [subwords[k]];
        assert subwordGroups[k..k + 1] == [subwordGroups[k]];
        FlattenSingle(subwords[k]);
        FlattenSingle(subwordGroups[k]);
      }
    }
  }

  /** A chunk that does not start a word extends the last segment. */
  lemma SegmentsExtendLast(subwords: seq<string>, subwordGroups: seq<seq<int>>,
                           words: seq<string>, groups: seq<seq<int>>, b: seq<nat>, k: nat)
    requires Segments(subwords, subwordGroups, words, groups, b) && words != []
    requires b[|b| - 1] == k && k < |subwords| && k < |subwordGroups|
    ensures var m := |words| - 1;
            Segments(subwords, subwordGroups,
                     words[..m] + [words[m] + subwords[k]], groups[..m] + [groups[m] + subwordGroups[k]],
                     b[..m + 1] + [k + 1])
  {
    var m := |words| - 1;
    var words', groups' := words[..m] + [words[m] + subwords[k]], groups[..m] + [groups[m] + subwordGroups[k]];
    var b' := b[..m + 1] + [k + 1];
    forall j: nat | j < |words'|
      ensures Segment(subwords, subwordGroups, words', groups', b', j)
    {
      if j < m {
        assert Segment(subwords, subwordGroups, words, groups, b, j);
        assert b'[j] == b[j] && b'[j + 1] == b[j + 1];
        assert words'[j] == words[j] && groups'[j] == groups[j];
      } else {
        assert Segment(subwords, subwordGroups, words, groups, b, m);
        assert b'[m] == b[m] && b[m + 1] == k;
        FlattenSliceStep(subwords, b[m], k);
        FlattenSliceStep(subwordGroups, b[m], k);
      }
    }
  }

  lemma GroupedSnoc(words: seq<string>, groups: seq<seq<int>>, w: string, g: seq<int>)
    requires Grouped(words, groups) && g != []
    ensures Grouped(words + [w], groups + [g])
  {
    var groups' := groups + [g];
    forall i | 0 <= i < |groups'| ensures groups'[i] != [] {
      if i < |groups| {
        assert groups'[i] == groups[i];
      }
    }
  }

  lemma GroupedExtendLast(words: seq<string>, groups: seq<seq<int>>, w: string, g: seq<int>)
    requires Grouped(words, groups) && groups != []
    ensures var m := |groups| - 1;
            Grouped(words[..m] + [words[m] + w], groups[..m] + [groups[m] + g])
  {
    var m := |groups| - 1;
    var groups' := groups[..m] + [groups[m] + g];
    forall i | 0 <= i < |groups'| ensures groups'[i] != [] {
      if i < m {
        assert groups'[i] == groups[i];
      }
    }
  }

  /** A chunk that starts a word keeps `MergeKeeps`. */
  lemma MergeKeepsOnStart(eot: int, subwords: seq<string>, subwordGroups: seq<seq<int>>, n: nat,
                          words: seq<string>, groups: seq<seq<int>>)
    requires Grouped(subwords, subwordGroups) && n < |subwords|
    requires MergeKeeps(eot, subwords, subwordGroups, n, words, groups)
    requires StartsWord(eot, subwords[n], subwordGroups[n]) || |words| == 0
    ensures MergeKeeps(eot, subwords, subwordGroups, n + 1, words + [subwords[n]], groups + [subwordGroups[n]])
  {
    var w, g := subwords[n], subwordGroups[n];
    FlattenPrefixStep(subwordGroups, n);
    FlattenPrefixStep(subwords, n);
    FlattenSnoc(groups, g);
    FlattenSnoc(words, w);
    GroupedSnoc(words, groups, w, g);
    var starts := Starts(eot, subwords, subwordGroups, n);
    if |words| == 0 {
      assert n == 0;
    }
    var flags := StartFlags(eot, subwords, subwordGroups);
    assert flags[n];
    assert Starts(eot, subwords, subwordGroups, n + 1) + [n + 1] == (starts + [n]) + [n + 1];
    SegmentsSnoc(subwords, subwordGroups, words, groups, starts + [n], n);
  }

  /** A chunk that extends the last word keeps `MergeKeeps`. */
  lemma MergeKeepsOnExtend(eot: int, subwords: seq<string>, subwordGroups: seq<seq<int>>, n: nat,
                           words: seq<string>, groups: seq<seq<int>>)
    requires Grouped(subwords, subwordGroups) && n < |subwords|
    requires MergeKeeps(eot, subwords, subwordGroups, n, words, groups)
    requires !StartsWord(eot, subwords[n], subwordGroups[n]) && |words| != 0
    ensures var m := |words| - 1;
            MergeKeeps(eot, subwords, subwordGroups, n + 1,
                       words[..m] + [words[m] + subwords[n]], groups[..m] + [groups[m] + subwordGroups[n]])
  {
    var w, g := subwords[n], subwordGroups[n];
    FlattenPrefixStep(subwordGroups, n);
    FlattenPrefixStep(subwords, n);
    FlattenExtendLast(groups, g);
    FlattenExtendLast(words, w);
    GroupedExtendLast(words, groups, w, g);
    var starts := Starts(eot, subwords, subwordGroups, n);
    var flags := StartFlags(eot, subwords, subwordGroups);
    assert !flags[n];
    assert Starts(eot, subwords, subwordGroups, n + 1) == starts;
    assert (starts + [n])[..|words|] == starts;
    SegmentsExtendLast(subwords, subwordGroups, words, groups, starts + [n], n);
  }

  /** One pass of the loop of `split_tokens_on_spaces` keeps `MergeKeeps`. */
  lemma MergeStepKeeps(eot: int, subwords: seq<string>, subwordGroups: seq<seq<int>>, n: nat,
                       words: seq<string>, groups: seq<seq<int>>)
    requires Grouped(subwords, subwordGroups) && n < |subwords|
    requires MergeKeeps(eot, subwords, subwordGroups, n, words, groups)
    ensures var r := MergeStep(eot, words, groups, subwords[n], subwordGroups[n]);
            MergeKeeps(eot, subwords, subwordGroups, n + 1, r.0, r.1)
  {
    if StartsWord(eot, subwords[n], subwordGroups[n]) || |words| == 0 {
      MergeKeepsOnStart(eot, subwords, subwordGroups, n, words, groups);
    } else {
      MergeKeepsOnExtend(eot, subwords, subwordGroups, n, words, groups);
    }
  }

  /** `MergeKeeps` holds of the words and groups after `n` chunks. The
      induction `MergedKeepsAll` is stated over this predicate to keep each
      step small; `MergedShape` states the case of all chunks in full. */
  ghost predicate MergedKeeps(eot: int, subwords: seq<string>, subwordGroups: seq<seq<int>>, n: nat)
    requires Grouped(subwords, subwordGroups) && n <= |subwords|
  {
    var r := Merged(eot, subwords, subwordGroups, n);
    MergeKeeps(eot, subwords, subwordGroups, n, r.0, r.1)
  }

  lemma {:induction false} MergedKeepsAll(eot: int, subwords: seq<string>, subwordGroups: seq<seq<int>>, n: nat)
    requires Grouped(subwords, subwordGroups) && n <= |subwords|
    ensures MergedKeeps(eot, subwords, subwordGroups, n)
  {
    if n > 0 {
      MergedKeepsAll(eot, subwords, subwordGroups, n - 1);
      MergedStepKeeps(eot, subwords, subwordGroups, n);
    }
  }

  lemma MergedStepKeeps(eot: int, subwords: seq<string>, subwordGroups: seq<seq<int>>, n: nat)
    requires Grouped(subwords, subwordGroups) && 0 < n <= |subwords|
    requires MergedKeeps(eot, subwords, subwordGroups, n - 1)
    ensures MergedKeeps(eot, subwords, subwordGroups, n)
  {
    var r := Merged(eot, subwords, subwordGroups, n - 1);
    MergeStepKeeps(eot, subwords, subwordGroups, n - 1, r.0, r.1);
  }

  /** Merging all the chunks: the words and groups, joined, are the chunk
      texts and chunk groups joined, and word `j` is exactly the chunks from
      the `j`-th chunk that starts a word up to the next one (or the end), so
      there are never more words than chunks. */
  lemma MergedShape(eot: int, subwords: seq<string>, subwordGroups: seq<seq<int>>)
    requires Grouped(subwords, subwordGroups)
    ensures var (words, groups) := Merged(eot, subwords, subwordGroups, |subwords|);
            && Grouped(words, groups)
            && |words| <= |subwords|
            && Flatten(groups) == Flatten(subwordGroups)
            && Flatten(words) == Flatten(subwords)
            && Segments(subwords, subwordGroups, words, groups, Starts(eot, subwords, subwordGroups, |subwords|) + [|subwords|])
  {
    var n := |subwords|;
    MergedKeepsAll(eot, subwords, subwordGroups, n);
    StartsShape(eot, subwords, subwordGroups, n);
    assert subwords[..n] == subwords;
    assert subwordGroups[..n] == subwordGroups;
  }

  /** The words of `split_tokens_on_spaces` have non-empty groups that,
      joined, are the joined Unicode chunks, a prefix of the input; there are
      never more words than chunks. */
  lemma SpaceSplitShape(tok: Tokenizer, tokens: seq<int>)
    ensures var (subwords, subwordGroups) := tok.UnicodeSplit(tokens);
            var (words, groups) := tok.SpaceSplit(tokens);
            && Grouped(words, groups)
            && |words| <= |subwords|
            && Flatten(groups) == Flatten(subwordGroups)
            && Flatten(words) == Flatten(subwords)
            && Flatten(groups) <= tokens
  {
    var (subwords, subwordGroups) := tok.UnicodeSplit(tokens);
    UnicodeSplitShape(tok, tokens);
    MergedShape(tok.Eot(), subwords, subwordGroups);
  }
}
