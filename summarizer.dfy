/**
 * The summarizer agent of src/agents/summarizer.rs: a rule-based summary
 * of its input in one of four styles, and a bounded history of the
 * inputs it has seen.
 */
module Summarizer {
  import opened Prelude
  import opened Text
  import opened History

  datatype SummaryStyle = Bullets | Paragraph | KeyPoints | Executive

  datatype SummarizerConfig = SummarizerConfig(
    maxLength: nat,
    preserveEntities: bool,
    includeTimestamps: bool,
    style: SummaryStyle)

  /** `SummarizerConfig::default()`. */
  function DefaultConfig(): (c: SummarizerConfig)
    ensures c.maxLength == 500 && c.preserveEntities && !c.includeTimestamps && c.style == Paragraph
  {
    SummarizerConfig(500, true, false, Paragraph)
  }

  datatype SummarizerAgent = SummarizerAgent(
    config: SummarizerConfig,
    name: string,
    history: seq<string>,
    maxHistory: nat)

  /** `SummarizerAgent::new`: default configuration, empty history of at most 10. */
  function NewSummarizer(): (a: SummarizerAgent)
    ensures a.config == DefaultConfig() && a.name == "Summarizer"
    ensures a.history == [] && a.maxHistory == 10
  {
    SummarizerAgent(DefaultConfig(), "Summarizer", [], 10)
  }

  function WithConfig(a: SummarizerAgent, config: SummarizerConfig): SummarizerAgent
  {
    a.(config := config)
  }

  function WithName(a: SummarizerAgent, name: string): SummarizerAgent
  {
    a.(name := name)
  }

  /**
   * The bullet marker, exactly as the source spells it: the three
   * characters U+00E2 U+20AC U+00A2, which is how the UTF-8 bytes of
   * U+2022 read when decoded as Windows-1252.
   */
  const Bullet: string := "\U{E2}\U{20AC}\U{A2}"

  /** The sentence separator. */
  const Stop: string := ". "

  /** At most the first `n` elements of `s`: `take(n)`. */
  function Take(s: seq<string>, n: nat): (r: seq<string>)
    ensures |r| == Min(|s|, n) && r == s[..|r|]
  {
    s[..Min(|s|, n)]
  }

  /** A bullet line per sentence: the marker, a space and the trimmed sentence. */
  function BulletLines(sentences: seq<string>): (r: seq<string>)
    ensures |r| == |sentences|
    ensures forall i :: 0 <= i < |r| ==> r[i] == Bullet + " " + Trim(sentences[i])
    decreases |sentences|
  {
    if sentences == [] then []
    else [Bullet + " " + Trim(sentences[0])] + BulletLines(sentences[1..])
  }

  /** A sentence that mentions one of the key words. */
  predicate IsKeyPoint(sentence: string)
  {
    Contains(sentence, "important") || Contains(sentence, "key")
    || Contains(sentence, "critical") || Contains(sentence, "main")
  }

  /** The key-point sentences, in order: the `filter` of the key-points style. */
  function KeyPointsOf(sentences: seq<string>): (r: seq<string>)
    ensures forall i :: 0 <= i < |r| ==> IsKeyPoint(r[i]) && r[i] in sentences
    ensures r == [] <==> forall i :: 0 <= i < |sentences| ==> !IsKeyPoint(sentences[i])
    ensures |sentences| > 0 && IsKeyPoint(sentences[0]) ==> r[0] == sentences[0]
    decreases |sentences|
  {
    if sentences == [] then []
    else
      var rest := KeyPointsOf(sentences[1..]);
      assert forall i :: 0 <= i < |rest| ==> rest[i] in sentences by {
        forall i | 0 <= i < |rest| ensures rest[i] in sentences {
          assert rest[i] in sentences[1..];
        }
      }
      assert (forall i :: 1 <= i < |sentences| ==> !IsKeyPoint(sentences[i]))
        ==> forall i :: 0 <= i < |sentences[1..]| ==> !IsKeyPoint(sentences[1..][i]);
      if IsKeyPoint(sentences[0]) then [sentences[0]] + rest else rest
  }

  /** A single sentence is kept exactly when it is a key point. */
  lemma KeyPointsOfOne(sentence: string)
    ensures KeyPointsOf([sentence]) == if IsKeyPoint(sentence) then [sentence] else []
  {
    assert [sentence][1..] == [];
  }

  /**
   * The filter distributes over concatenation: every key sentence of
   * either part is kept, and those of the first part come first.
   */
  lemma {:induction false} KeyPointsOfAppend(a: seq<string>, b: seq<string>)
    ensures KeyPointsOf(a + b) == KeyPointsOf(a) + KeyPointsOf(b)
    decreases |a|
  {
    if a == [] {
      assert a + b == b;
    } else {
      assert (a + b)[1..] == a[1..] + b;
      assert (a + b)[0] == a[0];
      KeyPointsOfAppend(a[1..], b);
    }
  }

  /**
   * The text itself when it fits in `max` characters, otherwise its first
   * `max` characters followed by "...".
   */
  function Truncate(text: string, max: nat): (r: string)
    ensures |r| <= max + 3
    ensures |text| <= max ==> r == text
    ensures |text| > max ==> |r| == max + 3 && r[..max] == text[..max] && r[max..] == "..."
  {
    if |text| > max then text[..max] + "..." else text
  }

  /** `summarize`: the summary of `text` in the configured style. */
  function Summarize(config: SummarizerConfig, text: string): string
  {
    var sentences := Split(text, Stop);
    match config.style
    case Bullets => Join(BulletLines(Take(sentences, 3)), "\n")
    case KeyPoints =>
      var keyPoints := Take(KeyPointsOf(sentences), 3);
      if keyPoints == [] then Join(Take(sentences, 2), Stop) else Join(keyPoints, Stop)
    case _ => Truncate(text, config.maxLength)
  }

  /** One run: remember the input, then reply with its summary; no next node. */
  function Run(a: SummarizerAgent, input: string): (r: (SummarizerAgent, string, Option<int>))
    ensures r.0.history == PushBounded(a.history, input, a.maxHistory)
    ensures |a.history| <= a.maxHistory ==> |r.0.history| <= a.maxHistory
    ensures r.0.config == a.config && r.0.name == a.name && r.0.maxHistory == a.maxHistory
    ensures r.1 == "Summary: " + Summarize(a.config, input) && r.2.None?
  {
    (a.(history := PushBounded(a.history, input, a.maxHistory)), "Summary: " + Summarize(a.config, input), None)
  }

  /** A bullet summary always opens with the bullet marker. */
  lemma BulletsStartWithMarker(config: SummarizerConfig, text: string)
    requires config.style == Bullets
    ensures Bullet <= Summarize(config, text)
    ensures Contains(Summarize(config, text), Bullet)
  {
    var sentences := Take(Split(text, Stop), 3);
    assert Summarize(config, text) == Join(BulletLines(sentences), "\n");
    BulletJoinOpens(sentences);
    ContainsAt(Summarize(config, text), Bullet, 0);
  }

  /** Bullet lines joined by line breaks open with the marker. */
  lemma BulletJoinOpens(sentences: seq<string>)
    requires |sentences| >= 1
    ensures Bullet <= Join(BulletLines(sentences), "\n")
  {
    var lines := BulletLines(sentences);
    JoinStartsWithFirst(lines, "\n");
    assert lines[0] == Bullet + " " + Trim(sentences[0]);
    assert lines[0][..|Bullet|] == Bullet;
  }

  /**
   * For a text on one line, the lines of a bullet summary are exactly one
   * bullet per sentence for the first three sentences.
   */
  lemma BulletLinesOfSummary(config: SummarizerConfig, text: string)
    requires config.style == Bullets && '\n' !in text
    ensures var sentences := Split(text, Stop);
      Split(Summarize(config, text), "\n") == BulletLines(Take(sentences, 3))
      && |Split(Summarize(config, text), "\n")| == Min(|sentences|, 3)
  {
    var sentences := Split(text, Stop);
    var lines := BulletLines(Take(sentences, 3));
    BulletSummaryIsJoin(config, text);
    BulletLinesOneLine(text, 3);
    LinesOfJoin(lines);
  }

  lemma BulletSummaryIsJoin(config: SummarizerConfig, text: string)
    requires config.style == Bullets
    ensures Summarize(config, text) == Join(BulletLines(Take(Split(text, Stop), 3)), "\n")
  {
  }

  /** The bullet lines of a text without line breaks have none either. */
  lemma BulletLinesOneLine(text: string, n: nat)
    requires '\n' !in text
    ensures var lines := BulletLines(Take(Split(text, Stop), n));
      forall i :: 0 <= i < |lines| ==> '\n' !in lines[i]
  {
    var lines := BulletLines(Take(Split(text, Stop), n));
    forall i | 0 <= i < |lines| ensures '\n' !in lines[i] {
      BulletLineOneLine(text, n, i);
    }
  }

  lemma BulletLineOneLine(text: string, n: nat, i: nat)
    requires '\n' !in text
    requires i < |BulletLines(Take(Split(text, Stop), n))|
    ensures '\n' !in BulletLines(Take(Split(text, Stop), n))[i]
  {
    var sentences := Split(text, Stop);
    var taken := Take(sentences, n);
    assert taken[i] == sentences[i];
    var sentence := Trim(sentences[i]);
    if '\n' in sentence {
      TrimKeepsChars(sentences[i], '\n');
      SplitPiecesFromText(text, Stop, i, '\n');
    }
    BulletLineFree(sentence);
  }

  lemma BulletLineFree(sentence: string)
    requires '\n' !in sentence
    ensures '\n' !in Bullet + " " + sentence
  {
  }

  /**
   * A key-points summary of a text with some key-point sentence joins the
   * first three key-point sentences; without one it keeps the first two
   * sentences.
   */
  lemma KeyPointsChoice(config: SummarizerConfig, text: string)
    requires config.style == KeyPoints
    ensures var sentences := Split(text, Stop);
      ((exists i :: 0 <= i < |sentences| && IsKeyPoint(sentences[i]))
         ==> Summarize(config, text) == Join(Take(KeyPointsOf(sentences), 3), Stop))
      && ((forall i :: 0 <= i < |sentences| ==> !IsKeyPoint(sentences[i]))
         ==> Summarize(config, text) == Join(Take(sentences, 2), Stop))
  {
  }

  /** Any other style never produces more than three characters over the limit. */
  lemma TruncatedLength(config: SummarizerConfig, text: string)
    requires config.style == Paragraph || config.style == Executive
    ensures |Summarize(config, text)| <= config.maxLength + 3
    ensures |text| <= config.maxLength ==> Summarize(config, text) == text
  {
  }

  /** Running once per input, in order. */
  function RunAll(a: SummarizerAgent, inputs: seq<string>): SummarizerAgent
    decreases |inputs|
  {
    if inputs == [] then a else RunAll(Run(a, inputs[0]).0, inputs[1..])
  }

  /** Running pushes each input onto the history in turn, and changes nothing else. */
  lemma {:induction false} RunAllPushes(a: SummarizerAgent, inputs: seq<string>)
    ensures RunAll(a, inputs).history == PushAll(a.history, inputs, a.maxHistory)
    ensures RunAll(a, inputs).maxHistory == a.maxHistory && RunAll(a, inputs).config == a.config
    decreases |inputs|
  {
    if inputs != [] {
      var next := Run(a, inputs[0]).0;
      assert next.history == PushBounded(a.history, inputs[0], a.maxHistory);
      RunAllPushes(next, inputs[1..]);
    }
  }

  /** After any run sequence a summarizer remembers exactly the last `maxHistory` inputs. */
  lemma RunAllHistory(a: SummarizerAgent, inputs: seq<string>)
    requires |a.history| <= a.maxHistory
    ensures RunAll(a, inputs).history == LastN(a.history + inputs, a.maxHistory)
    ensures |RunAll(a, inputs).history| <= a.maxHistory
  {
    RunAllPushes(a, inputs);
    PushAllKeepsLast(a.history, inputs, a.maxHistory);
  }

  lemma FreshSummarizerHistory(inputs: seq<string>)
    ensures RunAll(NewSummarizer(), inputs).history == LastN(inputs, 10)
  {
    RunAllHistory(NewSummarizer(), inputs);
    assert [] + inputs == inputs;
  }
}
