/** The VADER/TextBlob analyzer's message analysis: try the GPT analyzer when
    it is enabled, and otherwise (or when it raises) blend the VADER compound
    score with the emoji mean. VADER, TextBlob and the text cleaning are
    parameters. */
module Sentiment {
  import opened Wrappers
  import opened Numeric
  import opened Emoji
  import opened GptSentiment

  /** The four numbers `SentimentIntensityAnalyzer.polarity_scores` returns. */
  datatype VaderScores = VaderScores(compound: real, pos: real, neu: real, neg: real)

  /** TextBlob's `sentiment.polarity` and `sentiment.subjectivity`. */
  datatype BlobScores = BlobScores(polarity: real, subjectivity: real)

  /** The libraries the analyzer calls, as functions of their input. */
  datatype TextTools = TextTools(
    clean: string -> string,
    isEmoji: char -> bool,
    vader: string -> VaderScores,
    blob: string -> BlobScores)

  /** Whether the analyzer holds a GPT analyzer (`use_gpt` and an API key and
      a successful construction), and what its call does when it does. */
  datatype GptPath = Disabled | Raises | Answers(reply: GptReply)

  datatype AnalysisMethod = ByGpt | ByVader

  /** The dictionary `analyze_message_sentiment` returns (for the GPT path
      without the GPT analyzer's extra keys). */
  datatype MessageAnalysis = MessageAnalysis(
    overall: real,
    textSentiment: real,
    emojiSentiment: real,
    emojiCount: nat,
    vaderPos: real,
    vaderNeg: real,
    vaderNeu: real,
    textblobPolarity: real,
    textblobSubjectivity: real,
    analysisMethod: AnalysisMethod)

  /** `analyze_text_sentiment_vader`: the neutral scores for a text that cleans
      to nothing. */
  function VaderOf(text: string, tools: TextTools): (v: VaderScores)
    ensures tools.clean(text) == "" ==> v == VaderScores(0.0, 0.0, 1.0, 0.0)
  {
    var cleaned := tools.clean(text);
    if cleaned == "" then VaderScores(0.0, 0.0, 1.0, 0.0) else tools.vader(cleaned)
  }

  /** `analyze_text_sentiment_textblob`. */
  function BlobOf(text: string, tools: TextTools): (b: BlobScores)
    ensures tools.clean(text) == "" ==> b == BlobScores(0.0, 0.0)
  {
    var cleaned := tools.clean(text);
    if cleaned == "" then BlobScores(0.0, 0.0) else tools.blob(cleaned)
  }

  /** The fallback combination: 60% VADER compound and 40% emoji mean, always
      (a message without emojis contributes an emoji mean of 0.0), clamped. */
  function VaderBlend(compound: real, emoji: real): (r: real)
    ensures -1.0 <= r <= 1.0
  {
    Clamp(0.6 * compound + 0.4 * emoji, -1.0, 1.0)
  }

  /** With VADER's compound in [-1, 1] and an emoji mean in [-0.9, 0.9] the
      clamp never binds. */
  lemma VaderBlendUnclamped(compound: real, emoji: real)
    requires -1.0 <= compound <= 1.0 && -0.9 <= emoji <= 0.9
    ensures VaderBlend(compound, emoji) == 0.6 * compound + 0.4 * emoji
  {
  }

  /** A message without emojis scores 60% of its VADER compound: the blend
      weighs the missing emojis as a neutral 0.0 instead of ignoring them. */
  lemma VaderBlendWithoutEmojis(compound: real)
    requires -1.0 <= compound <= 1.0
    ensures VaderBlend(compound, EmojiSentiment([])) == 0.6 * compound
  {
  }

  /** `analyze_message_sentiment` of the VADER/TextBlob analyzer. */
  method AnalyzeMessageSentiment(messageText: string, tools: TextTools, gpt: GptPath)
    returns (m: MessageAnalysis)
    ensures m.analysisMethod == ByGpt <==> gpt.Answers?
    ensures -1.0 <= m.overall <= 1.0
    ensures m.emojiCount == |ExtractEmojis(messageText, tools.isEmoji)|
    ensures m.emojiSentiment == EmojiSentiment(ExtractEmojis(messageText, tools.isEmoji))
    ensures (forall i :: 0 <= i < |messageText| ==> !SelectorBase(messageText[i])) ==>
      m.emojiSentiment == EmojiSentimentAsWritten(ExtractEmojis(messageText, tools.isEmoji))
    ensures gpt.Answers? ==>
      m.textblobPolarity == m.textSentiment && m.textblobSubjectivity == 0.5 &&
      m.vaderPos == 0.0 && m.vaderNeg == 0.0 && m.vaderNeu == 1.0 &&
      m.textSentiment == TextAnalysisOf(tools.clean(messageText), gpt.reply).score &&
      m.overall == GptBlend(m.textSentiment, m.emojiSentiment, m.emojiCount > 0)
    ensures !gpt.Answers? ==>
      var v, b := VaderOf(messageText, tools), BlobOf(messageText, tools);
      m.textSentiment == v.compound &&
      m.overall == VaderBlend(v.compound, m.emojiSentiment) &&
      m.vaderPos == v.pos && m.vaderNeg == v.neg && m.vaderNeu == v.neu &&
      m.textblobPolarity == b.polarity && m.textblobSubjectivity == b.subjectivity
  {
    if gpt.Answers? {
      var g := GptSentiment.AnalyzeMessageSentiment(messageText, tools.isEmoji, tools.clean, gpt.reply);
      assert g.emojiSentiment == EmojiSentiment(ExtractEmojis(messageText, tools.isEmoji));
      return MessageAnalysis(g.overall, g.textSentiment, g.emojiSentiment, g.emojiCount,
        0.0, 0.0, 1.0, g.textSentiment, 0.5, ByGpt);
    }
    // A GPT analyzer that raises falls through to the VADER path.
    var emojis := ExtractEmojis(messageText, tools.isEmoji);
    var emojiSentiment := EmojiSentiment(emojis);
    if forall i :: 0 <= i < |messageText| ==> !SelectorBase(messageText[i]) {
      AsWrittenAgreesWithoutSelectorBases(messageText, tools.isEmoji);
    }
    var vaderScores := VaderOf(messageText, tools);
    var textblobScores := BlobOf(messageText, tools);
    var textWeight := 0.6;
    var emojiWeight := 0.4;
    var combinedSentiment := textWeight * vaderScores.compound + emojiWeight * emojiSentiment;
    var overall := Max(-1.0, Min(1.0, combinedSentiment));
    assert overall == VaderBlend(vaderScores.compound, emojiSentiment);
    m := MessageAnalysis(
      overall,
      vaderScores.compound,
      emojiSentiment,
      |emojis|,
      vaderScores.pos,
      vaderScores.neg,
      vaderScores.neu,
      textblobScores.polarity,
      textblobScores.subjectivity,
      ByVader);
  }
}
