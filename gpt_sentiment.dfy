/** The GPT-based analyzer's own logic around the chat completion call:
    validating the JSON answer, the keyword fallback for answers that are not
    JSON, and blending the text score with the emoji score. The call itself,
    JSON decoding, the number regex and the text cleaning are parameters. */
module GptSentiment {
  import opened Wrappers
  import opened Numeric
  import opened Emoji

  /** What `float(result.get(key, default))` meets: the key is absent, its
      value converts to a number, or `float` raises on it. */
  datatype JsonNumber = Missing | Number(value: real) | NotNumeric

  /** What the chat completion produced for a non-empty cleaned text. */
  datatype GptReply =
    | RequestFailed
      // the API call (or anything else inside the outer `try`) raised
    | NotJson(text: string, firstNumber: Option<real>)
      // `json.loads` raised `JSONDecodeError`; `firstNumber` is `float` of the
      // first match of `[-+]?[0-9]*\.?[0-9]+` in the text, None if none matches
    | JsonNotObject
      // valid JSON that is not an object, so `result.get` raises
    | JsonObject(score: JsonNumber, confidence: JsonNumber, category: Option<string>)

  /** `sentiment_score`, `confidence` and `category` of a text analysis. */
  datatype TextAnalysis = TextAnalysis(score: real, confidence: real, category: string)

  const Unavailable := TextAnalysis(0.0, 0.0, "neutral")

  /** ASCII lower-casing. For the four keyword tests below it agrees with
      Python's `str.lower`: no non-ASCII character lower-cases to a sequence
      that completes one of those keywords. */
  function Lower(s: string): (r: string)
    ensures |r| == |s|
    ensures forall i :: 0 <= i < |s| ==> r[i] == if 'A' <= s[i] <= 'Z' then (s[i] as int + 32) as char else s[i]
  {
    if s == [] then []
    else Lower(s[..|s| - 1]) + [if 'A' <= s[|s| - 1] <= 'Z' then (s[|s| - 1] as int + 32) as char else s[|s| - 1]]
  }

  predicate OccursAt(haystack: string, needle: string, i: int)
  {
    0 <= i && i + |needle| <= |haystack| && haystack[i..i + |needle|] == needle
  }

  /** Python's `needle in haystack` on strings. */
  predicate Contains(haystack: string, needle: string)
  {
    exists i :: 0 <= i <= |haystack| - |needle| && OccursAt(haystack, needle, i)
  }

  /** Whoever says "very positive" also says "positive", so the third keyword
      branch of the fallback parser only runs when "negative" appears too. */
  lemma VeryPositiveContainsPositive(s: string)
    requires Contains(s, "very positive")
    ensures Contains(s, "positive")
  {
    var i :| 0 <= i <= |s| - |"very positive"| && OccursAt(s, "very positive", i);
    assert |"very positive"| == 13;
    var j := i + 5;
    assert s[j..j + 8] == s[i..i + 13][5..13];
    assert "very positive"[5..13] == "positive";
    assert OccursAt(s, "positive", j);
  }

  lemma VeryNegativeContainsNegative(s: string)
    requires Contains(s, "very negative")
    ensures Contains(s, "negative")
  {
    var i :| 0 <= i <= |s| - |"very negative"| && OccursAt(s, "very negative", i);
    assert |"very negative"| == 13;
    var j := i + 5;
    assert s[j..j + 8] == s[i..i + 13][5..13];
    assert "very negative"[5..13] == "negative";
    assert OccursAt(s, "negative", j);
  }

  /** What `parse_gpt_response_fallback` returns: keyword tests in order on
      the lower-cased answer, then a number in [-1, 1] found in the answer
      replaces the score (but not the category). */
  function FallbackAnalysis(responseText: string, firstNumber: Option<real>): (a: TextAnalysis)
    ensures a.confidence == 0.5
    ensures var low := Lower(responseText);
      var p, n := Contains(low, "positive"), Contains(low, "negative");
      (a.category == "positive" <==> p && !n) &&
      (a.category == "negative" <==> n && !p) &&
      (a.category == "very_positive" <==> p && n && Contains(low, "very positive")) &&
      (a.category == "very_negative" <==> p && n && !Contains(low, "very positive") && Contains(low, "very negative")) &&
      (a.category == "neutral" <==> (!p && !n) || (p && n && !Contains(low, "very positive") && !Contains(low, "very negative")))
    ensures firstNumber.Some? && -1.0 <= firstNumber.value <= 1.0 ==> a.score == firstNumber.value
    ensures !(firstNumber.Some? && -1.0 <= firstNumber.value <= 1.0) ==>
      a.score == match a.category
        case "positive" => 0.5
        case "negative" => -0.5
        case "very_positive" => 0.8
        case "very_negative" => -0.8
        case _ => 0.0
    ensures -1.0 <= a.score <= 1.0
  {
    var low := Lower(responseText);
    var p, n := Contains(low, "positive"), Contains(low, "negative");
    var byKeywords :=
      if p && !n then (0.5, "positive")
      else if n && !p then (-0.5, "negative")
      else if Contains(low, "very positive") then
        VeryPositiveContainsPositive(low);
        (0.8, "very_positive")
      else if Contains(low, "very negative") then
        VeryNegativeContainsNegative(low);
        (-0.8, "very_negative")
      else (0.0, "neutral");
    var score := if firstNumber.Some? && -1.0 <= firstNumber.value <= 1.0 then firstNumber.value else byKeywords.0;
    TextAnalysis(score, 0.5, byKeywords.1)
  }

  /** `parse_gpt_response_fallback`, step by step as the source updates its
      three variables. */
  method ParseGptResponseFallback(responseText: string, firstNumber: Option<real>) returns (a: TextAnalysis)
    ensures a == FallbackAnalysis(responseText, firstNumber)
  {
    var sentimentScore := 0.0;
    var confidence := 0.5;
    var category := "neutral";
    var responseLower := Lower(responseText);
    if Contains(responseLower, "positive") && !Contains(responseLower, "negative") {
      sentimentScore := 0.5;
      category := "positive";
    } else if Contains(responseLower, "negative") && !Contains(responseLower, "positive") {
      sentimentScore := -0.5;
      category := "negative";
    } else if Contains(responseLower, "very positive") {
      sentimentScore := 0.8;
      category := "very_positive";
    } else if Contains(responseLower, "very negative") {
      sentimentScore := -0.8;
      category := "very_negative";
    }
    if firstNumber.Some? {
      var parsedScore := firstNumber.value;
      if -1.0 <= parsedScore <= 1.0 {
        sentimentScore := parsedScore;
      }
    }
    a := TextAnalysis(sentimentScore, confidence, category);
  }

  /** What `analyze_text_sentiment_gpt` returns, given the cleaned text and
      what the model answered: empty text, a failed request and JSON that is
      not an object are neutral and unconfident; a JSON object's fields are
      read with their defaults and clamped; an answer that is not JSON goes to
      the fallback parser. */
  function TextAnalysisOf(cleanText: string, reply: GptReply): (a: TextAnalysis)
    ensures cleanText == "" ==> a == Unavailable
    ensures cleanText != "" && (reply.RequestFailed? || reply.JsonNotObject?) ==> a == Unavailable
    ensures cleanText != "" && reply.JsonObject? ==>
      if reply.score.NotNumeric? || reply.confidence.NotNumeric? then a == Unavailable
      else
        a.score == Clamp(if reply.score.Missing? then 0.0 else reply.score.value, -1.0, 1.0) &&
        a.confidence == Clamp(if reply.confidence.Missing? then 0.5 else reply.confidence.value, 0.0, 1.0) &&
        a.category == reply.category.GetOr("neutral")
    ensures cleanText != "" && reply.NotJson? ==> a == FallbackAnalysis(reply.text, reply.firstNumber)
    ensures -1.0 <= a.score <= 1.0 && 0.0 <= a.confidence <= 1.0
  {
    if cleanText == "" then Unavailable
    else match reply
      case RequestFailed => Unavailable
      case JsonNotObject => Unavailable
      case NotJson(text, firstNumber) => FallbackAnalysis(text, firstNumber)
      case JsonObject(score, confidence, category) =>
        if score.NotNumeric? || confidence.NotNumeric? then Unavailable
        else
          TextAnalysis(
            Clamp(if score.Missing? then 0.0 else score.value, -1.0, 1.0),
            Clamp(if confidence.Missing? then 0.5 else confidence.value, 0.0, 1.0),
            category.GetOr("neutral"))
  }

  /** `analyze_text_sentiment_gpt`, through the source's early return and
      its branches on the answer. */
  method AnalyzeTextSentimentGpt(cleanText: string, reply: GptReply) returns (a: TextAnalysis)
    ensures a == TextAnalysisOf(cleanText, reply)
  {
    if cleanText == "" {
      return Unavailable;
    }
    match reply
    case RequestFailed =>
      a := Unavailable;
    case JsonNotObject =>
      a := Unavailable;
    case NotJson(text, firstNumber) =>
      a := ParseGptResponseFallback(text, firstNumber);
    case JsonObject(score, confidence, category) =>
      if score.NotNumeric? || confidence.NotNumeric? {
        a := Unavailable;
      } else {
        var s := if score.Missing? then 0.0 else score.value;
        var c := if confidence.Missing? then 0.5 else confidence.value;
        a := TextAnalysis(Clamp(s, -1.0, 1.0), Clamp(c, 0.0, 1.0), category.GetOr("neutral"));
      }
  }

  /** The combination rule of `analyze_message_sentiment`: 70% text and 30%
      emoji when the message has emojis, the text score alone otherwise, then
      clamped. */
  function GptBlend(text: real, emoji: real, hasEmojis: bool): (r: real)
    ensures -1.0 <= r <= 1.0
  {
    if hasEmojis then Clamp(0.7 * text + 0.3 * emoji, -1.0, 1.0) else Clamp(text, -1.0, 1.0)
  }

  /** The final clamp never binds: the text score is already clamped and the
      emoji mean lies in [-0.9, 0.9]. */
  lemma GptBlendUnclamped(text: real, emoji: real, hasEmojis: bool)
    requires -1.0 <= text <= 1.0 && -0.9 <= emoji <= 0.9
    ensures GptBlend(text, emoji, hasEmojis) == if hasEmojis then 0.7 * text + 0.3 * emoji else text
  {
  }

  /** A better text score never lowers the blended score. */
  lemma GptBlendMonotone(t1: real, t2: real, emoji: real, hasEmojis: bool)
    requires t1 <= t2
    ensures GptBlend(t1, emoji, hasEmojis) <= GptBlend(t2, emoji, hasEmojis)
  {
  }

  /** The dictionary `analyze_message_sentiment` returns, without the copy of
      the raw text analysis and the reasoning text. */
  datatype GptMessageAnalysis = GptMessageAnalysis(
    overall: real,
    textSentiment: real,
    emojiSentiment: real,
    emojiCount: nat,
    confidence: real,
    category: string)

  /** `analyze_message_sentiment` of the GPT analyzer; `clean` is
      `clean_text_for_analysis`. */
  method AnalyzeMessageSentiment(
    messageText: string, isEmoji: char -> bool, clean: string -> string, reply: GptReply)
    returns (m: GptMessageAnalysis)
    ensures m.emojiCount == |ExtractEmojis(messageText, isEmoji)|
    ensures m.emojiSentiment == EmojiSentiment(ExtractEmojis(messageText, isEmoji))
    ensures (forall i :: 0 <= i < |messageText| ==> !SelectorBase(messageText[i])) ==>
      m.emojiSentiment == EmojiSentimentAsWritten(ExtractEmojis(messageText, isEmoji))
    ensures m.overall == GptBlend(m.textSentiment, m.emojiSentiment, m.emojiCount > 0)
    ensures m.overall == if m.emojiCount > 0 then 0.7 * m.textSentiment + 0.3 * m.emojiSentiment else m.textSentiment
    ensures -1.0 <= m.overall <= 1.0 && -1.0 <= m.textSentiment <= 1.0 && 0.0 <= m.confidence <= 1.0
    ensures var t := TextAnalysisOf(clean(messageText), reply);
      m.textSentiment == t.score && m.confidence == t.confidence && m.category == t.category
    ensures clean(messageText) == "" ==> m.textSentiment == 0.0 && m.category == "neutral"
  {
    var emojis := ExtractEmojis(messageText, isEmoji);
    var emojiSentiment := EmojiSentiment(emojis);
    var gptAnalysis := AnalyzeTextSentimentGpt(clean(messageText), reply);
    var textSentiment := gptAnalysis.score;
    var combinedSentiment;
    if emojis != [] {
      combinedSentiment := 0.7 * textSentiment + 0.3 * emojiSentiment;
    } else {
      combinedSentiment := textSentiment;
    }
    combinedSentiment := Max(-1.0, Min(1.0, combinedSentiment));
    GptBlendUnclamped(textSentiment, emojiSentiment, emojis != []);
    if forall i :: 0 <= i < |messageText| ==> !SelectorBase(messageText[i]) {
      AsWrittenAgreesWithoutSelectorBases(messageText, isEmoji);
    }
    m := GptMessageAnalysis(combinedSentiment, textSentiment, emojiSentiment, |emojis|,
      gptAnalysis.confidence, gptAnalysis.category);
  }
}
