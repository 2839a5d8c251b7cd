/** The emoji logic the VADER-based and the GPT-based analyzers share word for
    word: their 80-entry emoji score table, picking emojis out of a message,
    the mean emoji score, the count-weighted reaction score and the five
    sentiment bands. */
module Emoji {
  import opened Wrappers
  import opened Numeric
  import opened Messages

  /** `self.emoji_sentiment.get(e)`: the table both analyzers build in their
      constructors. Three keys (white smiling face, warning sign, red heart)
      are written with a trailing variation selector U+FE0F, so they are two
      code points long; every other key is a single code point. */
  function EmojiScore(e: string): (r: Option<real>)
    ensures r.Some? ==> -0.9 <= r.value <= 0.9
  {
    match e
    case "😊" => Some(0.8)
    case "😀" => Some(0.8)
    case "😃" => Some(0.8)
    case "😄" => Some(0.8)
    case "😁" => Some(0.8)
    case "😆" => Some(0.7)
    case "😂" => Some(0.9)
    case "🤣" => Some(0.9)
    case "😇" => Some(0.6)
    case "🙂" => Some(0.5)
    case "😉" => Some(0.5)
    case "😋" => Some(0.6)
    case "😎" => Some(0.7)
    case "🤗" => Some(0.8)
    case "🤩" => Some(0.9)
    case "😍" => Some(0.9)
    case "🥰" => Some(0.9)
    case "😘" => Some(0.8)
    case "😗" => Some(0.6)
    case "☺\U{FE0F}" => Some(0.6)
    case "😌" => Some(0.4)
    case "😏" => Some(0.3)
    case "🤔" => Some(0.1)
    case "🙄" => Some(-0.3)
    case "😒" => Some(-0.4)
    case "😔" => Some(-0.6)
    case "😞" => Some(-0.7)
    case "😟" => Some(-0.6)
    case "😢" => Some(-0.8)
    case "😭" => Some(-0.9)
    case "😤" => Some(-0.5)
    case "😠" => Some(-0.7)
    case "😡" => Some(-0.8)
    case "🤬" => Some(-0.9)
    case "😰" => Some(-0.6)
    case "😨" => Some(-0.7)
    case "😱" => Some(-0.8)
    case "😪" => Some(-0.4)
    case "🙃" => Some(0.2)
    case "😶" => Some(0.0)
    case "🤐" => Some(-0.1)
    case "😐" => Some(0.0)
    case "😑" => Some(-0.1)
    case "🤨" => Some(-0.2)
    case "🧐" => Some(0.1)
    case "🤯" => Some(-0.3)
    case "😵" => Some(-0.5)
    case "🥴" => Some(-0.2)
    case "🤮" => Some(-0.8)
    case "🤢" => Some(-0.6)
    case "🤧" => Some(-0.3)
    case "😷" => Some(-0.2)
    case "🤒" => Some(-0.4)
    case "🤕" => Some(-0.5)
    case "👍" => Some(0.6)
    case "👎" => Some(-0.6)
    case "👏" => Some(0.7)
    case "🙌" => Some(0.8)
    case "👌" => Some(0.5)
    case "✨" => Some(0.6)
    case "🎉" => Some(0.9)
    case "🎊" => Some(0.8)
    case "💪" => Some(0.7)
    case "🔥" => Some(0.8)
    case "⭐" => Some(0.6)
    case "💯" => Some(0.8)
    case "✅" => Some(0.6)
    case "❌" => Some(-0.5)
    case "⚠\U{FE0F}" => Some(-0.3)
    case "🚨" => Some(-0.6)
    case "💔" => Some(-0.8)
    case "❤\U{FE0F}" => Some(0.9)
    case "💕" => Some(0.8)
    case "💖" => Some(0.8)
    case "💗" => Some(0.8)
    case "😴" => Some(-0.1)
    case "💤" => Some(-0.1)
    case "🤤" => Some(0.1)
    case "😻" => Some(0.8)
    case "💀" => Some(-0.7)
    case _ => None
  }

  const VariationSelector: char := '\U{FE0F}'

  /** `[char for char in text if char in emoji.EMOJI_DATA]`: each emoji is a
      one-character string. The emoji library's data is the parameter
      isEmoji. */
  function ExtractEmojis(text: string, isEmoji: char -> bool): (es: seq<string>)
    ensures |es| <= |text|
    ensures forall i :: 0 <= i < |es| ==> |es[i]| == 1 && isEmoji(es[i][0]) && es[i][0] in text
    ensures forall i :: 0 <= i < |text| && isEmoji(text[i]) ==> [text[i]] in es
    decreases |text|
  {
    if text == [] then []
    else
      var init := text[..|text| - 1];
      var c := text[|text| - 1];
      var es := ExtractEmojis(init, isEmoji);
      assert forall x :: x in init ==> x in text;
      if isEmoji(c) then es + [[c]] else es
  }

  /** Extraction keeps every occurrence: each emoji appears in the list as
      often as in the text, so `len(emojis)` counts the emoji characters. */
  lemma {:induction false} ExtractEmojisCounts(text: string, isEmoji: char -> bool, c: char)
    requires isEmoji(c)
    ensures multiset(ExtractEmojis(text, isEmoji))[[c]] == multiset(text)[c]
    decreases |text|
  {
    if text != [] {
      var init := text[..|text| - 1];
      var d := text[|text| - 1];
      assert text == init + [d];
      ExtractEmojisCounts(init, isEmoji, c);
      if isEmoji(d) {
        assert ExtractEmojis(text, isEmoji) == ExtractEmojis(init, isEmoji) + [[d]];
        assert [d] == [c] <==> d == c;
      } else {
        assert ExtractEmojis(text, isEmoji) == ExtractEmojis(init, isEmoji);
      }
    }
  }

  /** Extraction keeps the text's order: the emojis of a concatenation are
      those of the first part followed by those of the second. */
  lemma {:induction false} ExtractEmojisAppend(a: string, b: string, isEmoji: char -> bool)
    ensures ExtractEmojis(a + b, isEmoji) == ExtractEmojis(a, isEmoji) + ExtractEmojis(b, isEmoji)
    decreases |b|
  {
    if b == [] {
      assert a + b == a;
    } else {
      var init := b[..|b| - 1];
      assert (a + b)[..|a + b| - 1] == a + init;
      assert (a + b)[|a + b| - 1] == b[|b| - 1];
      ExtractEmojisAppend(a, init, isEmoji);
    }
  }

  /** The score the source reads for an extracted emoji, `.get(em, 0.0)`. It
      misses the three two-code-point keys, because an extracted emoji is a
      single code point. */
  function ScoreAsWritten(e: string): (r: real)
    ensures -0.9 <= r <= 0.9
    ensures EmojiScore(e).None? ==> r == 0.0
  {
    EmojiScore(e).GetOr(0.0)
  }

  /** The score the table evidently means an extracted emoji to have: its own
      entry, or else the entry of its variation-selector form, or else 0.0. */
  function ExtractedScore(e: string): (r: real)
    ensures -0.9 <= r <= 0.9
    ensures EmojiScore(e).Some? ==> r == EmojiScore(e).value
    ensures EmojiScore(e).None? && EmojiScore(e + [VariationSelector]).Some? ==>
      r == EmojiScore(e + [VariationSelector]).value
    ensures EmojiScore(e).None? && EmojiScore(e + [VariationSelector]).None? ==> r == 0.0
  {
    match EmojiScore(e)
    case Some(v) => v
    case None => EmojiScore(e + [VariationSelector]).GetOr(0.0)
  }

  function ScoresAsWritten(emojis: seq<string>): (s: seq<real>)
    ensures |s| == |emojis|
    ensures forall i :: 0 <= i < |s| ==> s[i] == ScoreAsWritten(emojis[i]) && -0.9 <= s[i] <= 0.9
  {
    seq(|emojis|, i requires 0 <= i < |emojis| => ScoreAsWritten(emojis[i]))
  }

  function ExtractedScores(emojis: seq<string>): (s: seq<real>)
    ensures |s| == |emojis|
    ensures forall i :: 0 <= i < |s| ==> s[i] == ExtractedScore(emojis[i]) && -0.9 <= s[i] <= 0.9
  {
    seq(|emojis|, i requires 0 <= i < |emojis| => ExtractedScore(emojis[i]))
  }

  /** `analyze_emoji_sentiment` as written: 0.0 for no emojis, otherwise the
      mean of the `.get(em, 0.0)` lookups, which stays in the table's range. */
  function EmojiSentimentAsWritten(emojis: seq<string>): (r: real)
    ensures emojis == [] ==> r == 0.0
    ensures emojis != [] ==> r * |emojis| as real == Sum(ScoresAsWritten(emojis))
    ensures -0.9 <= r <= 0.9
  {
    var s := ScoresAsWritten(emojis);
    if s == [] then Mean(s)
    else
      MeanWithin(s, -0.9, 0.9);
      Mean(s)
  }

  /** `analyze_emoji_sentiment` with the variation-selector keys reachable:
      0.0 for no emojis, otherwise the mean score, which therefore stays in
      the table's range. */
  function EmojiSentiment(emojis: seq<string>): (r: real)
    ensures emojis == [] ==> r == 0.0
    ensures emojis != [] ==> r * |emojis| as real == Sum(ExtractedScores(emojis))
    ensures -0.9 <= r <= 0.9
  {
    var s := ExtractedScores(emojis);
    if s == [] then Mean(s)
    else
      MeanWithin(s, -0.9, 0.9);
      Mean(s)
  }

  /** A red heart typed as U+2764 U+FE0F scores 0.0 as written, whatever the
      emoji library recognises: neither code point on its own is a key. */
  lemma HeartMissedAsWritten(isEmoji: char -> bool)
    ensures EmojiSentimentAsWritten(ExtractEmojis("\U{2764}" + [VariationSelector], isEmoji)) == 0.0
  {
    var text := "\U{2764}" + [VariationSelector];
    var es := ExtractEmojis(text, isEmoji);
    var s := ScoresAsWritten(es);
    forall i | 0 <= i < |s|
      ensures s[i] == 0.0
    {
      assert es[i] == [es[i][0]];
      assert es[i][0] == '\U{2764}' || es[i][0] == VariationSelector;
    }
    if s != [] {
      MeanConstant(s, 0.0);
    }
  }

  /** The code points whose variation-selector form is a table key. */
  predicate SelectorBase(c: char)
  {
    c == '\U{263A}' || c == '\U{26A0}' || c == '\U{2764}'
  }

  /** Only the three bare code points have a variation-selector key. */
  lemma SelectorKeys(c: char)
    requires !SelectorBase(c)
    ensures EmojiScore([c] + [VariationSelector]).None?
  {
    var e := [c] + [VariationSelector];
    assert |e| == 2 && e[0] == c;
    assert e != "\U{263A}\U{FE0F}" && e != "\U{26A0}\U{FE0F}" && e != "\U{2764}\U{FE0F}";
  }

  /** The corrected mean differs from the one written only on messages that
      hold one of the three bare code points: on every other message the
      two agree. */
  lemma AsWrittenAgreesWithoutSelectorBases(text: string, isEmoji: char -> bool)
    requires forall i :: 0 <= i < |text| ==> !SelectorBase(text[i])
    ensures EmojiSentimentAsWritten(ExtractEmojis(text, isEmoji)) == EmojiSentiment(ExtractEmojis(text, isEmoji))
  {
    var es := ExtractEmojis(text, isEmoji);
    forall i | 0 <= i < |es|
      ensures ScoresAsWritten(es)[i] == ExtractedScores(es)[i]
    {
      var c := es[i][0];
      assert es[i] == [c];
      SelectorKeys(c);
    }
    assert ScoresAsWritten(es) == ExtractedScores(es);
  }

  /** With the corrected lookup, the same message scores the red heart's 0.9
      when the library recognises U+2764 and not the selector alone. */
  lemma HeartScoredWhenCorrected(isEmoji: char -> bool)
    requires isEmoji('\U{2764}') && !isEmoji(VariationSelector)
    ensures EmojiSentiment(ExtractEmojis("\U{2764}" + [VariationSelector], isEmoji)) == 0.9
  {
    HeartExtracted(isEmoji);
    HeartScore();
    assert ExtractedScores(["\U{2764}"]) == [0.9];
    assert Sum([0.9]) == 0.9 by { assert [0.9][..0] == []; }
  }

  lemma HeartExtracted(isEmoji: char -> bool)
    requires isEmoji('\U{2764}') && !isEmoji(VariationSelector)
    ensures ExtractEmojis("\U{2764}" + [VariationSelector], isEmoji) == ["\U{2764}"]
  {
    var heart := "\U{2764}";
    var text := heart + [VariationSelector];
    assert text[..|text| - 1] == heart && text[|text| - 1] == VariationSelector;
    assert heart[..0] == [] && heart[0] == '\U{2764}';
    assert ExtractEmojis(heart, isEmoji) == [heart];
  }

  lemma HeartScore()
    ensures ExtractedScore("\U{2764}") == 0.9
  {
    assert EmojiScore("\U{2764}") == None;
    assert "\U{2764}" + [VariationSelector] == "\U{2764}\U{FE0F}";
    assert EmojiScore("\U{2764}\U{FE0F}") == Some(0.9);
  }

  /** `emoji.emojize(":name:")`, which falls back to the input text when the
      library raises; the library's alias table is the parameter. */
  type Emojize = string -> string

  /** The score of one reaction: its emoji's table entry, 0.3 when absent. */
  function ReactionScore(name: string, emojize: Emojize): (r: real)
    ensures -0.9 <= r <= 0.9
    ensures EmojiScore(emojize(":" + name + ":")).None? ==> r == 0.3
  {
    EmojiScore(emojize(":" + name + ":")).GetOr(0.3)
  }

  /** The reaction scores of one alias table, as a function of the name. */
  function ScoreOf(emojize: Emojize): (score: string -> real)
    ensures forall name :: score(name) == ReactionScore(name, emojize)
  {
    name => ReactionScore(name, emojize)
  }

  /** `total_sentiment` after the loop: the sum of score times count. */
  function WeightedTotal(reactions: seq<Reaction>, score: string -> real): real
    decreases |reactions|
  {
    if reactions == [] then 0.0
    else
      var last := reactions[|reactions| - 1];
      WeightedTotal(reactions[..|reactions| - 1], score) + score(last.name) * last.count as real
  }

  /** `total_count` after the loop. */
  function CountTotal(reactions: seq<Reaction>): nat
    decreases |reactions|
  {
    if reactions == [] then 0 else CountTotal(reactions[..|reactions| - 1]) + reactions[|reactions| - 1].count
  }

  /** `total_sentiment / total_count if total_count > 0 else 0.0`. */
  function ReactionMean(reactions: seq<Reaction>, emojize: Emojize): real
  {
    var c := CountTotal(reactions);
    if c > 0 then WeightedTotal(reactions, ScoreOf(emojize)) / c as real else 0.0
  }

  datatype ReactionSentiment = ReactionSentiment(sentiment: real, count: nat)

  /** `analyze_reaction_sentiment`. */
  method AnalyzeReactionSentiment(reactions: seq<Reaction>, emojize: Emojize) returns (r: ReactionSentiment)
    ensures reactions == [] ==> r == ReactionSentiment(0.0, 0)
    ensures r.count == CountTotal(reactions)
    ensures r.sentiment == ReactionMean(reactions, emojize)
  {
    if reactions == [] {
      return ReactionSentiment(0.0, 0);
    }
    var totalSentiment, totalCount := WeighReactions(reactions, ScoreOf(emojize));
    var avg := if totalCount > 0 then totalSentiment / totalCount as real else 0.0;
    r := ReactionSentiment(avg, totalCount);
  }

  /** The loop of `analyze_reaction_sentiment`: each reaction adds its score
      times its count to the total and its count to the count. */
  method WeighReactions(reactions: seq<Reaction>, score: string -> real) returns (totalSentiment: real, totalCount: nat)
    ensures totalSentiment == WeightedTotal(reactions, score)
    ensures totalCount == CountTotal(reactions)
  {
    totalSentiment := 0.0;
    totalCount := 0;
    var i := 0;
    while i < |reactions|
      invariant 0 <= i <= |reactions|
      invariant totalSentiment == WeightedTotal(reactions[..i], score)
      invariant totalCount == CountTotal(reactions[..i])
    {
      var reaction := reactions[i];
      var sentiment := score(reaction.name);
      TotalsStep(reactions, i, score);
      totalSentiment := totalSentiment + sentiment * reaction.count as real;
      totalCount := totalCount + reaction.count;
      i := i + 1;
    }
    assert reactions[..i] == reactions;
  }

  lemma TotalsStep(reactions: seq<Reaction>, i: nat, score: string -> real)
    requires i < |reactions|
    ensures WeightedTotal(reactions[..i + 1], score) ==
      WeightedTotal(reactions[..i], score) + score(reactions[i].name) * reactions[i].count as real
    ensures CountTotal(reactions[..i + 1]) == CountTotal(reactions[..i]) + reactions[i].count
  {
    assert reactions[..i + 1][..i] == reactions[..i];
  }

  lemma {:induction false} WeightedTotalBounds(reactions: seq<Reaction>, score: string -> real)
    requires forall name :: -0.9 <= score(name) <= 0.9
    ensures -0.9 * CountTotal(reactions) as real <= WeightedTotal(reactions, score)
    ensures WeightedTotal(reactions, score) <= 0.9 * CountTotal(reactions) as real
    decreases |reactions|
  {
    if reactions != [] {
      var last := reactions[|reactions| - 1];
      var init := reactions[..|reactions| - 1];
      WeightedTotalBounds(init, score);
      AddWithinBounds(WeightedTotal(init, score), CountTotal(init) as real,
        score(last.name), last.count as real);
    }
  }

  lemma AddWithinBounds(w: real, n: real, s: real, c: real)
    requires -0.9 * n <= w <= 0.9 * n
    requires -0.9 <= s <= 0.9 && 0.0 <= c
    ensures -0.9 * (n + c) <= w + s * c <= 0.9 * (n + c)
  {
    ScaleMonotone(-0.9, s, c);
    ScaleMonotone(s, 0.9, c);
  }

  /** The reaction score is a count-weighted mean of table scores and the 0.3
      default, so it stays in [-0.9, 0.9]; with no counted reaction it is 0.0. */
  lemma ReactionMeanBounds(reactions: seq<Reaction>, emojize: Emojize)
    ensures -0.9 <= ReactionMean(reactions, emojize) <= 0.9
    ensures CountTotal(reactions) == 0 ==> ReactionMean(reactions, emojize) == 0.0
  {
    var c := CountTotal(reactions);
    if c > 0 {
      var score := ScoreOf(emojize);
      WeightedTotalBounds(reactions, score);
      QuotientWithin(WeightedTotal(reactions, score), c as real, 0.9);
    }
  }

  /** Reactions of one kind weigh as a single reaction with their total count:
      one unknown reaction, however often given, scores the 0.3 default. */
  lemma UnknownReactionDefault(name: string, count: nat, emojize: Emojize)
    requires count > 0 && EmojiScore(emojize(":" + name + ":")).None?
    ensures ReactionMean([Reaction(name, count)], emojize) == 0.3
  {
    var rs := [Reaction(name, count)];
    assert rs[..0] == [];
    assert WeightedTotal(rs, ScoreOf(emojize)) == 0.3 * count as real;
    assert CountTotal(rs) == count;
    assert (0.3 * count as real) / count as real == 0.3;
  }

  datatype Category = VeryPositive | Positive | Neutral | Negative | VeryNegative
  {
    /** Position on the scale, 0 for the most negative band. */
    function Rank(): nat
    {
      match this
      case VeryNegative => 0
      case Negative => 1
      case Neutral => 2
      case Positive => 3
      case VeryPositive => 4
    }
  }

  /** `categorize_sentiment`: five bands with inclusive lower bounds. */
  function Categorize(score: real): (c: Category)
    ensures c == VeryPositive <==> score >= 0.5
    ensures c == Positive <==> 0.1 <= score < 0.5
    ensures c == Neutral <==> -0.1 <= score < 0.1
    ensures c == Negative <==> -0.5 <= score < -0.1
    ensures c == VeryNegative <==> score < -0.5
  {
    if score >= 0.5 then VeryPositive
    else if score >= 0.1 then Positive
    else if score >= -0.1 then Neutral
    else if score >= -0.5 then Negative
    else VeryNegative
  }

  /** A higher score never lands in a lower band. */
  lemma CategorizeMonotone(x: real, y: real)
    requires x <= y
    ensures Categorize(x).Rank() <= Categorize(y).Rank()
  {
  }
}
