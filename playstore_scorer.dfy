/** The Play Store rating scorer: a tiered 0..100 score, a category and three
    insights, and the `parseInstalls` reader for install counts such as
    "10,000,000+". */
module PlayStoreScorer {
  import opened Wrappers
  import opened Text

  /** The scorer's input record (`run.input`). */
  datatype ScorerInput = ScorerInput(rating: real, ratingsCount: int, reviews: int, installs: string)

  datatype Category = Excellent | Good | Average | Poor

  /** A number produced by `parseInt`: NaN, or the value of a digit string. */
  datatype ParsedNumber = NaN | Int(value: nat)

  // ---------------------------------------------------------------------------
  // parseInstalls
  // ---------------------------------------------------------------------------

  predicate IsDigit(c: char) { '0' <= c <= '9' }

  /** A character of the regular expression class `[\d,]`. */
  predicate IsRunChar(c: char) { IsDigit(c) || c == ',' }

  predicate AllDigits(s: string) { forall k :: 0 <= k < |s| ==> IsDigit(s[k]) }

  predicate AllRunChars(s: string) { forall k :: 0 <= k < |s| ==> IsRunChar(s[k]) }

  predicate NoRunChar(s: string) { forall k :: 0 <= k < |s| ==> !IsRunChar(s[k]) }

  /** The first index at or after `i` that holds a `[\d,]` character, or `|s|`. */
  function RunStart(s: string, i: nat): (j: nat)
    requires i <= |s|
    ensures i <= j <= |s|
    ensures forall k :: i <= k < j ==> !IsRunChar(s[k])
    ensures j < |s| ==> IsRunChar(s[j])
    decreases |s| - i
  {
    if i == |s| || IsRunChar(s[i]) then i else RunStart(s, i + 1)
  }

  /** The end of the longest run of `[\d,]` characters that starts at `i`. */
  function RunEnd(s: string, i: nat): (j: nat)
    requires i <= |s|
    ensures i <= j <= |s|
    ensures forall k :: i <= k < j ==> IsRunChar(s[k])
    ensures j < |s| ==> !IsRunChar(s[j])
    decreases |s| - i
  {
    if i == |s| || !IsRunChar(s[i]) then i else RunEnd(s, i + 1)
  }

  /** `s.match(/[\d,]+/)`: the leftmost, longest run of digits and commas. */
  function FirstRun(s: string): (m: Option<string>)
    ensures m.None? <==> NoRunChar(s)
    ensures m.Some? ==> m.value != "" && AllRunChars(m.value)
  {
    var i := RunStart(s, 0);
    if i == |s| then None
    else
      var j := RunEnd(s, i);
      assert s[i] == s[i..j][0];
      Some(s[i..j])
  }

  /** The first run is determined by where it sits: no `[\d,]` before it and
      none right after it. */
  lemma FirstRunOf(pre: string, run: string, post: string)
    requires NoRunChar(pre)
    requires run != "" && AllRunChars(run)
    requires post == "" || !IsRunChar(post[0])
    ensures FirstRun(pre + run + post) == Some(run)
  {
    var s := pre + run + post;
    assert s[|pre|] == run[0];
    assert forall k :: 0 <= k < |pre| ==> s[k] == pre[k];
    assert forall k :: |pre| <= k < |pre| + |run| ==> s[k] == run[k - |pre|];
    assert post != "" ==> s[|pre| + |run|] == post[0];
    var i := RunStart(s, 0);
    assert i == |pre|;
    var j := RunEnd(s, i);
    assert j == |pre| + |run|;
    assert s[i..j] == run;
  }

  function DigitValue(c: char): nat
    requires IsDigit(c)
  {
    (c as int) - ('0' as int)
  }

  function DigitChar(d: nat): (c: char)
    requires d < 10
    ensures IsDigit(c) && DigitValue(c) == d
  {
    ('0' as int + d) as char
  }

  /** The value of a decimal digit string, most significant digit first. */
  function Decimal(s: string): nat
    requires AllDigits(s)
  {
    if s == [] then 0 else Decimal(s[..|s| - 1]) * 10 + DigitValue(s[|s| - 1])
  }

  /** `parseInt(t)` for a string `t` of decimal digits: NaN when `t` is empty. */
  function ParseInt(t: string): (n: ParsedNumber)
    requires AllDigits(t)
    ensures n.NaN? <==> t == ""
  {
    if t == "" then NaN else Int(Decimal(t))
  }

  lemma WithoutCommasIsDigits(run: string)
    requires AllRunChars(run)
    ensures AllDigits(Without(run, ','))
  {
    var r := Without(run, ',');
    forall k | 0 <= k < |r| ensures IsDigit(r[k]) {
      assert r[k] in run;
    }
  }

  /** `parseInstalls(installs)` (playstore-scorer.ts). */
  function ParseInstalls(installs: string): (n: ParsedNumber)
    ensures NoRunChar(installs) ==> n == Int(0)
  {
    match FirstRun(installs)
    case None => Int(0)
    case Some(run) =>
      WithoutCommasIsDigits(run);
      ParseInt(Without(run, ','))
  }

  /** When the first run of `[\d,]` holds no digit, `parseInt("")` yields NaN. */
  lemma CommaOnlyRunIsNaN(pre: string, commas: string, post: string)
    requires NoRunChar(pre)
    requires commas != "" && forall k :: 0 <= k < |commas| ==> commas[k] == ','
    requires post == "" || !IsRunChar(post[0])
    ensures ParseInstalls(pre + commas + post) == NaN
  {
    FirstRunOf(pre, commas, post);
    var r := Without(commas, ',');
  }

  /** The digits of `n`, most significant first (`String(n)`). */
  function Digits(n: nat): (s: string)
    ensures s != "" && AllDigits(s)
  {
    if n < 10 then [DigitChar(n)] else Digits(n / 10) + [DigitChar(n % 10)]
  }

  /** The three digits of `r`, with leading zeros. */
  function Pad3(r: nat): (s: string)
    requires r < 1000
    ensures |s| == 3 && AllDigits(s)
  {
    [DigitChar(r / 100), DigitChar(r / 10 % 10), DigitChar(r % 10)]
  }

  /** `n` with a comma between groups of three digits, as the store displays
      install counts ("10,000,000"). */
  function Grouped(n: nat): (s: string)
    ensures s != "" && IsDigit(s[0]) && AllRunChars(s)
  {
    if n < 1000 then Digits(n)
    else
      var s := Grouped(n / 1000) + "," + Pad3(n % 1000);
      assert s[0] == Grouped(n / 1000)[0];
      s
  }

  lemma {:induction false} DecimalDigits(n: nat)
    ensures Decimal(Digits(n)) == n
  {
    if n >= 10 {
      DecimalDigits(n / 10);
      var s := Digits(n);
      assert s[..|s| - 1] == Digits(n / 10);
    }
  }

  lemma DecimalPad3(a: string, r: nat)
    requires AllDigits(a) && r < 1000
    ensures AllDigits(a + Pad3(r))
    ensures Decimal(a + Pad3(r)) == Decimal(a) * 1000 + r
  {
    var p := Pad3(r);
    var s := a + p;
    assert s[..|s| - 1] == a + p[..2];
    assert (a + p[..2])[..|a| + 1] == a + p[..1];
    assert (a + p[..1])[..|a|] == a;
    var x, y, z := r / 100, r / 10 % 10, r % 10;
    assert r == 100 * x + 10 * y + z;
    calc {
      Decimal(s);
      Decimal(a + p[..2]) * 10 + z;
      (Decimal(a + p[..1]) * 10 + y) * 10 + z;
      ((Decimal(a) * 10 + x) * 10 + y) * 10 + z;
      Decimal(a) * 1000 + r;
    }
  }

  lemma {:induction false} DecimalGrouped(n: nat)
    ensures Without(Grouped(n), ',') != ""
    ensures AllDigits(Without(Grouped(n), ','))
    ensures Decimal(Without(Grouped(n), ',')) == n
  {
    if n < 1000 {
      NoCommaUnchanged(Digits(n));
      DecimalDigits(n);
    } else {
      var q, r := n / 1000, n % 1000;
      DecimalGrouped(q);
      var w := Without(Grouped(q), ',');
      WithoutAppend(Grouped(q) + ",", Pad3(r), ',');
      WithoutAppend(Grouped(q), ",", ',');
      NoCommaUnchanged(Pad3(r));
      assert Without(",", ',') == "";
      assert Without(Grouped(n), ',') == w + Pad3(r);
      DecimalPad3(w, r);
    }
  }

  lemma {:induction false} NoCommaUnchanged(s: string)
    requires AllDigits(s)
    ensures Without(s, ',') == s
  {
    if s != [] {
      NoCommaUnchanged(s[1..]);
      assert [s[0]] + s[1..] == s;
    }
  }

  /** Reading back a grouped install count: whatever follows the digits
      (a "+" or nothing) does not change the value. */
  lemma ParseGroupedInstalls(n: nat, suffix: string)
    requires suffix == "" || !IsRunChar(suffix[0])
    ensures ParseInstalls(Grouped(n) + suffix) == Int(n)
  {
    FirstRunOf("", Grouped(n), suffix);
    assert "" + Grouped(n) + suffix == Grouped(n) + suffix;
    DecimalGrouped(n);
  }

  lemma ParseInstallsExample(installs: string)
    requires installs == "10,000,000+"
    ensures ParseInstalls(installs) == Int(10000000)
  {
    var zeros := Pad3(0);
    assert zeros == "000";
    var ten := Digits(10);
    assert Digits(1) == "1";
    assert ten == "10";
    assert Grouped(10000) == ten + "," + zeros;
    assert Grouped(10000000) + "+" == installs;
    ParseGroupedInstalls(10000000, "+");
  }

  // ---------------------------------------------------------------------------
  // Tiers, score and reason
  // ---------------------------------------------------------------------------

  /** Tier 0 (best) .. 3 of a star rating: >= 4.5, >= 4.0, >= 3.5, else. */
  function RatingTier(rating: real): (t: nat)
    ensures t < 4
  {
    if rating >= 4.5 then 0 else if rating >= 4.0 then 1 else if rating >= 3.5 then 2 else 3
  }

  /** Tier of a ratings count: >= 100000, >= 10000, >= 1000, else. */
  function CountTier(count: int): (t: nat)
    ensures t < 4
  {
    if count >= 100000 then 0 else if count >= 10000 then 1 else if count >= 1000 then 2 else 3
  }

  /** Tier of a parsed install count: >= 10000000, >= 1000000, >= 100000,
      else. NaN fails every comparison and falls into the last tier. */
  function InstallTier(n: ParsedNumber): (t: nat)
    ensures t < 4
    ensures n.NaN? ==> t == 3
  {
    match n
    case NaN => 3
    case Int(v) => if v >= 10000000 then 0 else if v >= 1000000 then 1 else if v >= 100000 then 2 else 3
  }

  const RatingPoints: seq<nat> := [40, 30, 20, 10]
  const CountPoints: seq<nat> := [30, 20, 10, 5]
  const InstallPoints: seq<nat> := [30, 20, 10, 5]

  const RatingInsights: seq<string> :=
    ["Excellent user rating", "Good user rating", "Average user rating", "Below average rating"]
  const CountInsights: seq<string> :=
    ["Large user base with extensive feedback", "Good amount of user feedback",
     "Moderate user feedback", "Limited user feedback"]
  const InstallInsights: seq<string> :=
    ["Widely installed app", "Popular app", "Growing user base", "Emerging app"]

  /** The score of a present input: the sum of the three tiers' points. */
  function Score(input: ScorerInput): (s: int)
    ensures 20 <= s <= 100
  {
    RatingPoints[RatingTier(input.rating)]
    + CountPoints[CountTier(input.ratingsCount)]
    + InstallPoints[InstallTier(ParseInstalls(input.installs))]
  }

  /** The category of a score: >= 80, >= 60, >= 40, else. */
  function CategoryOf(score: int): (c: Category)
    ensures c == Excellent <==> score >= 80
    ensures c == Good <==> 60 <= score < 80
    ensures c == Average <==> 40 <= score < 60
    ensures c == Poor <==> score < 40
  {
    if score >= 80 then Excellent
    else if score >= 60 then Good
    else if score >= 40 then Average
    else Poor
  }

  /** `generateScore`: 0 for a missing input, otherwise three `score +=` steps. */
  method GenerateScore(input: Option<ScorerInput>) returns (score: int)
    ensures input.None? ==> score == 0
    ensures input.Some? ==> score == Score(input.value) && 20 <= score <= 100
  {
    if input.None? {
      return 0;
    }
    var rating, ratingsCount, installs := input.value.rating, input.value.ratingsCount, input.value.installs;
    score := 0;

    if rating >= 4.5 {
      score := score + 40;
    } else if rating >= 4.0 {
      score := score + 30;
    } else if rating >= 3.5 {
      score := score + 20;
    } else {
      score := score + 10;
    }

    if ratingsCount >= 100000 {
      score := score + 30;
    } else if ratingsCount >= 10000 {
      score := score + 20;
    } else if ratingsCount >= 1000 {
      score := score + 10;
    } else {
      score := score + 5;
    }

    var installNumber := ParseInstalls(installs);
    if installNumber.Int? && installNumber.value >= 10000000 {
      score := score + 30;
    } else if installNumber.Int? && installNumber.value >= 1000000 {
      score := score + 20;
    } else if installNumber.Int? && installNumber.value >= 100000 {
      score := score + 10;
    } else {
      score := score + 5;
    }
  }

  /** `generateReason`: the category of the given score and one insight per
      metric, pushed in the order rating, ratings count, installs. */
  method GenerateReason(score: int, input: Option<ScorerInput>) returns (category: Category, insights: seq<string>)
    ensures input.None? ==> category == Poor && insights == ["Invalid input provided"]
    ensures input.Some? ==> category == CategoryOf(score)
    ensures input.Some? ==> |insights| == 3
    ensures input.Some? ==> insights[0] == RatingInsights[RatingTier(input.value.rating)]
    ensures input.Some? ==> insights[1] == CountInsights[CountTier(input.value.ratingsCount)]
    ensures input.Some? ==> insights[2] == InstallInsights[InstallTier(ParseInstalls(input.value.installs))]
  {
    insights := [];
    if input.None? {
      return Poor, ["Invalid input provided"];
    }
    var rating, ratingsCount, installs := input.value.rating, input.value.ratingsCount, input.value.installs;

    if rating >= 4.5 {
      insights := insights + ["Excellent user rating"];
    } else if rating >= 4.0 {
      insights := insights + ["Good user rating"];
    } else if rating >= 3.5 {
      insights := insights + ["Average user rating"];
    } else {
      insights := insights + ["Below average rating"];
    }
    assert |insights| == 1 && insights[0] == RatingInsights[RatingTier(rating)];

    if ratingsCount >= 100000 {
      insights := insights + ["Large user base with extensive feedback"];
    } else if ratingsCount >= 10000 {
      insights := insights + ["Good amount of user feedback"];
    } else if ratingsCount >= 1000 {
      insights := insights + ["Moderate user feedback"];
    } else {
      insights := insights + ["Limited user feedback"];
    }
    assert |insights| == 2 && insights[1] == CountInsights[CountTier(ratingsCount)];

    var installNumber := ParseInstalls(installs);
    if installNumber.Int? && installNumber.value >= 10000000 {
      insights := insights + ["Widely installed app"];
    } else if installNumber.Int? && installNumber.value >= 1000000 {
      insights := insights + ["Popular app"];
    } else if installNumber.Int? && installNumber.value >= 100000 {
      insights := insights + ["Growing user base"];
    } else {
      insights := insights + ["Emerging app"];
    }
    assert |insights| == 3 && insights[2] == InstallInsights[InstallTier(installNumber)];

    if score >= 80 {
      category := Excellent;
    } else if score >= 60 {
      category := Good;
    } else if score >= 40 {
      category := Average;
    } else {
      category := Poor;
    }
  }

  /** Install counts ordered as the score's comparisons see them: NaN below
      every number. */
  predicate InstallsAtMost(a: ParsedNumber, b: ParsedNumber) {
    a.NaN? || (b.Int? && a.value <= b.value)
  }

  /** A higher rating never earns fewer rating points. */
  lemma RatingPointsMonotone(x: real, y: real)
    requires x <= y
    ensures RatingPoints[RatingTier(x)] <= RatingPoints[RatingTier(y)]
  {
  }

  /** A larger ratings count never earns fewer count points. */
  lemma CountPointsMonotone(x: int, y: int)
    requires x <= y
    ensures CountPoints[CountTier(x)] <= CountPoints[CountTier(y)]
  {
  }

  /** A larger install count never earns fewer install points. */
  lemma InstallPointsMonotone(x: ParsedNumber, y: ParsedNumber)
    requires InstallsAtMost(x, y)
    ensures InstallPoints[InstallTier(x)] <= InstallPoints[InstallTier(y)]
  {
  }

  /** The score never decreases when any of the three metrics grows. */
  lemma ScoreMonotone(a: ScorerInput, b: ScorerInput)
    requires a.rating <= b.rating
    requires a.ratingsCount <= b.ratingsCount
    requires InstallsAtMost(ParseInstalls(a.installs), ParseInstalls(b.installs))
    ensures Score(a) <= Score(b)
  {
    RatingPointsMonotone(a.rating, b.rating);
    CountPointsMonotone(a.ratingsCount, b.ratingsCount);
    InstallPointsMonotone(ParseInstalls(a.installs), ParseInstalls(b.installs));
  }

  /** An install string with no digit in its first run scores like one with
      zero installs. */
  lemma NaNInstallsScoreLikeZero(a: ScorerInput)
    requires ParseInstalls(a.installs).NaN?
    ensures Score(a) == Score(a.(installs := "0"))
  {
    var b := a.(installs := "0");
    ZeroInstalls();
    assert InstallTier(ParseInstalls(b.installs)) == InstallTier(ParseInstalls(a.installs));
  }

  /** "0" parses to the number 0. */
  lemma ZeroInstalls()
    ensures ParseInstalls("0") == Int(0)
  {
    FirstRunOf("", "0", "");
    assert "" + "0" + "" == "0";
    NoCommaUnchanged("0");
    assert Decimal("0") == 0;
  }

  /** The category is monotone in the score. */
  lemma CategoryMonotone(s: int, t: int)
    requires s <= t
    ensures CategoryRank(CategoryOf(s)) <= CategoryRank(CategoryOf(t))
  {
  }

  function CategoryRank(c: Category): nat {
    match c
    case Poor => 0
    case Average => 1
    case Good => 2
    case Excellent => 3
  }

  /** Each insight is chosen by the same threshold as the points the score
      gives for that metric: the best insight goes with the most points. */
  lemma InsightsAgreeWithScore(input: ScorerInput)
    ensures RatingInsights[RatingTier(input.rating)] == "Excellent user rating"
            <==> RatingPoints[RatingTier(input.rating)] == 40
    ensures CountInsights[CountTier(input.ratingsCount)] == "Limited user feedback"
            <==> CountPoints[CountTier(input.ratingsCount)] == 5
    ensures InstallInsights[InstallTier(ParseInstalls(input.installs))] == "Emerging app"
            <==> InstallPoints[InstallTier(ParseInstalls(input.installs))] == 5
  {
  }

  /** 4.6 stars, 150000 ratings and "10,000,000+" installs score 100,
      category excellent. */
  lemma TopScoreExample(input: ScorerInput)
    requires input.rating == 4.6 && input.ratingsCount == 150000 && input.installs == "10,000,000+"
    ensures Score(input) == 100
    ensures CategoryOf(Score(input)) == Excellent
  {
    ParseInstallsExample(input.installs);
  }
}
