/**
 * The score card shown once the payment has gone through: the percentage of
 * correct answers, its colour and message, the time spent as `m:ss`, and the
 * text offered for sharing.
 */
module ScoreDisplay {
  import opened Numerals

  /** `Math.round(score / totalQuestions * 100)`. */
  function Percentage(score: int, totalQuestions: int): (p: int)
    requires totalQuestions > 0
    ensures 2 * totalQuestions * p <= 200 * score + totalQuestions < 2 * totalQuestions * p + 2 * totalQuestions
  {
    Round(100 * score, totalQuestions)
  }

  /** A score between 0 and the number of questions gives a percentage between 0 and 100. */
  lemma PercentageBounds(score: int, totalQuestions: int)
    requires 0 <= score <= totalQuestions && totalQuestions > 0
    ensures 0 <= Percentage(score, totalQuestions) <= 100
  {
    var p := Percentage(score, totalQuestions);
    if p < 0 {
      MulNonNegative(2 * totalQuestions, -p - 1);
      assert false;
    }
    if p > 100 {
      MulNonNegative(2 * totalQuestions, p - 101);
      assert false;
    }
  }

  /** More correct answers never show a lower percentage. */
  lemma PercentageMonotone(s: int, t: int, totalQuestions: int)
    requires totalQuestions > 0 && s <= t
    ensures Percentage(s, totalQuestions) <= Percentage(t, totalQuestions)
  {
    RoundMonotone(100 * s, 100 * t, totalQuestions);
  }

  /** With the ten questions of a quiz, every correct answer is worth ten percent. */
  lemma PercentageOfTen(score: int)
    ensures Percentage(score, 10) == 10 * score
  {
  }

  /** The four bands of the score card, from best to worst. */
  datatype Band = Outstanding | Excellent | Good | KeepLearning

  /** The band a percentage falls in, stated as disjoint ranges. */
  function BandOf(percentage: int): (b: Band)
    ensures b == Outstanding <==> 90 <= percentage
    ensures b == Excellent <==> 75 <= percentage < 90
    ensures b == Good <==> 60 <= percentage < 75
    ensures b == KeepLearning <==> percentage < 60
  {
    if percentage < 60 then KeepLearning
    else if percentage < 75 then Good
    else if percentage < 90 then Excellent
    else Outstanding
  }

  function BandColor(b: Band): string {
    match b
    case Outstanding => "text-green-500"
    case Excellent => "text-blue-500"
    case Good => "text-yellow-500"
    case KeepLearning => "text-red-500"
  }

  function BandMessage(b: Band): string {
    match b
    case Outstanding => "Outstanding! You're a blockchain genius! \U{1F9E0}"
    case Excellent => "Excellent work! You know your blockchain tech! \U{1F4AA}"
    case Good => "Good job! You have solid blockchain knowledge! \U{1F44D}"
    case KeepLearning => "Keep learning! There's always room to grow! \U{1F4DA}"
  }

  /** The colour class: the first threshold the percentage reaches wins. */
  function ScoreColor(percentage: int): (c: string)
    ensures c == BandColor(BandOf(percentage))
  {
    if percentage >= 90 then "text-green-500"
    else if percentage >= 75 then "text-blue-500"
    else if percentage >= 60 then "text-yellow-500"
    else "text-red-500"
  }

  /** The message: the same thresholds, checked in the same order. */
  function ScoreMessage(percentage: int): (m: string)
    ensures m == BandMessage(BandOf(percentage))
  {
    if percentage >= 90 then "Outstanding! You're a blockchain genius! \U{1F9E0}"
    else if percentage >= 75 then "Excellent work! You know your blockchain tech! \U{1F4AA}"
    else if percentage >= 60 then "Good job! You have solid blockchain knowledge! \U{1F44D}"
    else "Keep learning! There's always room to grow! \U{1F4DA}"
  }

  /**
   * Colour and message always agree: two percentages share a colour exactly
   * when they share a message, and exactly when they fall in the same band.
   */
  lemma ColorAndMessageAgree(p: int, q: int)
    ensures ScoreColor(p) == ScoreColor(q) <==> BandOf(p) == BandOf(q)
    ensures ScoreMessage(p) == ScoreMessage(q) <==> BandOf(p) == BandOf(q)
  {
  }

  /**
   * The time spent as `m:ss`: minutes unpadded, seconds padded to two digits.
   * It reads back as the same number of seconds, the minutes never start with
   * a zero once there is a whole minute, and under ten minutes it is exactly
   * four characters.
   */
  function FormatTime(seconds: nat): (r: string)
    ensures ParseMinSec(r) == Some(seconds)
    ensures seconds >= 60 ==> r[0] != '0'
    ensures seconds < 600 ==> |r| == 4
  {
    var mm := ToDecimal(seconds / 60);
    var ss := PadStart(ToDecimal(seconds % 60), 2, '0');
    ZeroPadValue(ToDecimal(seconds % 60), 2);
    DecimalRoundTrip(seconds / 60);
    DecimalRoundTrip(seconds % 60);
    ParseMinSecOf(mm, ss);
    mm + ":" + ss
  }

  const SharePrefix: string := "I just scored "
  const ShareSuffix: string := " on the IQ Quiz Contest! \U{1F9E0} Test your blockchain knowledge too!"

  /**
   * The text handed to the share sheet or the clipboard. It carries
   * `score/totalQuestions` and the very percentage the card shows.
   */
  function ShareText(score: nat, totalQuestions: nat): (r: string)
    requires totalQuestions > 0
    ensures ParseShareText(r) == Some((score, totalQuestions, Percentage(score, totalQuestions)))
  {
    PercentageBounds(0, totalQuestions);
    PercentageMonotone(0, score, totalQuestions);
    var p: nat := Percentage(score, totalQuestions);
    var d0, d1, d2 := ToDecimal(score), ToDecimal(totalQuestions), ToDecimal(p);
    var tail1 := d1 + (" (" + (d2 + ("%)" + ShareSuffix)));
    var tail0 := "/" + tail1;
    ExpectOf(SharePrefix, d0 + tail0);
    ReadNumberOf(score, tail0);
    ExpectOf("/", tail1);
    ParsePercentPartOf(totalQuestions, p);
    SharePrefix + (d0 + tail0)
  }

  /** Reads score, total and percentage back out of a share text. */
  function ParseShareText(text: string): Option<(nat, nat, nat)> {
    var r0 :- Expect(text, SharePrefix);
    var score :- ReadNumber(r0);
    var r1 :- Expect(score.1, "/");
    var rest :- ParsePercentPart(r1);
    Some((score.0, rest.0, rest.1))
  }

  /** The part after the slash: `<total> (<percentage>%)` and the fixed suffix. */
  function ParsePercentPart(text: string): Option<(nat, nat)> {
    var total :- ReadNumber(text);
    var r2 :- Expect(total.1, " (");
    var percentage :- ReadNumber(r2);
    var r3 :- Expect(percentage.1, "%)");
    if r3 == ShareSuffix then Some((total.0, percentage.0)) else None
  }

  lemma ParsePercentPartOf(total: nat, percentage: nat)
    ensures ParsePercentPart(ToDecimal(total) + (" (" + (ToDecimal(percentage) + ("%)" + ShareSuffix))))
      == Some((total, percentage))
  {
    var tail2 := "%)" + ShareSuffix;
    var tail1 := " (" + (ToDecimal(percentage) + tail2);
    ReadNumberOf(total, tail1);
    ExpectOf(" (", ToDecimal(percentage) + tail2);
    ReadNumberOf(percentage, tail2);
    ExpectOf("%)", ShareSuffix);
  }
}
