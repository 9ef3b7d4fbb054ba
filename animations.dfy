/**
 * The pure decisions of the results modal and the score display:
 * which of four messages a final percentage earns, and the texts shown.
 */
module Animations {
  import opened Wrappers
  import opened NumberText

  /** The four result tiers of the results modal, best first. */
  datatype Tier = Genius | Excellent | GoodWork | KeepPracticing

  /** The tier a percentage selects: the first threshold (90, 70, 50) it reaches. */
  function TierOf(percentage: int): (t: Tier)
    ensures t == Genius <==> percentage >= 90
    ensures t == Excellent <==> 70 <= percentage < 90
    ensures t == GoodWork <==> 50 <= percentage < 70
    ensures t == KeepPracticing <==> percentage < 50
  {
    if percentage >= 90 then Genius
    else if percentage >= 70 then Excellent
    else if percentage >= 50 then GoodWork
    else KeepPracticing
  }

  /** Position of a tier in the order of merit: higher is better. */
  function Rank(t: Tier): nat {
    match t
    case KeepPracticing => 0
    case GoodWork => 1
    case Excellent => 2
    case Genius => 3
  }

  /** A higher percentage never earns a lower tier. */
  lemma TierMonotone(p: int, q: int)
    requires p <= q
    ensures Rank(TierOf(p)) <= Rank(TierOf(q))
  {
  }

  function Message(t: Tier): string {
    match t
    case Genius => "Perfeito! Você é um gênio da matemática!"
    case Excellent => "Muito bem! Excelente desempenho!"
    case GoodWork => "Bom trabalho! Continue praticando!"
    case KeepPracticing => "Não desista! A prática leva à perfeição!"
  }

  function Emoji(t: Tier): char {
    match t
    case Genius => '🏆'
    case Excellent => '🎉'
    case GoodWork => '👍'
    case KeepPracticing => '💪'
  }

  /** The two texts the results modal fills in. */
  datatype ResultText = ResultText(finalScore: string, message: string)

  /** Text of the final score: the percentage followed by '%'. */
  function PercentText(percentage: int): string {
    IntToString(percentage) + "%"
  }

  /** Text of the result message: the tier's emoji, one space, then its message. */
  function MessageText(t: Tier): string {
    [Emoji(t)] + " " + Message(t)
  }

  /** What the results modal shows for a final percentage. */
  function ResultModalText(percentage: int): ResultText {
    ResultText(PercentText(percentage), MessageText(TierOf(percentage)))
  }

  /** The final-score text ends in '%' and what precedes it reads back as the percentage. */
  lemma PercentTextRoundTrip(percentage: int)
    ensures var s := ResultModalText(percentage).finalScore;
            |s| > 1 && s[|s| - 1] == '%' && ParseInt(s[..|s| - 1]) == Some(percentage)
  {
    var s := ResultModalText(percentage).finalScore;
    assert s[..|s| - 1] == IntToString(percentage);
    IntToStringRoundTrip(percentage);
  }

  /** The message text is the selected tier's emoji, a space and its message, and it tells the tiers apart. */
  lemma MessageTextParts(percentage: int, other: int)
    ensures var m := ResultModalText(percentage).message;
            |m| > 2 && m[0] == Emoji(TierOf(percentage)) && m[1] == ' '
            && m[2..] == Message(TierOf(percentage))
    ensures ResultModalText(percentage).message == ResultModalText(other).message
            <==> TierOf(percentage) == TierOf(other)
  {
    var m, n := ResultModalText(percentage).message, ResultModalText(other).message;
    assert m[0] == Emoji(TierOf(percentage)) && n[0] == Emoji(TierOf(other));
  }

  const ScorePrefix: string := "Pontuação "

  /** Text of the running score display: "Pontuação <score>/<total>". */
  function ScoreLabel(score: nat, total: nat): string {
    ScorePrefix + NatToString(score) + "/" + NatToString(total)
  }

  /** The position of the first `c` in `s`, if any. */
  function IndexOf(s: string, c: char): (r: Option<nat>)
    ensures r.Some? ==> r.value < |s| && s[r.value] == c && c !in s[..r.value]
    ensures r.None? ==> c !in s
  {
    if s == [] then None
    else if s[0] == c then Some(0)
    else match IndexOf(s[1..], c)
      case None => None
      case Some(k) => Some(k + 1)
  }

  /** Reads a score label back into its score and total. */
  function ParseScoreLabel(text: string): Option<(nat, nat)> {
    if |text| < |ScorePrefix| || text[..|ScorePrefix|] != ScorePrefix then None
    else
      var rest := text[|ScorePrefix|..];
      match IndexOf(rest, '/')
      case None => None
      case Some(k) =>
        var a, b := rest[..k], rest[k + 1..];
        if |a| > 0 && |b| > 0 && AllDigits(a) && AllDigits(b)
        then Some((DigitsValue(a), DigitsValue(b)))
        else None
  }

  lemma {:induction false} IndexOfFirst(s: string, c: char, k: nat)
    requires k < |s| && s[k] == c
    requires forall j :: 0 <= j < k ==> s[j] != c
    ensures IndexOf(s, c) == Some(k)
    decreases k
  {
    if k > 0 {
      IndexOfFirst(s[1..], c, k - 1);
    }
  }

  /** The score label determines the score and the total it was made from. */
  lemma ScoreLabelRoundTrip(score: nat, total: nat)
    ensures ParseScoreLabel(ScoreLabel(score, total)) == Some((score, total))
  {
    var a, b := NatToString(score), NatToString(total);
    var rest := a + "/" + b;
    var shown := ScoreLabel(score, total);
    assert shown == ScorePrefix + rest;
    assert shown[..|ScorePrefix|] == ScorePrefix && shown[|ScorePrefix|..] == rest;
    assert forall j :: 0 <= j < |a| ==> rest[j] == a[j] && IsDigit(a[j]);
    IndexOfFirst(rest, '/', |a|);
    assert rest[..|a|] == a && rest[|a| + 1..] == b;
    NatToStringRoundTrip(score);
    NatToStringRoundTrip(total);
  }
}
