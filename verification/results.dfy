/** The test-results screen (src/screens/TestResultsScreen.tsx): what it derives
    from the navigation parameters the quiz passes it. */
module Results {
  import opened Wrappers
  import opened Text

  /** One entry of `incorrectQuestions`. */
  datatype Incorrect = Incorrect(questionText: string, userAnswerId: string)

  /** The route parameters of the results screen. */
  datatype Params = Params(
    score: int,
    total: int,
    percentage: real,
    timeSpent: string,
    resultId: string,
    incorrectQuestions: Option<seq<Incorrect>>,
    testId: string,
    testName: string)

  /** `parseInt(timeSpent.replace('s', ''), 10) || 0`: only the first `s` is
      removed, and `NaN` (no digits) becomes 0. */
  function TimeInSeconds(timeSpent: string): int {
    ParseInt(RemoveFirst(timeSpent, 's')).GetOr(0)
  }

  /** The quiz writes the elapsed seconds as a numeral followed by `s`; the
      results screen reads the same number back. */
  lemma TimeSpentRoundTrip(n: nat)
    ensures TimeInSeconds(NatToString(n) + "s") == n
  {
    var digits := NatToString(n);
    assert 's' !in digits;
    RemoveFirstAfter(digits, 's');
    ParseIntOfNumeral(digits, "");
    assert digits + "" == digits;
    DecimalRoundTrip(n);
  }

  /** Removing the first `c` from `s + [c]` when `s` has none gives `s`. */
  lemma {:induction false} RemoveFirstAfter(s: string, c: char)
    requires c !in s
    ensures RemoveFirst(s + [c], c) == s
  {
    if s != [] {
      assert (s + [c])[1..] == s[1..] + [c];
      assert c !in s[1..];
      RemoveFirstAfter(s[1..], c);
      assert s == [s[0]] + s[1..];
    } else {
      assert s + [c] == [c];
    }
  }

  /** A text without any digit reads as 0 seconds. */
  lemma NoDigitsIsZero(timeSpent: string)
    requires forall i :: 0 <= i < |timeSpent| ==> !IsDigit(timeSpent[i])
    ensures TimeInSeconds(timeSpent) == 0
  {
    var r := RemoveFirst(timeSpent, 's');
    forall c | c in r ensures !IsDigit(c) {
      assert c in multiset(r);
      assert c in multiset(timeSpent);
    }
    var t := r[LeadingSpaces(r)..];
    var (sign, u) := SignedPart(t);
    if u != [] {
      assert u[0] in t;
      assert u[0] in r;
    }
  }

  /** `formatTime(seconds)`: whole minutes, then the remaining seconds, both
      unpadded: `"{m}m {s}s"`. */
  function FormatMinSec(seconds: nat): string {
    NatToString(seconds / 60) + "m " + NatToString(seconds % 60) + "s"
  }

  /** The text reads back as minutes and seconds under a minute that add up to
      the input. */
  lemma FormatMinSecReadsBack(seconds: nat)
    ensures
      var r := FormatMinSec(seconds);
      var k := |NatToString(seconds / 60)|;
      && k + 3 <= |r| - 1
      && r[k] == 'm' && r[k + 1] == ' ' && r[|r| - 1] == 's'
      && AllDigits(r[..k]) && AllDigits(r[k + 2..|r| - 1])
      && DecimalValue(r[k + 2..|r| - 1]) < 60
      && 60 * DecimalValue(r[..k]) + DecimalValue(r[k + 2..|r| - 1]) == seconds
  {
    var m, s := NatToString(seconds / 60), NatToString(seconds % 60);
    var r := FormatMinSec(seconds);
    assert r == m + "m " + s + "s";
    assert r[..|m|] == m;
    assert r[|m| + 2..|r| - 1] == s;
    DecimalRoundTrip(seconds / 60);
    DecimalRoundTrip(seconds % 60);
  }

  datatype ScoreColor = Green | Yellow | Red

  /** The hex value each colour is drawn with. */
  function Hex(c: ScoreColor): string {
    match c
    case Green => "#4CAF50"
    case Yellow => "#FFC107"
    case Red => "#F44336"
  }

  /** `getScoreColor()`: the three bands of the percentage. The server's score
      is any JavaScript number, fractions included. */
  function ScoreColorOf(percentage: real): (c: ScoreColor)
    ensures c == Green <==> percentage >= 80.0
    ensures c == Yellow <==> 50.0 <= percentage < 80.0
    ensures c == Red <==> percentage < 50.0
  {
    if percentage >= 80.0 then Green
    else if percentage >= 50.0 then Yellow
    else Red
  }

  /** A score just under a band edge stays in the lower band. */
  lemma FractionalScoreStaysBelow()
    ensures ScoreColorOf(79.5) == Yellow && ScoreColorOf(49.9) == Red
  {
  }

  /** A better score never gets a worse colour. */
  lemma ScoreColorMonotone(a: real, b: real)
    requires a <= b
    ensures ScoreColorOf(a) == Green ==> ScoreColorOf(b) == Green
    ensures ScoreColorOf(b) == Red ==> ScoreColorOf(a) == Red
  {
  }

  /** The figures the screen shows: the correct and incorrect counts,
      whether the list of incorrect answers appears, and the "Čas:" clock. */
  datatype Summary = Summary(correct: int, incorrect: int, showIncorrectList: bool, clock: string)

  function Summarise(p: Params): (s: Summary)
    ensures s.correct == p.score && s.incorrect == p.total - p.score
    ensures s.correct + s.incorrect == p.total
    ensures s.showIncorrectList <==> p.incorrectQuestions.Some? && p.incorrectQuestions.value != []
    ensures s.clock == FormatMinSec(if TimeInSeconds(p.timeSpent) < 0 then 0 else TimeInSeconds(p.timeSpent))
  {
    var seconds := TimeInSeconds(p.timeSpent);
    Summary(p.score, p.total - p.score, p.incorrectQuestions.GetOr([]) != [],
            FormatMinSec(if seconds < 0 then 0 else seconds))
  }

  /** Where "try again" goes: the test screen for the same test. */
  datatype Route = TestRoute(testId: string, testName: string)

  function TryAgain(p: Params): (r: Route)
    ensures r.testId == p.testId && r.testName == p.testName
  {
    TestRoute(p.testId, p.testName)
  }
}
