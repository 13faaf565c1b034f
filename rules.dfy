/** The pure expressions of the API server: the recommendation score,
    the course filter and reason text of the recommendation endpoint,
    the member-code string, and the arithmetic of notification-log
    finalisation. */
module Rules {
  import opened Tables
  import CheckIn
  import Notifications

  // ---------------------------------------------------------------
  // Recommendations (GET /api/members/:id/recommendations)
  // ---------------------------------------------------------------

  /** The integer score of a candidate course: 30 for a city the member
      has played in, 20/10/0 by total plays (> 5, > 2), 15/8/0 by
      distinct players (> 3, > 1). */
  function RecommendationScore(inPlayedCity: bool, totalPlays: nat, uniquePlayers: nat): (s: nat)
    ensures s <= 65
    ensures inPlayedCity ==> s >= 30
    ensures !inPlayedCity ==> s <= 35
    ensures totalPlays <= 2 && uniquePlayers <= 1 ==> s == (if inPlayedCity then 30 else 0)
  {
    (if inPlayedCity then 30 else 0)
    + (if totalPlays > 5 then 20 else if totalPlays > 2 then 10 else 0)
    + (if uniquePlayers > 3 then 15 else if uniquePlayers > 1 then 8 else 0)
  }

  /** More familiarity and more popularity never lower the score. */
  lemma ScoreMonotone(c1: bool, t1: nat, u1: nat, c2: bool, t2: nat, u2: nat)
    requires c1 ==> c2
    requires t1 <= t2 && u1 <= u2
    ensures RecommendationScore(c1, t1, u1) <= RecommendationScore(c2, t2, u2)
  {
  }

  /** A course is a candidate when it is active, its tier is visible to
      the member (a member whose tier is `premium` sees every course,
      anyone else only `core` courses) and the member has not played it. */
  predicate Recommendable(courseId: CourseId, course: Course, memberTier: string, playedIds: set<CourseId>)
  {
    course.isActive
    && (memberTier == "premium" || course.tierRequired == "core")
    && courseId !in playedIds
  }

  /** Every recommended course passes the check-in tier gate, so the
      endpoint never suggests a course the member would be refused at
      for tier reasons. */
  lemma RecommendedPassesTierGate(courseId: CourseId, course: Course, memberTier: string, playedIds: set<CourseId>)
    requires Recommendable(courseId, course, memberTier, playedIds)
    ensures CheckIn.TierAllows(course.tierRequired, memberTier)
  {
  }

  /** The reason attached to a recommendation: the first that applies of
      "played in this city", "popular", "premium", else a generic text. */
  function RecommendationReason(course: Course, playedCities: seq<string>, uniquePlayers: nat): (reason: string)
    ensures course.city in playedCities ==> reason == "You've played in " + course.city + " before"
    ensures course.city !in playedCities && uniquePlayers > 1 ==>
              reason == "Popular with " + Decimal(uniquePlayers) + " members"
    ensures course.city !in playedCities && uniquePlayers <= 1 && course.tierRequired == "premium" ==>
              reason == "Premium course"
    ensures (reason == "Recommended for you")
            <==> (course.city !in playedCities && uniquePlayers <= 1 && course.tierRequired != "premium")
  {
    if course.city in playedCities then
      var r := "You've played in " + course.city + " before";
      assert r[0] == 'Y';
      r
    else if uniquePlayers > 1 then
      var r := "Popular with " + Decimal(uniquePlayers) + " members";
      assert r[0] == 'P';
      r
    else if course.tierRequired == "premium" then "Premium course"
    else "Recommended for you"
  }

  // ---------------------------------------------------------------
  // Decimal text of a natural number (JavaScript String(n))
  // ---------------------------------------------------------------

  function DigitChar(d: nat): char
    requires d < 10
  {
    (48 + d) as char
  }

  function DigitValue(c: char): int {
    c as int - 48
  }

  /** `String(n)` for a non-negative integer: its decimal digits, no
      leading zeros. */
  function Decimal(n: nat): (s: string)
    ensures |s| >= 1
    ensures forall i :: 0 <= i < |s| ==> '0' <= s[i] <= '9'
    decreases n
  {
    if n < 10 then [DigitChar(n)] else Decimal(n / 10) + [DigitChar(n % 10)]
  }

  /** The value of a string of decimal digits. */
  function ParseDecimal(s: string): int
  {
    if s == [] then 0 else 10 * ParseDecimal(s[..|s| - 1]) + DigitValue(s[|s| - 1])
  }

  /** Decimal text reads back as the number it was made from. */
  lemma {:induction false} ParseDecimalOfDecimal(n: nat)
    ensures ParseDecimal(Decimal(n)) == n
    decreases n
  {
    if n >= 10 {
      var s := Decimal(n);
      assert s[..|s| - 1] == Decimal(n / 10);
      ParseDecimalOfDecimal(n / 10);
    }
  }

  /** Decimal is one-to-one. */
  lemma DecimalInjective(a: nat, b: nat)
    requires Decimal(a) == Decimal(b)
    ensures a == b
  {
    ParseDecimalOfDecimal(a);
    ParseDecimalOfDecimal(b);
  }

  function Pow10(k: nat): nat {
    if k == 0 then 1 else 10 * Pow10(k - 1)
  }

  /** A number with k digits (10^(k-1) <= n < 10^k) has a k-character
      decimal text. */
  lemma {:induction false} DecimalLength(n: nat, k: nat)
    requires k >= 1 && Pow10(k - 1) <= n < Pow10(k)
    ensures |Decimal(n)| == k
    decreases k
  {
    if k > 1 {
      assert Pow10(k - 1) == 10 * Pow10(k - 2);
      DecimalLength(n / 10, k - 1);
    }
  }

  // ---------------------------------------------------------------
  // Member code (POST /api/members)
  // ---------------------------------------------------------------

  /** The length the mobile login screen demands of a member code. */
  predicate LoginAcceptsLength(code: string) {
    |code| == 8
  }

  /** The code as the enrolment handler builds it from the current member
      count: `PP` + `String(100000 + count + 1).slice(1)`. */
  function MemberCodeAsWritten(memberCount: nat): string
  {
    "PP" + Decimal(100000 + memberCount + 1)[1..]
  }

  /** Below 899999 existing members the code as written has only seven
      characters, so the eight-character login check refuses every such
      code. */
  lemma AsWrittenCodeFailsLogin(memberCount: nat)
    requires memberCount < 899999
    ensures |MemberCodeAsWritten(memberCount)| == 7
    ensures !LoginAcceptsLength(MemberCodeAsWritten(memberCount))
  {
    SixDigitSerial(memberCount);
  }

  /** The first member ever enrolled gets `PP00001`. */
  lemma FirstCodeAsWritten()
    ensures MemberCodeAsWritten(0) == "PP00001"
  {
    assert Decimal(100001) == "100001";
  }

  /** The code without the slice: `PP` + `String(100000 + count + 1)`,
      which is the documented `PP100001` shape. */
  function MemberCode(memberCount: nat): (code: string)
    ensures |code| >= 3 && code[..2] == "PP"
    ensures memberCount < 899999 ==> |code| == 8 && LoginAcceptsLength(code)
  {
    SixDigitSerial(memberCount);
    "PP" + Decimal(100000 + memberCount + 1)
  }

  /** Below 899999 members, 100000 + count + 1 has six digits. */
  lemma SixDigitSerial(memberCount: nat)
    ensures memberCount < 899999 ==> |Decimal(100000 + memberCount + 1)| == 6
  {
    if memberCount < 899999 {
      assert Pow10(5) == 100000 && Pow10(6) == 1000000;
      DecimalLength(100000 + memberCount + 1, 6);
    }
  }

  /** Distinct member counts give distinct codes. */
  lemma MemberCodeInjective(a: nat, b: nat)
    requires MemberCode(a) == MemberCode(b)
    ensures a == b
  {
    assert MemberCode(a)[2..] == Decimal(100000 + a + 1);
    assert MemberCode(b)[2..] == Decimal(100000 + b + 1);
    DecimalInjective(100000 + a + 1, 100000 + b + 1);
  }

  /** The first member ever enrolled gets the documented `PP100001`. */
  lemma FirstMemberCode()
    ensures MemberCode(0) == "PP100001"
  {
    assert Decimal(100001) == "100001";
  }

  // ---------------------------------------------------------------
  // Notification-log finalisation (the three UPDATE notification_log)
  // ---------------------------------------------------------------

  /** Final counts of a broadcast or targeted send. */
  function BatchFinalisation(sent: nat, failed: nat): (f: Notifications.Finalisation)
    ensures f.BatchTotals?
    ensures f.sentCount == sent && f.failedCount == failed
    ensures f.recipientCount == f.sentCount + f.failedCount
    ensures f.status == "sent" <==> failed == 0
    ensures f.status == "partial" <==> failed != 0
  {
    Notifications.BatchTotals(sent + failed, sent, failed, if failed == 0 then "sent" else "partial")
  }

  /** Final counts of an individual send: (1, 0, sent) or (0, 1, failed). */
  function IndividualFinalisation(success: bool): (f: Notifications.Finalisation)
    ensures f.SingleOutcome?
    ensures success ==> f.sentCount == 1 && f.failedCount == 0
    ensures !success ==> f.sentCount == 0 && f.failedCount == 1
    ensures f.status == "sent" <==> success
    ensures f.status == "failed" <==> !success
  {
    if success then Notifications.SingleOutcome(1, 0, "sent") else Notifications.SingleOutcome(0, 1, "failed")
  }
}
