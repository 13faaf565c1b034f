/** The rows of the relational store that the API reads and writes,
    and the monthly usage count shared by the usage endpoint, the
    check-in gate and the `hasRoundsRemaining` targeting filter. */
module Tables {
  import opened Wrappers

  type MemberId = string
  type CourseId = string

  /** A `members` row joined to its health plan's tier: `pt.name` is the
      tier name and `pt.monthly_rounds` the monthly quota. */
  datatype Member = Member(status: string, tier: string, monthlyRounds: int)

  /** A `golf_courses` row (only the columns the core reads). */
  datatype Course = Course(tierRequired: string, isActive: bool, city: string)

  /** A `golf_utilization` row: one check-in. Timestamps are integers
      (seconds); `NOW()` and `DATE_TRUNC('month', NOW())` are parameters. */
  datatype Utilization = Utilization(memberId: MemberId, courseId: CourseId, holesPlayed: int, checkedInAt: int)

  /** A `member_preferences` row; every column may be NULL. */
  datatype Preferences = Preferences(
    skillLevel: Option<string>,
    goals: Option<seq<string>>,
    playFrequency: Option<string>,
    preferredTime: Option<string>,
    interests: Option<seq<string>>,
    notificationsEnabled: Option<bool>,
    pushToken: Option<string>,
    onboardingCompletedAt: Option<int>)

  /** A `reviews` row; the table is keyed by (member, course). */
  datatype Review = Review(rating: int, comment: Option<string>, createdAt: int)

  /** The row counted by `COUNT(*) ... WHERE member_id = $1 AND
      checked_in_at >= DATE_TRUNC('month', NOW())`. */
  predicate InMonth(u: Utilization, m: MemberId, monthStart: int) {
    u.memberId == m && u.checkedInAt >= monthStart
  }

  /** Rounds a member has used since the start of the current month. */
  function RoundsUsed(records: seq<Utilization>, m: MemberId, monthStart: int): nat
  {
    if records == [] then 0
    else
      var n := |records| - 1;
      RoundsUsed(records[..n], m, monthStart) + (if InMonth(records[n], m, monthStart) then 1 else 0)
  }

  /** The indices of the rows the SQL count selects. */
  ghost function MonthRows(records: seq<Utilization>, m: MemberId, monthStart: int): set<nat>
  {
    set i: nat | i < |records| && InMonth(records[i], m, monthStart)
  }

  /** RoundsUsed is exactly the number of the member's rows stamped at or
      after the month start. */
  lemma {:induction false} RoundsUsedCountsMonthRows(records: seq<Utilization>, m: MemberId, monthStart: int)
    ensures RoundsUsed(records, m, monthStart) == |MonthRows(records, m, monthStart)|
  {
    if records != [] {
      var n := |records| - 1;
      RoundsUsedCountsMonthRows(records[..n], m, monthStart);
      var before := MonthRows(records[..n], m, monthStart);
      if InMonth(records[n], m, monthStart) {
        assert MonthRows(records, m, monthStart) == before + {n};
      } else {
        assert MonthRows(records, m, monthStart) == before;
      }
    } else {
      assert MonthRows(records, m, monthStart) == {};
    }
  }

  /** Appending one row raises the count by one exactly when that row is
      the member's and falls in the month. */
  lemma {:induction false} RoundsUsedAppend(records: seq<Utilization>, u: Utilization, m: MemberId, monthStart: int)
    ensures RoundsUsed(records + [u], m, monthStart)
         == RoundsUsed(records, m, monthStart) + (if InMonth(u, m, monthStart) then 1 else 0)
  {
    assert (records + [u])[..|records|] == records;
  }

  /** Rows from before the month start never count: when a new month
      starts after every recorded check-in, usage is back to zero. */
  lemma {:induction false} RoundsUsedResetsAtMonthStart(records: seq<Utilization>, m: MemberId, monthStart: int)
    requires forall i :: 0 <= i < |records| ==> records[i].checkedInAt < monthStart
    ensures RoundsUsed(records, m, monthStart) == 0
  {
    if records != [] {
      RoundsUsedResetsAtMonthStart(records[..|records| - 1], m, monthStart);
    }
  }

  /** Some check-in of this member exists at this course. */
  predicate Played(records: seq<Utilization>, m: MemberId, c: CourseId) {
    exists i :: 0 <= i < |records| && records[i].memberId == m && records[i].courseId == c
  }

  /** Some check-in of this member is stamped at or after `since`. */
  predicate PlayedSince(records: seq<Utilization>, m: MemberId, since: int) {
    exists i :: 0 <= i < |records| && records[i].memberId == m && records[i].checkedInAt >= since
  }
}
