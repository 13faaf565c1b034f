/** The check-in decision rule of `POST /api/check-in`: five gates, each
    ending the request early, then one new utilisation row. This module
    holds the decision as a pure function of the store and the request;
    the handler that appends the row is `Api.ParPassDb.CheckIn`. */
module CheckIn {
  import opened Wrappers
  import opened Tables

  /** The request body `{member_id, course_id, holes_played}`. */
  datatype CheckInRequest = CheckInRequest(memberId: MemberId, courseId: CourseId, holesPlayed: Option<int>)

  /** Why a check-in is refused, in gate order. */
  datatype Rejection = MemberNotFound | MemberInactive | RoundLimitReached | CourseNotFound | PremiumRequired {

    function HttpStatus(): (code: int)
      ensures code == 404 <==> this == MemberNotFound || this == CourseNotFound
      ensures code == 403 <==> !(this == MemberNotFound || this == CourseNotFound)
    {
      match this
      case MemberNotFound => 404
      case CourseNotFound => 404
      case _ => 403
    }

    function Message(): string {
      match this
      case MemberNotFound => "Member not found"
      case MemberInactive => "Member is not active"
      case RoundLimitReached => "Monthly round limit reached"
      case CourseNotFound => "Course not found"
      case PremiumRequired => "Premium course requires premium membership"
    }
  }

  datatype CheckInResponse =
    | CheckedIn(checkIn: Utilization, roundsRemaining: int)   // 201
    | Rejected(reason: Rejection)

  /** Default of `holes_played` in the request destructuring. */
  const DefaultHoles: int := 18

  /** The tier gate: only a premium course visited by a member whose tier
      is exactly `core` is refused. */
  predicate TierAllows(courseTier: string, memberTier: string)
  {
    !(courseTier == "premium" && memberTier == "core")
  }

  /** The tier gate refuses exactly one pair: a core course never fails it,
      and a member whose tier is anything but `core` always passes it. */
  lemma TierGateRefusesOnlyCoreAtPremium(courseTier: string, memberTier: string)
    ensures courseTier != "premium" ==> TierAllows(courseTier, memberTier)
    ensures memberTier != "core" ==> TierAllows(courseTier, memberTier)
    ensures !TierAllows(courseTier, memberTier) <==> courseTier == "premium" && memberTier == "core"
  {
  }

  /** Which gate, if any, refuses the request: the first failing one. */
  function CheckInOutcome(members: map<MemberId, Member>, courses: map<CourseId, Course>,
                          records: seq<Utilization>, req: CheckInRequest,
                          now: int, monthStart: int): (r: CheckInResponse)
    // gate 1: an unknown member is refused whatever else holds
    ensures r == Rejected(MemberNotFound) <==> req.memberId !in members
    // gate 2: a known member whose status is not exactly "active"
    ensures r == Rejected(MemberInactive)
       <==> req.memberId in members && members[req.memberId].status != "active"
    // gate 3: the quota, counted over this month's rows only
    ensures r == Rejected(RoundLimitReached)
       <==> req.memberId in members && members[req.memberId].status == "active"
            && RoundsUsed(records, req.memberId, monthStart) >= members[req.memberId].monthlyRounds
    // gate 4: an unknown course, looked up only after the quota passed
    ensures r == Rejected(CourseNotFound)
       <==> req.memberId in members && members[req.memberId].status == "active"
            && RoundsUsed(records, req.memberId, monthStart) < members[req.memberId].monthlyRounds
            && req.courseId !in courses
    // gate 5: premium course, core member
    ensures r == Rejected(PremiumRequired)
       <==> req.memberId in members && members[req.memberId].status == "active"
            && RoundsUsed(records, req.memberId, monthStart) < members[req.memberId].monthlyRounds
            && req.courseId in courses
            && courses[req.courseId].tierRequired == "premium" && members[req.memberId].tier == "core"
    // success: one row for this member and course, stamped now
    ensures r.CheckedIn? ==>
              && req.memberId in members
              && r.checkIn == Utilization(req.memberId, req.courseId, req.holesPlayed.GetOr(DefaultHoles), now)
              && r.roundsRemaining == members[req.memberId].monthlyRounds - RoundsUsed(records, req.memberId, monthStart) - 1
              && r.roundsRemaining >= 0
  {
    if req.memberId !in members then Rejected(MemberNotFound)
    else
      var member := members[req.memberId];
      if member.status != "active" then Rejected(MemberInactive)
      else
        var used := RoundsUsed(records, req.memberId, monthStart);
        if used >= member.monthlyRounds then Rejected(RoundLimitReached)
        else if req.courseId !in courses then Rejected(CourseNotFound)
        else if !TierAllows(courses[req.courseId].tierRequired, member.tier) then Rejected(PremiumRequired)
        else CheckedIn(Utilization(req.memberId, req.courseId, req.holesPlayed.GetOr(DefaultHoles), now),
                       member.monthlyRounds - used - 1)
  }

  /** The utilisation table after a response: a success appends its row,
      a rejection leaves the table as it was. */
  function After(records: seq<Utilization>, r: CheckInResponse): seq<Utilization>
  {
    if r.CheckedIn? then records + [r.checkIn] else records
  }

  /** One check-in attempt at a given moment. */
  datatype Attempt = Attempt(req: CheckInRequest, at: int)

  /** The utilisation table after a series of attempts, all in the same
      month (one month start), processed one at a time. */
  function RunAttempts(members: map<MemberId, Member>, courses: map<CourseId, Course>,
                       records: seq<Utilization>, attempts: seq<Attempt>, monthStart: int): seq<Utilization>
    decreases |attempts|
  {
    if attempts == [] then records
    else
      var a := attempts[0];
      var next := After(records, CheckInOutcome(members, courses, records, a.req, a.at, monthStart));
      RunAttempts(members, courses, next, attempts[1..], monthStart)
  }

  /** The number of admitted attempts by member `m` in a series. */
  function Admitted(members: map<MemberId, Member>, courses: map<CourseId, Course>,
                    records: seq<Utilization>, attempts: seq<Attempt>, m: MemberId, monthStart: int): nat
    decreases |attempts|
  {
    if attempts == [] then 0
    else
      var a := attempts[0];
      var r := CheckInOutcome(members, courses, records, a.req, a.at, monthStart);
      (if r.CheckedIn? && a.req.memberId == m then 1 else 0)
        + Admitted(members, courses, After(records, r), attempts[1..], m, monthStart)
  }

  /** All attempts happen at or after the month start. */
  predicate WithinMonth(attempts: seq<Attempt>, monthStart: int) {
    forall i :: 0 <= i < |attempts| ==> attempts[i].at >= monthStart
  }

  /** One attempt within the month: a success for `m` raises m's usage by
      one, anything else leaves it unchanged. */
  lemma {:induction false} StepUsage(members: map<MemberId, Member>, courses: map<CourseId, Course>,
                                     records: seq<Utilization>, a: Attempt, m: MemberId, monthStart: int)
    requires a.at >= monthStart
    ensures var r := CheckInOutcome(members, courses, records, a.req, a.at, monthStart);
            RoundsUsed(After(records, r), m, monthStart)
              == RoundsUsed(records, m, monthStart) + (if r.CheckedIn? && a.req.memberId == m then 1 else 0)
  {
    var r := CheckInOutcome(members, courses, records, a.req, a.at, monthStart);
    if r.CheckedIn? {
      RoundsUsedAppend(records, r.checkIn, m, monthStart);
    }
  }

  /** Usage after a series of attempts is the usage before plus the
      attempts of `m` that were admitted. */
  lemma {:induction false} UsageAfterAttempts(members: map<MemberId, Member>, courses: map<CourseId, Course>,
                                              records: seq<Utilization>, attempts: seq<Attempt>, m: MemberId, monthStart: int)
    requires WithinMonth(attempts, monthStart)
    ensures RoundsUsed(RunAttempts(members, courses, records, attempts, monthStart), m, monthStart)
         == RoundsUsed(records, m, monthStart) + Admitted(members, courses, records, attempts, m, monthStart)
    decreases |attempts|
  {
    if attempts != [] {
      var a := attempts[0];
      var r := CheckInOutcome(members, courses, records, a.req, a.at, monthStart);
      StepUsage(members, courses, records, a, m, monthStart);
      UsageAfterAttempts(members, courses, After(records, r), attempts[1..], m, monthStart);
    }
  }

  /** The quota is never overrun by check-ins: if a member starts the
      series within quota, their usage stays within quota whatever the
      attempts (any members, any courses) are. */
  lemma {:induction false} QuotaNeverExceeded(members: map<MemberId, Member>, courses: map<CourseId, Course>,
                                              records: seq<Utilization>, attempts: seq<Attempt>, m: MemberId, monthStart: int)
    requires m in members
    requires WithinMonth(attempts, monthStart)
    requires RoundsUsed(records, m, monthStart) <= members[m].monthlyRounds
    ensures RoundsUsed(RunAttempts(members, courses, records, attempts, monthStart), m, monthStart)
         <= members[m].monthlyRounds
    decreases |attempts|
  {
    if attempts != [] {
      var a := attempts[0];
      var r := CheckInOutcome(members, courses, records, a.req, a.at, monthStart);
      StepUsage(members, courses, records, a, m, monthStart);
      QuotaNeverExceeded(members, courses, After(records, r), attempts[1..], m, monthStart);
    }
  }

  /** With quota N and nothing used yet this month, once N attempts of an
      active member have been admitted, the next attempt is refused
      because the monthly limit is reached, whatever course it names. */
  lemma NextAfterQuotaIsRefused(members: map<MemberId, Member>, courses: map<CourseId, Course>,
                                records: seq<Utilization>, attempts: seq<Attempt>, next: Attempt, monthStart: int)
    requires next.req.memberId in members && members[next.req.memberId].status == "active"
    requires WithinMonth(attempts, monthStart)
    requires RoundsUsed(records, next.req.memberId, monthStart) == 0
    requires Admitted(members, courses, records, attempts, next.req.memberId, monthStart)
             == members[next.req.memberId].monthlyRounds
    ensures CheckInOutcome(members, courses, RunAttempts(members, courses, records, attempts, monthStart),
                           next.req, next.at, monthStart) == Rejected(RoundLimitReached)
  {
    UsageAfterAttempts(members, courses, records, attempts, next.req.memberId, monthStart);
  }

  /** A new month starts from a clean slate: when every recorded check-in
      precedes the new month start, an active member with quota N >= 1 at
      a course their tier allows is admitted with N - 1 rounds remaining. */
  lemma NewMonthAdmits(members: map<MemberId, Member>, courses: map<CourseId, Course>,
                       records: seq<Utilization>, req: CheckInRequest, now: int, newMonthStart: int)
    requires forall i :: 0 <= i < |records| ==> records[i].checkedInAt < newMonthStart
    requires req.memberId in members && members[req.memberId].status == "active"
    requires members[req.memberId].monthlyRounds >= 1
    requires req.courseId in courses
    requires TierAllows(courses[req.courseId].tierRequired, members[req.memberId].tier)
    ensures var r := CheckInOutcome(members, courses, records, req, now, newMonthStart);
            r.CheckedIn? && r.roundsRemaining == members[req.memberId].monthlyRounds - 1
  {
    RoundsUsedResetsAtMonthStart(records, req.memberId, newMonthStart);
  }
}
