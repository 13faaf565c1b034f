/** The API server's store and the handlers that change it or read it:
    check-in, monthly usage, review upsert, preference upsert and
    onboarding status, and the three notification endpoints. */
module Api {
  import opened Wrappers
  import opened Tables
  import opened CheckIn
  import opened Targeting
  import opened Notifications
  import Rules

  // ---------------------------------------------------------------
  // Reviews (POST /api/courses/:id/reviews)
  // ---------------------------------------------------------------

  datatype ReviewResponse =
    | ReviewSaved(review: Review)              // 201
    | ReviewRefused(status: int, error: string)

  /** `!rating || rating < 1 || rating > 5` is false: the rating is
      present and between 1 and 5 (0 is falsy and out of range alike). */
  predicate RatingAccepted(rating: Option<int>) {
    rating.Some? && 1 <= rating.value <= 5
  }

  /** `comment || null`: an absent or empty comment is stored as NULL. */
  function StoredComment(comment: Option<string>): (c: Option<string>)
    ensures c.None? <==> comment.None? || comment == Some("")
    ensures c.Some? ==> c == comment
  {
    if comment.Some? && comment.value != "" then comment else None
  }

  // ---------------------------------------------------------------
  // Preferences (PUT /api/members/:id/preferences)
  // ---------------------------------------------------------------

  /** The request body; a field that is absent or `null` is None. */
  datatype PreferencesUpdate = PreferencesUpdate(
    skillLevel: Option<string>,
    goals: Option<seq<string>>,
    playFrequency: Option<string>,
    preferredTime: Option<string>,
    interests: Option<seq<string>>,
    notificationsEnabled: Option<bool>,
    pushToken: Option<string>)

  /** A member with no preference row reads as all NULL. */
  const NoPreferences: Preferences := Preferences(None, None, None, None, None, None, None, None)

  /** The row after the upsert: on insert the given values and `NOW()`;
      on conflict every column is `COALESCE(new, old)` and the
      onboarding timestamp is `COALESCE(old, NOW())`. */
  function MergePreferences(prev: Option<Preferences>, u: PreferencesUpdate, now: int): (p: Preferences)
    // a field given in the request replaces the stored one
    ensures u.skillLevel.Some? ==> p.skillLevel == u.skillLevel
    ensures u.goals.Some? ==> p.goals == u.goals
    ensures u.playFrequency.Some? ==> p.playFrequency == u.playFrequency
    ensures u.preferredTime.Some? ==> p.preferredTime == u.preferredTime
    ensures u.interests.Some? ==> p.interests == u.interests
    ensures u.notificationsEnabled.Some? ==> p.notificationsEnabled == u.notificationsEnabled
    ensures u.pushToken.Some? ==> p.pushToken == u.pushToken
    // a field absent from the request keeps its stored value
    ensures prev.Some? && u.skillLevel.None? ==> p.skillLevel == prev.value.skillLevel
    ensures prev.Some? && u.goals.None? ==> p.goals == prev.value.goals
    ensures prev.Some? && u.playFrequency.None? ==> p.playFrequency == prev.value.playFrequency
    ensures prev.Some? && u.preferredTime.None? ==> p.preferredTime == prev.value.preferredTime
    ensures prev.Some? && u.interests.None? ==> p.interests == prev.value.interests
    ensures prev.Some? && u.notificationsEnabled.None? ==> p.notificationsEnabled == prev.value.notificationsEnabled
    ensures prev.Some? && u.pushToken.None? ==> p.pushToken == prev.value.pushToken
    // a first insert stores NULL for every field the request leaves out
    ensures prev.None? && u.skillLevel.None? ==> p.skillLevel.None?
    ensures prev.None? && u.goals.None? ==> p.goals.None?
    ensures prev.None? && u.playFrequency.None? ==> p.playFrequency.None?
    ensures prev.None? && u.preferredTime.None? ==> p.preferredTime.None?
    ensures prev.None? && u.interests.None? ==> p.interests.None?
    ensures prev.None? && u.notificationsEnabled.None? ==> p.notificationsEnabled.None?
    ensures prev.None? && u.pushToken.None? ==> p.pushToken.None?
    // onboarding is stamped on the first write and never moved afterwards
    ensures p.onboardingCompletedAt.Some?
    ensures prev.Some? && prev.value.onboardingCompletedAt.Some? ==>
              p.onboardingCompletedAt == prev.value.onboardingCompletedAt
    ensures (prev.None? || prev.value.onboardingCompletedAt.None?) ==> p.onboardingCompletedAt == Some(now)
  {
    var stored := prev.GetOr(NoPreferences);
    Preferences(
      Coalesce(u.skillLevel, stored.skillLevel),
      Coalesce(u.goals, stored.goals),
      Coalesce(u.playFrequency, stored.playFrequency),
      Coalesce(u.preferredTime, stored.preferredTime),
      Coalesce(u.interests, stored.interests),
      Coalesce(u.notificationsEnabled, stored.notificationsEnabled),
      Coalesce(u.pushToken, stored.pushToken),
      Coalesce(stored.onboardingCompletedAt, Some(now)))
  }

  /** Sending the same update twice is the same as sending it once, at
      whatever time the second arrives. */
  lemma MergeIdempotent(prev: Option<Preferences>, u: PreferencesUpdate, t1: int, t2: int)
    ensures MergePreferences(Some(MergePreferences(prev, u, t1)), u, t2) == MergePreferences(prev, u, t1)
  {
  }

  /** An empty update changes nothing in an existing row that has
      completed onboarding. */
  lemma EmptyUpdateKeepsRow(p: Preferences, now: int)
    requires p.onboardingCompletedAt.Some?
    ensures MergePreferences(Some(p), PreferencesUpdate(None, None, None, None, None, None, None), now) == p
  {
  }

  /** `GET .../onboarding-status`: a row exists and its timestamp is set. */
  predicate OnboardingCompleted(prefs: map<MemberId, Preferences>, id: MemberId) {
    id in prefs && prefs[id].onboardingCompletedAt.Some?
  }

  /** After any successful preference upsert the member has completed
      onboarding, and a later upsert never undoes it. */
  lemma UpsertCompletesOnboarding(prefs: map<MemberId, Preferences>, id: MemberId, u: PreferencesUpdate, now: int)
    ensures OnboardingCompleted(prefs[id := MergePreferences(if id in prefs then Some(prefs[id]) else None, u, now)], id)
    ensures OnboardingCompleted(prefs, id) ==>
              prefs[id := MergePreferences(Some(prefs[id]), u, now)][id].onboardingCompletedAt
              == prefs[id].onboardingCompletedAt
  {
  }

  datatype PreferencesResponse = PreferencesSaved(row: Preferences) | PreferencesRefused(status: int, error: string)

  // ---------------------------------------------------------------
  // Notification endpoints
  // ---------------------------------------------------------------

  /** JavaScript truthiness of a string field. */
  predicate Given(s: Option<string>) { s.Some? && s.value != "" }

  datatype NotifyResponse =
    | BadRequest(error: string)                                    // 400
    | BatchSent(sent: nat, failed: nat, criteria: Option<Criteria>) // {success, sent, failed[, criteria]}
    | IndividualSent(result: SendResult)                           // the sendToMember result

  /** The row a notification endpoint inserts before sending. */
  function PendingRow(id: nat, kind: string, title: string, body: string, criteria: LogCriteria, recipientCount: int): LogRow {
    LogRow(id, kind, title, body, criteria, recipientCount, 0, 0, "pending")
  }

  /** The store. `members` carries each member's tier and quota (the join
      through health plans and plan tiers), `reviews` is keyed by
      (member, course), `preferences` by member. */
  class ParPassDb {
    var members: map<MemberId, Member>
    var courses: map<CourseId, Course>
    var utilization: seq<Utilization>
    var reviews: map<(MemberId, CourseId), Review>
    var preferences: map<MemberId, Preferences>
    const log: NotificationLog

    /** Foreign keys and the review rule hold. */
    ghost predicate Valid()
      reads this, log
    {
      && (forall i :: 0 <= i < |utilization| ==> utilization[i].memberId in members && utilization[i].courseId in courses)
      && (forall k :: k in reviews ==> Played(utilization, k.0, k.1))
      && (forall id :: id in preferences ==> id in members)
      && (forall id :: id in preferences ==> preferences[id].onboardingCompletedAt.Some?)
      && log.Valid()
    }

    constructor(members: map<MemberId, Member>, courses: map<CourseId, Course>)
      ensures Valid() && fresh(log)
      ensures this.members == members && this.courses == courses
      ensures utilization == [] && reviews == map[] && preferences == map[] && log.rows == []
    {
      this.members := members;
      this.courses := courses;
      utilization := [];
      reviews := map[];
      preferences := map[];
      log := new NotificationLog();
    }

    // ----- check-in and usage -----

    /** `POST /api/check-in`: five gates in order, each ending the request,
        then one INSERT into golf_utilization. `now` is `NOW()` and
        `monthStart` is `DATE_TRUNC('month', NOW())`. */
    method CheckIn(req: CheckInRequest, now: int, monthStart: int) returns (r: CheckInResponse)
      requires Valid()
      modifies this
      ensures Valid()
      ensures r == CheckInOutcome(members, courses, old(utilization), req, now, monthStart)
      ensures utilization == After(old(utilization), r)
      ensures members == old(members) && courses == old(courses)
      ensures reviews == old(reviews) && preferences == old(preferences)
    {
      if req.memberId !in members {
        return Rejected(MemberNotFound);
      }
      var member := members[req.memberId];
      if member.status != "active" {
        return Rejected(MemberInactive);
      }
      var roundsUsed := RoundsUsed(utilization, req.memberId, monthStart);
      if roundsUsed >= member.monthlyRounds {
        return Rejected(RoundLimitReached);
      }
      if req.courseId !in courses {
        return Rejected(CourseNotFound);
      }
      var course := courses[req.courseId];
      if course.tierRequired == "premium" && member.tier == "core" {
        return Rejected(PremiumRequired);
      }
      var row := Utilization(req.memberId, req.courseId, req.holesPlayed.GetOr(DefaultHoles), now);
      PlayedKept(utilization, row);
      utilization := utilization + [row];
      r := CheckedIn(row, member.monthlyRounds - roundsUsed - 1);
    }

    /** `GET /api/members/:id/usage`: the number of the member's check-ins
        since the start of the month. */
    function Usage(id: MemberId, monthStart: int): (roundsUsed: nat)
      reads this
      ensures roundsUsed == |MonthRows(utilization, id, monthStart)|
    {
      RoundsUsedCountsMonthRows(utilization, id, monthStart);
      RoundsUsed(utilization, id, monthStart)
    }

    // ----- reviews -----

    /** `POST /api/courses/:id/reviews`: validate the rating, require a
        check-in at the course, then insert or overwrite the one review of
        this member for this course. */
    method SubmitReview(memberId: MemberId, courseId: CourseId, rating: Option<int>, comment: Option<string>, now: int)
      returns (r: ReviewResponse)
      requires Valid()
      modifies this
      ensures Valid()
      ensures !RatingAccepted(rating) <==> r == ReviewRefused(400, "Rating must be between 1 and 5")
      ensures RatingAccepted(rating) && Played(utilization, memberId, courseId) <==> r.ReviewSaved?
      ensures RatingAccepted(rating) && !Played(utilization, memberId, courseId)
              <==> r == ReviewRefused(403, "You must play this course before leaving a review")
      ensures r.ReviewRefused? ==> reviews == old(reviews)
      ensures r.ReviewSaved? ==>
                && r.review == Review(rating.value, StoredComment(comment), now)
                && reviews == old(reviews)[(memberId, courseId) := r.review]
      ensures members == old(members) && courses == old(courses)
      ensures utilization == old(utilization) && preferences == old(preferences)
    {
      if !RatingAccepted(rating) {
        return ReviewRefused(400, "Rating must be between 1 and 5");
      }
      if !Played(utilization, memberId, courseId) {
        return ReviewRefused(403, "You must play this course before leaving a review");
      }
      var review := Review(rating.value, StoredComment(comment), now);
      reviews := reviews[(memberId, courseId) := review];
      r := ReviewSaved(review);
    }

    // ----- preferences -----

    /** `PUT /api/members/:id/preferences`: 404 for an unknown member,
        otherwise the upsert. */
    method UpsertPreferences(id: MemberId, u: PreferencesUpdate, now: int) returns (r: PreferencesResponse)
      requires Valid()
      modifies this
      ensures Valid()
      ensures id !in members <==> r == PreferencesRefused(404, "Member not found")
      ensures id !in members ==> preferences == old(preferences)
      ensures id in members ==>
                && r == PreferencesSaved(MergePreferences(if id in old(preferences) then Some(old(preferences)[id]) else None, u, now))
                && preferences == old(preferences)[id := r.row]
      ensures members == old(members) && courses == old(courses)
      ensures utilization == old(utilization) && reviews == old(reviews)
    {
      if id !in members {
        return PreferencesRefused(404, "Member not found");
      }
      var prev := if id in preferences then Some(preferences[id]) else None;
      var row := MergePreferences(prev, u, now);
      preferences := preferences[id := row];
      r := PreferencesSaved(row);
    }

    /** `GET /api/members/:id/preferences/onboarding-status`. Every row is
        written by the upsert, which stamps the timestamp, so onboarding is
        complete exactly for the members who have saved preferences. */
    function OnboardingStatus(id: MemberId): (completed: bool)
      requires Valid()
      reads this, log
      ensures completed <==> id in preferences
    {
      OnboardingCompleted(preferences, id)
    }

    // ----- notifications -----

    /** `scan` lists every preference row once, in the order the database
        returns unordered rows. */
    ghost predicate ScanOrder(scan: seq<MemberId>)
      reads this
    {
      && (forall i, j :: 0 <= i < j < |scan| ==> scan[i] != scan[j])
      && (forall id :: id in scan <==> id in preferences)
    }

    /** `member_preferences` in scan order. */
    function PreferenceRows(scan: seq<MemberId>): (rows: seq<Preferences>)
      reads this
      ensures forall p :: p in rows ==> exists id :: id in scan && id in preferences && preferences[id] == p
      ensures forall i :: 0 <= i < |scan| && scan[i] in preferences ==> preferences[scan[i]] in rows
    {
      if scan == [] then []
      else
        var n := |scan| - 1;
        PreferenceRows(scan[..n]) + (if scan[n] in preferences then [preferences[scan[n]]] else [])
    }

    /** `member_preferences ⋈ members ⋈ health_plans ⋈ plan_tiers` in scan
        order. */
    function JoinedRows(scan: seq<MemberId>): seq<Candidate>
      reads this
    {
      if scan == [] then []
      else
        var n := |scan| - 1;
        var id := scan[n];
        JoinedRows(scan[..n])
        + (if id in preferences && id in members then [Candidate(id, members[id], preferences[id])] else [])
    }

    /** Each joined row pairs a scanned member with their own member and
        preference rows, and every scanned member with both appears. */
    lemma {:induction false} JoinedRowsMembers(scan: seq<MemberId>)
      ensures forall c :: c in JoinedRows(scan) ==>
                && c.memberId in scan && c.memberId in preferences && c.memberId in members
                && c == Candidate(c.memberId, members[c.memberId], preferences[c.memberId])
      ensures forall i :: 0 <= i < |scan| && scan[i] in preferences && scan[i] in members ==>
                Candidate(scan[i], members[scan[i]], preferences[scan[i]]) in JoinedRows(scan)
    {
      if scan != [] {
        var n := |scan| - 1;
        JoinedRowsMembers(scan[..n]);
        assert scan == scan[..n] + [scan[n]];
      }
    }

    /** `POST /api/notifications/broadcast`, as written: the log row is
        inserted as `pending`; `logNotification` returns nothing, so the
        final UPDATE is keyed by an absent id and the row stays pending. */
    method Broadcast(expo: Expo, title: Option<string>, body: Option<string>, data: Data,
                     scan: seq<MemberId>, logStored: bool)
      returns (resp: NotifyResponse, ghost requests: seq<seq<Message>>)
      requires Valid() && ScanOrder(scan)
      modifies log
      ensures Valid()
      ensures !(Given(title) && Given(body)) ==>
                resp == BadRequest("Title and body are required") && requests == [] && log.rows == old(log.rows)
      ensures Given(title) && Given(body) ==>
                var r := Bulk(expo, ReachableTokens(PreferenceRows(scan)), title.value, body.value, data);
                && resp == BatchSent(r.sent, r.failed, None)
                && requests == Requests(expo, ReachableTokens(PreferenceRows(scan)), title.value, body.value, data)
                && log.rows == old(log.rows)
                   + (if logStored then [PendingRow(|old(log.rows)| + 1, "broadcast", title.value, body.value, Untargeted, 0)] else [])
    {
      if !(Given(title) && Given(body)) {
        return BadRequest("Title and body are required"), [];
      }
      var rows := PreferenceRows(scan);
      log.LogNotification("broadcast", title.value, body.value, Untargeted, 0, "pending", 0, 0, logStored);
      var logId: Option<nat> := None;
      var result;
      result, requests := SendToAllMembers(expo, rows, title.value, body.value, data);
      ghost var before := log.rows;
      log.Finalise(logId, Rules.BatchFinalisation(result.sent, result.failed));
      FinaliseWithoutIdChangesNothing(before, Rules.BatchFinalisation(result.sent, result.failed));
      assert rows == PreferenceRows(scan);
      resp := BatchSent(result.sent, result.failed, None);
    }

    /** The broadcast with the insert's id returned and used by the final
        UPDATE: the row the endpoint inserted ends with the totals. */
    method BroadcastRecorded(expo: Expo, title: Option<string>, body: Option<string>, data: Data,
                             scan: seq<MemberId>, logStored: bool)
      returns (resp: NotifyResponse, ghost requests: seq<seq<Message>>)
      requires Valid() && ScanOrder(scan)
      modifies log
      ensures Valid()
      ensures !(Given(title) && Given(body)) ==>
                resp == BadRequest("Title and body are required") && requests == [] && log.rows == old(log.rows)
      ensures Given(title) && Given(body) ==>
                var r := Bulk(expo, ReachableTokens(PreferenceRows(scan)), title.value, body.value, data);
                && resp == BatchSent(r.sent, r.failed, None)
                && requests == Requests(expo, ReachableTokens(PreferenceRows(scan)), title.value, body.value, data)
                && log.rows == old(log.rows)
                   + (if logStored
                      then [Apply(PendingRow(|old(log.rows)| + 1, "broadcast", title.value, body.value, Untargeted, 0),
                                  Rules.BatchFinalisation(r.sent, r.failed))]
                      else [])
    {
      if !(Given(title) && Given(body)) {
        return BadRequest("Title and body are required"), [];
      }
      var rows := PreferenceRows(scan);
      var logId := log.RecordNotification("broadcast", title.value, body.value, Untargeted, 0, "pending", 0, 0, logStored);
      var result;
      result, requests := SendToAllMembers(expo, rows, title.value, body.value, data);
      ghost var before := log.rows;
      log.Finalise(logId, Rules.BatchFinalisation(result.sent, result.failed));
      FinaliseLast(before, logId, logStored, Rules.BatchFinalisation(result.sent, result.failed));
      assert rows == PreferenceRows(scan);
      resp := BatchSent(result.sent, result.failed, None);
    }

    /** `POST /api/notifications/targeted`, as written: 400 without title,
        body or criteria; otherwise a pending log row, the targeted send
        and an UPDATE that reaches no row. */
    method Targeted(expo: Expo, title: Option<string>, body: Option<string>, criteria: Option<Criteria>, data: Data,
                    scan: seq<MemberId>, now: int, monthStart: int, logStored: bool)
      returns (resp: NotifyResponse, ghost requests: seq<seq<Message>>)
      requires Valid() && ScanOrder(scan)
      modifies log
      ensures Valid()
      ensures !(Given(title) && Given(body) && criteria.Some?) ==>
                resp == BadRequest("Title, body, and criteria are required") && requests == [] && log.rows == old(log.rows)
      ensures Given(title) && Given(body) && criteria.Some? ==>
                var tokens := TargetedTokens(criteria.value, Env(utilization, now, monthStart), JoinedRows(scan));
                var r := Bulk(expo, tokens, title.value, body.value, data);
                && resp == BatchSent(r.sent, r.failed, criteria)
                && requests == Requests(expo, tokens, title.value, body.value, data)
                && log.rows == old(log.rows)
                   + (if logStored then [PendingRow(|old(log.rows)| + 1, "targeted", title.value, body.value, ByCriteria(criteria.value), 0)] else [])
    {
      if !(Given(title) && Given(body) && criteria.Some?) {
        return BadRequest("Title, body, and criteria are required"), [];
      }
      var env := Env(utilization, now, monthStart);
      var rows := JoinedRows(scan);
      log.LogNotification("targeted", title.value, body.value, ByCriteria(criteria.value), 0, "pending", 0, 0, logStored);
      var logId: Option<nat> := None;
      var result;
      result, requests := SendByCriteria(expo, criteria.value, env, rows, title.value, body.value, data);
      ghost var before := log.rows;
      log.Finalise(logId, Rules.BatchFinalisation(result.sent, result.failed));
      FinaliseWithoutIdChangesNothing(before, Rules.BatchFinalisation(result.sent, result.failed));
      assert env == Env(utilization, now, monthStart) && rows == JoinedRows(scan);
      resp := BatchSent(result.sent, result.failed, criteria);
    }

    /** `POST /api/notifications/member/:memberId`, as written: a pending
        row counting one recipient, the single send, and an UPDATE that
        reaches no row. */
    method Individual(expo: Expo, memberId: MemberId, title: Option<string>, body: Option<string>, data: Data,
                      logStored: bool)
      returns (resp: NotifyResponse, ghost requests: seq<seq<Message>>)
      requires Valid()
      modifies log
      ensures Valid()
      ensures !(Given(title) && Given(body)) ==>
                resp == BadRequest("Title and body are required") && requests == [] && log.rows == old(log.rows)
      ensures Given(title) && Given(body) ==>
                && resp == IndividualSent(SendToMember(expo, preferences, memberId, title.value, body.value, data))
                && requests == MemberRequests(expo, preferences, memberId, title.value, body.value, data)
                && log.rows == old(log.rows)
                   + (if logStored then [PendingRow(|old(log.rows)| + 1, "individual", title.value, body.value, ForMember(memberId), 1)] else [])
    {
      if !(Given(title) && Given(body)) {
        return BadRequest("Title and body are required"), [];
      }
      log.LogNotification("individual", title.value, body.value, ForMember(memberId), 1, "pending", 0, 0, logStored);
      var logId: Option<nat> := None;
      var result := SendToMember(expo, preferences, memberId, title.value, body.value, data);
      requests := MemberRequests(expo, preferences, memberId, title.value, body.value, data);
      ghost var before := log.rows;
      log.Finalise(logId, Rules.IndividualFinalisation(result.Success()));
      FinaliseWithoutIdChangesNothing(before, Rules.IndividualFinalisation(result.Success()));
      resp := IndividualSent(result);
    }
  }

  /** Appending a row keeps every earlier (member, course) pair played. */
  lemma PlayedKept(records: seq<Utilization>, row: Utilization)
    ensures forall m, c :: Played(records, m, c) ==> Played(records + [row], m, c)
  {
    forall m, c | Played(records, m, c)
      ensures Played(records + [row], m, c)
    {
      var i :| 0 <= i < |records| && records[i].memberId == m && records[i].courseId == c;
      assert (records + [row])[i] == records[i];
    }
  }

  /** Finalising by the id of the row just inserted settles that row and
      leaves the earlier ones alone. */
  lemma FinaliseLast(rows: seq<LogRow>, id: Option<nat>, stored: bool, f: Finalisation)
    requires SerialIds(rows)
    requires stored ==> |rows| >= 1 && id == Some(|rows|)
    requires !stored ==> id == None
    ensures FinaliseRows(rows, id, f)
            == if stored then rows[..|rows| - 1] + [Apply(rows[|rows| - 1], f)] else rows
  {
    if stored {
      var n := |rows|;
      FinaliseWithIdSettles(rows, n, f);
      assert forall i :: 0 <= i < n - 1 ==> rows[i].id != n;
    } else {
      FinaliseWithoutIdChangesNothing(rows, f);
    }
  }
}
