/** Criteria-based targeting of `sendByCriteria`: the criteria object,
    the WHERE clause the handler builds from it (as a list of conjuncts
    with `$n` placeholders and a parameter list), what that clause
    selects, and the reference meaning of each filter. */
module Targeting {
  import opened Wrappers
  import opened Tables

  /** The criteria object; every filter is optional. */
  datatype Criteria = Criteria(
    tier: Option<string>,
    skillLevel: Option<string>,
    playFrequency: Option<string>,
    inactiveDays: Option<int>,
    activeDays: Option<int>,
    hasRoundsRemaining: Option<bool>,
    goals: Option<seq<string>>)

  const NoCriteria: Criteria := Criteria(None, None, None, None, None, None, None)

  /** JavaScript truthiness of the optional fields. */
  predicate Truthy(s: Option<string>) { s.Some? && s.value != "" }
  predicate TruthyDays(d: Option<int>) { d.Some? && d.value != 0 }
  predicate TruthyFlag(b: Option<bool>) { b == Some(true) }
  predicate HasGoals(g: Option<seq<string>>) { g.Some? && |g.value| > 0 }

  /** `INTERVAL 'n days'`, with timestamps in seconds. */
  const SecondsPerDay: int := 86400

  /** A row of member_preferences ⋈ members ⋈ health_plans ⋈ plan_tiers. */
  datatype Candidate = Candidate(memberId: MemberId, member: Member, prefs: Preferences)

  /** What the subqueries read: the utilisation table, `NOW()` and
      `DATE_TRUNC('month', NOW())`. */
  datatype Env = Env(records: seq<Utilization>, now: int, monthStart: int)

  /** The base predicate: a push token and notifications switched on. */
  predicate Reachable(p: Preferences) {
    p.pushToken.Some? && p.notificationsEnabled == Some(true)
  }

  /** The array operator `&&` of PostgreSQL: the two arrays share an element. */
  predicate Overlaps(a: seq<string>, b: seq<string>) {
    exists i :: 0 <= i < |a| && a[i] in b
  }

  /** The reference meaning of the criteria: every filter that is present
      constrains the row, every absent one does not. */
  predicate Matches(c: Criteria, env: Env, row: Candidate) {
    && (Truthy(c.tier) ==> row.member.tier == c.tier.value)
    && (Truthy(c.skillLevel) ==> row.prefs.skillLevel == c.skillLevel)
    && (Truthy(c.playFrequency) ==> row.prefs.playFrequency == c.playFrequency)
    && (TruthyDays(c.inactiveDays) ==>
          !PlayedSince(env.records, row.memberId, env.now - c.inactiveDays.value * SecondsPerDay))
    && (TruthyDays(c.activeDays) ==>
          PlayedSince(env.records, row.memberId, env.now - c.activeDays.value * SecondsPerDay))
    && (TruthyFlag(c.hasRoundsRemaining) ==>
          row.member.monthlyRounds - RoundsUsed(env.records, row.memberId, env.monthStart) > 0)
    && (HasGoals(c.goals) ==> row.prefs.goals.Some? && Overlaps(row.prefs.goals.value, c.goals.value))
  }

  /** `c2` applies every filter `c1` applies, with the same value, and
      possibly more. */
  predicate Narrows(c2: Criteria, c1: Criteria) {
    && (Truthy(c1.tier) ==> c2.tier == c1.tier)
    && (Truthy(c1.skillLevel) ==> c2.skillLevel == c1.skillLevel)
    && (Truthy(c1.playFrequency) ==> c2.playFrequency == c1.playFrequency)
    && (TruthyDays(c1.inactiveDays) ==> c2.inactiveDays == c1.inactiveDays)
    && (TruthyDays(c1.activeDays) ==> c2.activeDays == c1.activeDays)
    && (TruthyFlag(c1.hasRoundsRemaining) ==> TruthyFlag(c2.hasRoundsRemaining))
    && (HasGoals(c1.goals) ==> c2.goals == c1.goals)
  }

  /** Adding filters can only exclude more rows; no criteria at all
      constrain nothing. */
  lemma NarrowingExcludesMore(c2: Criteria, c1: Criteria, env: Env, row: Candidate)
    requires Narrows(c2, c1)
    ensures Matches(c2, env, row) ==> Matches(c1, env, row)
    ensures Narrows(c2, NoCriteria) && Matches(NoCriteria, env, row)
  {
  }

  // ---------------------------------------------------------------
  // The query the handler builds
  // ---------------------------------------------------------------

  /** A bound parameter: a string or a string array. */
  datatype Param = Text(text: string) | TextArray(items: seq<string>)

  /** One `AND ...` conjunct appended to the WHERE clause. The `slot` is
      the number n of its `$n` placeholder. */
  datatype Clause =
    | TierIs(slot: nat)                 // pt.name = $n
    | SkillLevelIs(slot: nat)           // mp.skill_level = $n
    | PlayFrequencyIs(slot: nat)        // mp.play_frequency = $n
    | NoCheckInWithin(days: int)        // m.id NOT IN (... >= NOW() - INTERVAL 'd days')
    | CheckInWithin(days: int)          // m.id IN (... >= NOW() - INTERVAL 'd days')
    | RoundsRemain                      // pt.monthly_rounds - (this month's count) > 0
    | GoalsOverlap(slot: nat)           // mp.goals && $n

  /** The WHERE clause as the handler grows it: the base predicate
      (`push_token IS NOT NULL AND notifications_enabled = true`), then
      one `AND` per appended conjunct. */
  datatype Where = Base | And(before: Where, clause: Clause)

  predicate HasSlot(cl: Clause) {
    cl.TierIs? || cl.SkillLevelIs? || cl.PlayFrequencyIs? || cl.GoalsOverlap?
  }

  /** The placeholders of a WHERE clause, in the order they appear. */
  function Slots(w: Where): seq<nat> {
    match w
    case Base => []
    case And(before, cl) => Slots(before) + (if HasSlot(cl) then [cl.slot] else [])
  }

  /** [1, 2, ..., k]. */
  function OneTo(k: nat): seq<nat> {
    if k == 0 then [] else OneTo(k - 1) + [k]
  }

  /** Whether one conjunct holds of a row, given the bound parameters. A
      NULL column compares as unknown, so the row is not selected. */
  predicate ClauseHolds(cl: Clause, params: seq<Param>, env: Env, row: Candidate) {
    match cl
    case TierIs(k) =>
      1 <= k <= |params| && params[k - 1].Text? && row.member.tier == params[k - 1].text
    case SkillLevelIs(k) =>
      1 <= k <= |params| && params[k - 1].Text? && row.prefs.skillLevel == Some(params[k - 1].text)
    case PlayFrequencyIs(k) =>
      1 <= k <= |params| && params[k - 1].Text? && row.prefs.playFrequency == Some(params[k - 1].text)
    case NoCheckInWithin(d) =>
      !PlayedSince(env.records, row.memberId, env.now - d * SecondsPerDay)
    case CheckInWithin(d) =>
      PlayedSince(env.records, row.memberId, env.now - d * SecondsPerDay)
    case RoundsRemain =>
      row.member.monthlyRounds - RoundsUsed(env.records, row.memberId, env.monthStart) > 0
    case GoalsOverlap(k) =>
      1 <= k <= |params| && params[k - 1].TextArray?
      && row.prefs.goals.Some? && Overlaps(row.prefs.goals.value, params[k - 1].items)
  }

  /** Whether the WHERE clause selects a row. */
  function Selects(w: Where, params: seq<Param>, env: Env, row: Candidate): (b: bool)
    ensures b ==> Reachable(row.prefs)
  {
    match w
    case Base => Reachable(row.prefs)
    case And(before, cl) => Selects(before, params, env, row) && ClauseHolds(cl, params, env, row)
  }

  /** Every placeholder names one of the first k parameters. */
  predicate SlotsWithin(w: Where, k: nat) {
    match w
    case Base => true
    case And(before, cl) => SlotsWithin(before, k) && (HasSlot(cl) ==> 1 <= cl.slot <= k)
  }

  /** Placeholders numbered $1..$k all name one of the k parameters. */
  lemma SlotsBounded(w: Where, k: nat)
    requires Slots(w) == OneTo(k)
    ensures SlotsWithin(w, k)
  {
    OneToRange(k);
    SlotsInRange(w, k);
  }

  lemma {:induction false} OneToRange(k: nat)
    ensures |OneTo(k)| == k
    ensures forall i :: 0 <= i < k ==> OneTo(k)[i] == i + 1
  {
    if k > 0 { OneToRange(k - 1); }
  }

  lemma {:induction false} SlotsInRange(w: Where, k: nat)
    requires forall s :: s in Slots(w) ==> 1 <= s <= k
    ensures SlotsWithin(w, k)
  {
    match w
    case Base =>
    case And(before, cl) =>
      assert forall s :: s in Slots(before) ==> s in Slots(w);
      SlotsInRange(before, k);
      if HasSlot(cl) { assert cl.slot in Slots(w); }
  }

  lemma {:induction false} SlotsWithinMonotone(w: Where, k: nat, k': nat)
    requires SlotsWithin(w, k) && k <= k'
    ensures SlotsWithin(w, k')
  {
    match w
    case Base =>
    case And(before, _) => SlotsWithinMonotone(before, k, k');
  }

  /** Binding more parameters does not change what a WHERE clause whose
      placeholders are all bound already means. */
  lemma {:induction false} SelectsMoreParams(w: Where, params: seq<Param>, extra: seq<Param>, env: Env, row: Candidate)
    requires SlotsWithin(w, |params|)
    ensures Selects(w, params + extra, env, row) == Selects(w, params, env, row)
  {
    match w
    case Base =>
    case And(before, cl) =>
      SelectsMoreParams(before, params, extra, env, row);
      if HasSlot(cl) {
        assert (params + extra)[cl.slot - 1] == params[cl.slot - 1];
      }
  }

  /** The filters present in `c` among the first `k` the handler tests
      (tier, skill level, play frequency, inactive days, active days,
      rounds remaining, goals); the later ones are dropped. */
  function Upto(c: Criteria, k: nat): (p: Criteria)
    ensures k >= 7 ==> p == c
    ensures k == 0 ==> p == NoCriteria
  {
    Criteria(
      if k >= 1 then c.tier else None,
      if k >= 2 then c.skillLevel else None,
      if k >= 3 then c.playFrequency else None,
      if k >= 4 then c.inactiveDays else None,
      if k >= 5 then c.activeDays else None,
      if k >= 6 then c.hasRoundsRemaining else None,
      if k >= 7 then c.goals else None)
  }

  /** The number of filters that bind a parameter. */
  function ParamCount(c: Criteria): nat {
    (if Truthy(c.tier) then 1 else 0) + (if Truthy(c.skillLevel) then 1 else 0)
    + (if Truthy(c.playFrequency) then 1 else 0) + (if HasGoals(c.goals) then 1 else 0)
  }

  /** What the handler has built after testing the first k filters:
      placeholders $1..$n for the n parameters bound so far, one per
      present filter that binds one, and a WHERE clause selecting
      exactly the reachable rows that satisfy those filters. */
  ghost predicate Built(w: Where, params: seq<Param>, c: Criteria, k: nat) {
    && Slots(w) == OneTo(|params|)
    && |params| == ParamCount(Upto(c, k))
    && forall env: Env, row: Candidate {:trigger Selects(w, params, env, row)} ::
         Selects(w, params, env, row) <==> Reachable(row.prefs) && Matches(Upto(c, k), env, row)
  }

  /** A present filter whose conjunct is appended (binding `extra`). */
  lemma StepWith(w: Where, params: seq<Param>, extra: seq<Param>, cl: Clause, c: Criteria, k: nat)
    requires 1 <= k && Built(w, params, c, k - 1)
    requires HasSlot(cl) ==> |extra| == 1 && cl.slot == |params| + 1
    requires !HasSlot(cl) ==> extra == []
    requires ParamCount(Upto(c, k)) == ParamCount(Upto(c, k - 1)) + |extra|
    requires forall env: Env, row: Candidate ::
               Matches(Upto(c, k), env, row)
               <==> Matches(Upto(c, k - 1), env, row) && ClauseHolds(cl, params + extra, env, row)
    ensures Built(And(w, cl), params + extra, c, k)
  {
    SlotsBounded(w, |params|);
    if HasSlot(cl) {
      assert OneTo(|params + extra|) == OneTo(|params|) + [cl.slot];
    } else {
      assert params + extra == params;
    }
    forall env: Env, row: Candidate
      ensures Selects(And(w, cl), params + extra, env, row) <==> Reachable(row.prefs) && Matches(Upto(c, k), env, row)
    {
      SelectsMoreParams(w, params, extra, env, row);
    }
  }

  /** An absent filter: nothing is appended. */
  lemma StepWithout(w: Where, params: seq<Param>, c: Criteria, k: nat)
    requires 1 <= k && Built(w, params, c, k - 1)
    requires ParamCount(Upto(c, k)) == ParamCount(Upto(c, k - 1))
    requires forall env: Env, row: Candidate :: Matches(Upto(c, k), env, row) <==> Matches(Upto(c, k - 1), env, row)
    ensures Built(w, params, c, k)
  {
  }

  lemma TierStep(w: Where, params: seq<Param>, c: Criteria)
    requires Built(w, params, c, 0)
    ensures Truthy(c.tier) ==> Built(And(w, TierIs(|params| + 1)), params + [Text(c.tier.value)], c, 1)
    ensures !Truthy(c.tier) ==> Built(w, params, c, 1)
  {
    if Truthy(c.tier) { StepWith(w, params, [Text(c.tier.value)], TierIs(|params| + 1), c, 1); }
    else { StepWithout(w, params, c, 1); }
  }

  lemma SkillLevelStep(w: Where, params: seq<Param>, c: Criteria)
    requires Built(w, params, c, 1)
    ensures Truthy(c.skillLevel) ==>
              Built(And(w, SkillLevelIs(|params| + 1)), params + [Text(c.skillLevel.value)], c, 2)
    ensures !Truthy(c.skillLevel) ==> Built(w, params, c, 2)
  {
    if Truthy(c.skillLevel) { StepWith(w, params, [Text(c.skillLevel.value)], SkillLevelIs(|params| + 1), c, 2); }
    else { StepWithout(w, params, c, 2); }
  }

  lemma PlayFrequencyStep(w: Where, params: seq<Param>, c: Criteria)
    requires Built(w, params, c, 2)
    ensures Truthy(c.playFrequency) ==>
              Built(And(w, PlayFrequencyIs(|params| + 1)), params + [Text(c.playFrequency.value)], c, 3)
    ensures !Truthy(c.playFrequency) ==> Built(w, params, c, 3)
  {
    if Truthy(c.playFrequency) { StepWith(w, params, [Text(c.playFrequency.value)], PlayFrequencyIs(|params| + 1), c, 3); }
    else { StepWithout(w, params, c, 3); }
  }

  lemma InactiveDaysStep(w: Where, params: seq<Param>, c: Criteria)
    requires Built(w, params, c, 3)
    ensures TruthyDays(c.inactiveDays) ==> Built(And(w, NoCheckInWithin(c.inactiveDays.value)), params, c, 4)
    ensures !TruthyDays(c.inactiveDays) ==> Built(w, params, c, 4)
  {
    if TruthyDays(c.inactiveDays) {
      assert params + [] == params;
      StepWith(w, params, [], NoCheckInWithin(c.inactiveDays.value), c, 4);
    } else { StepWithout(w, params, c, 4); }
  }

  lemma ActiveDaysStep(w: Where, params: seq<Param>, c: Criteria)
    requires Built(w, params, c, 4)
    ensures TruthyDays(c.activeDays) ==> Built(And(w, CheckInWithin(c.activeDays.value)), params, c, 5)
    ensures !TruthyDays(c.activeDays) ==> Built(w, params, c, 5)
  {
    if TruthyDays(c.activeDays) {
      assert params + [] == params;
      StepWith(w, params, [], CheckInWithin(c.activeDays.value), c, 5);
    } else { StepWithout(w, params, c, 5); }
  }

  lemma RoundsRemainingStep(w: Where, params: seq<Param>, c: Criteria)
    requires Built(w, params, c, 5)
    ensures TruthyFlag(c.hasRoundsRemaining) ==> Built(And(w, RoundsRemain), params, c, 6)
    ensures !TruthyFlag(c.hasRoundsRemaining) ==> Built(w, params, c, 6)
  {
    if TruthyFlag(c.hasRoundsRemaining) {
      assert params + [] == params;
      StepWith(w, params, [], RoundsRemain, c, 6);
    } else { StepWithout(w, params, c, 6); }
  }

  lemma GoalsStep(w: Where, params: seq<Param>, c: Criteria)
    requires Built(w, params, c, 6)
    ensures HasGoals(c.goals) ==>
              Built(And(w, GoalsOverlap(|params| + 1)), params + [TextArray(c.goals.value)], c, 7)
    ensures !HasGoals(c.goals) ==> Built(w, params, c, 7)
  {
    if HasGoals(c.goals) { StepWith(w, params, [TextArray(c.goals.value)], GoalsOverlap(|params| + 1), c, 7); }
    else { StepWithout(w, params, c, 7); }
  }

  /** The WHERE clause of `sendByCriteria`, grown one filter at a time:
      each truthy filter appends one conjunct; tier, skill level, play
      frequency and a non-empty goals list also bind a parameter and take
      the next placeholder number. */
  method BuildCriteriaQuery(c: Criteria) returns (query: Where, params: seq<Param>)
    ensures |params| == ParamCount(c)
    ensures Slots(query) == OneTo(|params|)
    ensures forall env: Env, row: Candidate {:trigger Selects(query, params, env, row)} ::
              Selects(query, params, env, row) <==> Reachable(row.prefs) && Matches(c, env, row)
  {
    query, params := Base, [];
    var paramIndex := 1;
    assert Built(query, params, c, 0);

    TierStep(query, params, c);
    if Truthy(c.tier) {
      query := And(query, TierIs(paramIndex));
      params := params + [Text(c.tier.value)];
      paramIndex := paramIndex + 1;
    }

    SkillLevelStep(query, params, c);
    if Truthy(c.skillLevel) {
      query := And(query, SkillLevelIs(paramIndex));
      params := params + [Text(c.skillLevel.value)];
      paramIndex := paramIndex + 1;
    }

    PlayFrequencyStep(query, params, c);
    if Truthy(c.playFrequency) {
      query := And(query, PlayFrequencyIs(paramIndex));
      params := params + [Text(c.playFrequency.value)];
      paramIndex := paramIndex + 1;
    }

    InactiveDaysStep(query, params, c);
    if TruthyDays(c.inactiveDays) {
      query := And(query, NoCheckInWithin(c.inactiveDays.value));
    }

    ActiveDaysStep(query, params, c);
    if TruthyDays(c.activeDays) {
      query := And(query, CheckInWithin(c.activeDays.value));
    }

    RoundsRemainingStep(query, params, c);
    if TruthyFlag(c.hasRoundsRemaining) {
      query := And(query, RoundsRemain);
    }

    GoalsStep(query, params, c);
    if HasGoals(c.goals) {
      query := And(query, GoalsOverlap(paramIndex));
      params := params + [TextArray(c.goals.value)];
      paramIndex := paramIndex + 1;
    }
  }
}
