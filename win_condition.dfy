/** Level objectives and their recursive completion check
    (game/win_condition.rs). */
module WinConditions {
  import opened Core

  datatype WinCondition =
    | ReachGoal(position: Vec2, radius: real)
    | DefeatAllEnemies
    | SurviveTime(duration: real)
    | CollectItems(required: nat)
    | DefeatBoss(bossId: Option<string>)
    | Compound(conditions: seq<WinCondition>)
    | Any(conditions: seq<WinCondition>)

  /** A progress or objective text. Texts that only interpolate integers are
      kept as strings; the ones that format an `f32` keep the number, because
      Rust's float formatting is not modelled. */
  datatype Message =
    | Text(text: string)
    | DistanceToGoal(meters: real)
    | TimeRemaining(seconds: real)
    | SurviveFor(seconds: real)

  datatype WinProgress =
    | NotStarted
    | InProgress(current: real, target: real, description: Message)
    | Complete

  /** The facts about the running level that a condition is checked against. */
  datatype Status = Status(playerPos: Vec2, enemyCount: nat, timeElapsed: real,
                           itemsCollected: nat, bossDefeated: bool)

  /** `WinCondition::get_description`. */
  function GetDescription(c: WinCondition): (m: Message)
    ensures c.SurviveTime? <==> m.SurviveFor?
    ensures c.SurviveTime? ==> m.seconds == c.duration
    ensures m.Text? ==> |m.text| > 0
  {
    match c
    case ReachGoal(_, _) => Text("Reach the goal")
    case DefeatAllEnemies => Text("Defeat all enemies")
    case SurviveTime(d) => SurviveFor(d)
    case CollectItems(n) => Text("Collect " + NatToString(n) + " items")
    case DefeatBoss(_) => Text("Defeat the boss")
    case Compound(cs) => Text("Complete " + NatToString(|cs|) + " objectives")
    case Any(cs) => Text("Complete any 1 of " + NatToString(|cs|) + " objectives")
  }

  /** The number of sub-objectives can be read back from a Compound objective's
      description: the digits between "Complete " and " objectives". */
  lemma {:induction false} CompoundDescriptionCount(cs: seq<WinCondition>)
    ensures GetDescription(Compound(cs)).Text?
    ensures var t := GetDescription(Compound(cs)).text;
            |t| > 20 && t[..9] == "Complete " && t[|t| - 11..] == " objectives" &&
            (forall i :: 9 <= i < |t| - 11 ==> '0' <= t[i] <= '9') &&
            DigitsValue(t[9..|t| - 11]) == |cs|
  {
    var digits := NatToString(|cs|);
    var t := "Complete " + digits + " objectives";
    assert t[9..|t| - 11] == digits;
    NatToStringRoundTrip(|cs|);
  }

  /** The number of `true` entries. */
  function CountTrue(bs: seq<bool>): (n: nat)
    ensures n <= |bs|
    ensures n == |bs| <==> forall i :: 0 <= i < |bs| ==> bs[i]
    ensures n == 0 <==> forall i :: 0 <= i < |bs| ==> !bs[i]
  {
    if bs == [] then 0 else CountTrue(bs[..|bs| - 1]) + (if bs[|bs| - 1] then 1 else 0)
  }

  /** `WinCondition::check_completion`. The Euclidean `length` of glam is the
      parameter `length`; the result pairs the completion flag with the
      progress report. Compound counts its completed sub-objectives; Any stops
      at the first complete one. */
  function CheckCompletion(c: WinCondition, st: Status, length: Vec2 -> real): (r: (bool, WinProgress))
    ensures r.0 <==> r.1.Complete?
    ensures !r.0 ==> r.1.InProgress?
    ensures c.ReachGoal? ==> (r.0 <==> length(st.playerPos.Sub(c.position)) <= c.radius)
    ensures c.DefeatAllEnemies? ==> (r.0 <==> st.enemyCount == 0)
    ensures c.SurviveTime? ==> (r.0 <==> st.timeElapsed >= c.duration)
    ensures c.CollectItems? ==> (r.0 <==> st.itemsCollected >= c.required)
    ensures c.DefeatBoss? ==> (r.0 <==> st.bossDefeated)
    ensures c.Compound? && !r.0 ==> 0.0 <= r.1.current < r.1.target == |c.conditions| as real
    ensures c.Any? && !r.0 ==> r.1 == InProgress(0.0, 1.0, Text("Complete any objective"))
    decreases c
  {
    match c
    case ReachGoal(position, radius) =>
      var distance := length(st.playerPos.Sub(position));
      if distance <= radius then (true, Complete)
      else (false, InProgress(Max(radius - distance, 0.0), radius, DistanceToGoal(distance / 40.0)))
    case DefeatAllEnemies =>
      if st.enemyCount == 0 then (true, Complete)
      else (false, InProgress(0.0, st.enemyCount as real,
                              Text(NatToString(st.enemyCount) + " enemies remaining")))
    case SurviveTime(duration) =>
      if st.timeElapsed >= duration then (true, Complete)
      else (false, InProgress(st.timeElapsed, duration, TimeRemaining(duration - st.timeElapsed)))
    case CollectItems(required) =>
      if st.itemsCollected >= required then (true, Complete)
      else (false, InProgress(st.itemsCollected as real, required as real,
                              Text(NatToString(st.itemsCollected) + "/" + NatToString(required) + " items collected")))
    case DefeatBoss(_) =>
      if st.bossDefeated then (true, Complete)
      else (false, InProgress(0.0, 1.0, Text("Boss still alive")))
    case Compound(cs) =>
      var done := seq(|cs|, i requires 0 <= i < |cs| => CheckCompletion(cs[i], st, length).0);
      var completed := CountTrue(done);
      if completed == |cs| then (true, Complete)
      else (false, InProgress(completed as real, |cs| as real,
                              Text(NatToString(completed) + "/" + NatToString(|cs|) + " objectives complete")))
    case Any(cs) =>
      var done := seq(|cs|, i requires 0 <= i < |cs| => CheckCompletion(cs[i], st, length).0);
      if CountTrue(done) > 0 then (true, Complete)
      else (false, InProgress(0.0, 1.0, Text("Complete any objective")))
  }

  /** Whether a condition is met. */
  predicate IsComplete(c: WinCondition, st: Status, length: Vec2 -> real)
  {
    CheckCompletion(c, st, length).0
  }

  /** Compound is complete exactly when every sub-objective is (so an empty
      Compound is complete at once), and reports how many are. */
  lemma {:induction false} CompoundMeansAll(cs: seq<WinCondition>, st: Status, length: Vec2 -> real)
    ensures IsComplete(Compound(cs), st, length) <==> forall i :: 0 <= i < |cs| ==> IsComplete(cs[i], st, length)
    ensures !IsComplete(Compound(cs), st, length) ==>
      CheckCompletion(Compound(cs), st, length).1.current ==
        CountTrue(seq(|cs|, i requires 0 <= i < |cs| => IsComplete(cs[i], st, length))) as real
  {
    var done := seq(|cs|, i requires 0 <= i < |cs| => CheckCompletion(cs[i], st, length).0);
    assert done == seq(|cs|, i requires 0 <= i < |cs| => IsComplete(cs[i], st, length));
    assert forall i :: 0 <= i < |cs| ==> done[i] == IsComplete(cs[i], st, length);
  }

  /** Any is complete exactly when some sub-objective is (so an empty Any is
      never complete). */
  lemma {:induction false} AnyMeansSome(cs: seq<WinCondition>, st: Status, length: Vec2 -> real)
    ensures IsComplete(Any(cs), st, length) <==> exists i :: 0 <= i < |cs| && IsComplete(cs[i], st, length)
  {
    var done := seq(|cs|, i requires 0 <= i < |cs| => CheckCompletion(cs[i], st, length).0);
    assert forall i :: 0 <= i < |cs| ==> done[i] == IsComplete(cs[i], st, length);
    if IsComplete(Any(cs), st, length) {
      var i :| 0 <= i < |done| && done[i];
      assert IsComplete(cs[i], st, length);
    }
  }

  /** Compound distributes over concatenation as a conjunction and Any as a
      disjunction. */
  lemma {:induction false} ConcatenatedObjectives(a: seq<WinCondition>, b: seq<WinCondition>, st: Status, length: Vec2 -> real)
    ensures IsComplete(Compound(a + b), st, length) <==> IsComplete(Compound(a), st, length) && IsComplete(Compound(b), st, length)
    ensures IsComplete(Any(a + b), st, length) <==> IsComplete(Any(a), st, length) || IsComplete(Any(b), st, length)
  {
    CompoundMeansAll(a, st, length);
    CompoundMeansAll(b, st, length);
    CompoundMeansAll(a + b, st, length);
    AnyMeansSome(a, st, length);
    AnyMeansSome(b, st, length);
    AnyMeansSome(a + b, st, length);
    if IsComplete(Compound(a), st, length) && IsComplete(Compound(b), st, length) {
      forall i | 0 <= i < |a + b| ensures IsComplete((a + b)[i], st, length) {
        if i < |a| { assert (a + b)[i] == a[i]; } else { assert (a + b)[i] == b[i - |a|]; }
      }
    }
    if IsComplete(Compound(a + b), st, length) {
      forall i | 0 <= i < |a| ensures IsComplete(a[i], st, length) { assert (a + b)[i] == a[i]; }
      forall i | 0 <= i < |b| ensures IsComplete(b[i], st, length) { assert (a + b)[|a| + i] == b[i]; }
    }
    if IsComplete(Any(a + b), st, length) {
      var i :| 0 <= i < |a + b| && IsComplete((a + b)[i], st, length);
      if i < |a| { assert (a + b)[i] == a[i]; } else { assert (a + b)[i] == b[i - |a|]; }
    }
    if IsComplete(Any(a), st, length) {
      var i :| 0 <= i < |a| && IsComplete(a[i], st, length);
      assert (a + b)[i] == a[i];
    }
    if IsComplete(Any(b), st, length) {
      var i :| 0 <= i < |b| && IsComplete(b[i], st, length);
      assert (a + b)[|a| + i] == b[i];
    }
  }

  /** Objectives built only from time, item and boss goals never become
      incomplete again as time passes, items are collected and the boss falls. */
  predicate Monotone(c: WinCondition)
  {
    match c
    case SurviveTime(_) => true
    case CollectItems(_) => true
    case DefeatBoss(_) => true
    case Compound(cs) => forall i :: 0 <= i < |cs| ==> Monotone(cs[i])
    case Any(cs) => forall i :: 0 <= i < |cs| ==> Monotone(cs[i])
    case _ => false
  }

  predicate Later(s1: Status, s2: Status)
  {
    s1.timeElapsed <= s2.timeElapsed && s1.itemsCollected <= s2.itemsCollected &&
    (s1.bossDefeated ==> s2.bossDefeated)
  }

  lemma {:induction false} CompletionIsMonotone(c: WinCondition, s1: Status, s2: Status, length: Vec2 -> real)
    requires Monotone(c) && Later(s1, s2)
    requires IsComplete(c, s1, length)
    ensures IsComplete(c, s2, length)
    decreases c
  {
    match c
    case Compound(cs) =>
      CompoundMeansAll(cs, s1, length);
      CompoundMeansAll(cs, s2, length);
      forall i | 0 <= i < |cs| ensures IsComplete(cs[i], s2, length) {
        CompletionIsMonotone(cs[i], s1, s2, length);
      }
    case Any(cs) =>
      AnyMeansSome(cs, s1, length);
      AnyMeansSome(cs, s2, length);
      var i :| 0 <= i < |cs| && IsComplete(cs[i], s1, length);
      CompletionIsMonotone(cs[i], s1, s2, length);
    case SurviveTime(_) =>
    case CollectItems(_) =>
    case DefeatBoss(_) =>
  }
}
