/** Misfire handling and previews over any schedule, and when the search for the next time ends. */
module Schedule {
  import opened RunTypes
  import Calendar

  /** Go's zero time, 1 January of year 1, from which instants are counted here. */
  const ZERO: Time := 0

  /** schedule.Next for one expression: an error, or the next time, where the zero time says that there is none. */
  type NextTime = Time -> Result<Time>

  function Present(t: Time): (r: Option<Time>)
    ensures r.Some? ==> r.value == t != ZERO
  {
    if t == ZERO then None else Some(t)
  }

  function Ask(next: NextTime, t: Time): Result<Option<Time>> {
    var u :- next(t);
    Ok(Present(u))
  }

  /** The misfire loop does not go on from the zero time either. */
  function After(next: NextTime, t: Time): Result<Option<Time>> {
    if t == ZERO then Ok(None) else Ask(next, t)
  }

  ghost predicate Advances(next: NextTime) {
    forall t, u :: Ask(next, t) == Ok(Some(u)) ==> t < u
  }

  datatype Handling = SkipMissed | FireOnceNow | CatchUpMissed | Unsupported

  // ------------------------------------------------------- when the search ends

  /** The i-th time of the schedule, counting t as the 0-th. */
  ghost function Orbit(next: NextTime, t: Time, i: nat): Option<Time>
    decreases i
  {
    if i == 0 then Some(t)
    else if After(next, t).Ok? && After(next, t).value.Some? then Orbit(next, After(next, t).value.value, i - 1)
    else None
  }

  /** The search from t fails, runs out of times or passes now within n steps. */
  ghost predicate EndsWithin(next: NextTime, t: Time, now: Time, n: nat)
    decreases n
  {
    || t > now || After(next, t).Err? || After(next, t).value.None?
    || (n > 0 && EndsWithin(next, After(next, t).value.value, now, n - 1))
  }

  ghost predicate Ends(next: NextTime, t: Time, now: Time) {
    exists n: nat :: EndsWithin(next, t, now, n)
  }

  ghost predicate IsSteps(next: NextTime, t: Time, now: Time, n: nat) {
    EndsWithin(next, t, now, n) && forall k: nat :: k < n ==> !EndsWithin(next, t, now, k)
  }

  lemma {:induction false} FewestSteps(next: NextTime, t: Time, now: Time, n: nat) returns (m: nat)
    requires EndsWithin(next, t, now, n)
    ensures IsSteps(next, t, now, m)
  {
    if k: nat :| k < n && EndsWithin(next, t, now, k) {
      m := FewestSteps(next, t, now, k);
    } else {
      m := n;
    }
  }

  /** How many steps the search takes. */
  ghost function Steps(next: NextTime, t: Time, now: Time): nat
    requires Ends(next, t, now)
  {
    assert exists m: nat :: IsSteps(next, t, now, m) by {
      var n: nat :| EndsWithin(next, t, now, n);
      var m := FewestSteps(next, t, now, n);
    }
    var m: nat :| IsSteps(next, t, now, m);
    m
  }

  lemma StepsDrop(next: NextTime, t: Time, now: Time)
    requires Ends(next, t, now) && t <= now && After(next, t).Ok? && After(next, t).value.Some?
    ensures Ends(next, After(next, t).value.value, now)
    ensures Steps(next, After(next, t).value.value, now) < Steps(next, t, now)
  {
    var n := Steps(next, t, now);
    assert IsSteps(next, t, now, n) && EndsWithin(next, After(next, t).value.value, now, n - 1);
    assert IsSteps(next, After(next, t).value.value, now, Steps(next, After(next, t).value.value, now));
  }

  /** A schedule that moves forward always ends the search. */
  lemma {:induction false} AdvancingEnds(next: NextTime, t: Time, now: Time)
    requires Advances(next)
    ensures Ends(next, t, now)
    decreases now - t
  {
    if t <= now && After(next, t).Ok? && After(next, t).value.Some? {
      var u := After(next, t).value.value;
      AdvancingEnds(next, u, now);
      var n: nat :| EndsWithin(next, u, now, n);
      assert EndsWithin(next, t, now, n + 1);
    } else {
      assert EndsWithin(next, t, now, 0);
    }
  }

  /** At the i-th time there is none, or it is after now. */
  ghost predicate LeavesAt(next: NextTime, t: Time, now: Time, i: nat) {
    Orbit(next, t, i).None? || Orbit(next, t, i).value > now
  }

  lemma {:induction false} EndingLeaves(next: NextTime, t: Time, now: Time, n: nat) returns (i: nat)
    requires EndsWithin(next, t, now, n)
    ensures LeavesAt(next, t, now, i)
    decreases n
  {
    if t > now {
      i := 0;
    } else if After(next, t).Err? || After(next, t).value.None? {
      i := 1;
    } else {
      i := EndingLeaves(next, After(next, t).value.value, now, n - 1);
      i := i + 1;
    }
  }

  lemma {:induction false} LeavingEnds(next: NextTime, t: Time, now: Time, i: nat)
    requires LeavesAt(next, t, now, i)
    ensures EndsWithin(next, t, now, i)
    decreases i
  {
    if i > 0 && After(next, t).Ok? && After(next, t).value.Some? {
      LeavingEnds(next, After(next, t).value.value, now, i - 1);
    }
  }

  /** The search ends exactly when some time of the schedule is missing or after now. */
  lemma EndsExactly(next: NextTime, t: Time, now: Time)
    ensures Ends(next, t, now) <==> exists i: nat :: LeavesAt(next, t, now, i)
  {
    if n: nat :| EndsWithin(next, t, now, n) { var i := EndingLeaves(next, t, now, n); }
    if i: nat :| LeavesAt(next, t, now, i) { LeavingEnds(next, t, now, i); }
  }

  // ------------------------------------------------------------- the passed times

  /** The times of the schedule from t on, up to now: t, After(next, t), next(After(next, t)), ... */
  ghost function Passed(next: NextTime, t: Time, now: Time): Result<seq<Time>>
    requires Ends(next, t, now)
    decreases Steps(next, t, now)
  {
    if t > now then Ok([])
    else
      var n :- After(next, t);
      if n.None? then Ok([t])
      else
        StepsDrop(next, t, now);
        var rest :- Passed(next, n.value, now);
        Ok([t] + rest)
  }

  /** The first of those times that is after now, if there is one. */
  ghost function FirstAfter(next: NextTime, t: Time, now: Time): Result<Option<Time>>
    requires Ends(next, t, now)
    decreases Steps(next, t, now)
  {
    if t > now then Ok(Some(t))
    else
      var n :- After(next, t);
      if n.None? then Ok(None)
      else
        StepsDrop(next, t, now);
        FirstAfter(next, n.value, now)
  }

  lemma {:induction false} PassedAscends(next: NextTime, t: Time, now: Time)
    requires Advances(next) && Ends(next, t, now) && Passed(next, t, now).Ok?
    ensures var p := Passed(next, t, now).value;
            && (forall i :: 0 <= i < |p| ==> t <= p[i] <= now)
            && (forall i, k :: 0 <= i < k < |p| ==> p[i] < p[k])
            && (t <= now ==> |p| > 0 && p[0] == t)
    decreases Steps(next, t, now)
  {
    if t <= now && After(next, t).value.Some? {
      StepsDrop(next, t, now);
      PassedAscends(next, After(next, t).value.value, now);
    }
  }

  lemma {:induction false} FirstAfterIsAfter(next: NextTime, t: Time, now: Time)
    requires Ends(next, t, now) && FirstAfter(next, t, now).Ok?
    ensures var f := FirstAfter(next, t, now).value; f.Some? ==> f.value > now
    decreases Steps(next, t, now)
  {
    if t <= now && After(next, t).value.Some? {
      StepsDrop(next, t, now);
      FirstAfterIsAfter(next, After(next, t).value.value, now);
    }
  }

  /** The passed times are the orbit up to now, and the first time after is the one that follows them. */
  lemma {:induction false} PassedIsOrbit(next: NextTime, t: Time, now: Time)
    requires Ends(next, t, now) && Passed(next, t, now).Ok?
    ensures var p := Passed(next, t, now).value;
            && (forall i :: 0 <= i < |p| ==> Orbit(next, t, i) == Some(p[i]))
            && FirstAfter(next, t, now) == Ok(Orbit(next, t, |p|))
    decreases Steps(next, t, now)
  {
    if t <= now && After(next, t).value.Some? {
      var u := After(next, t).value.value;
      StepsDrop(next, t, now);
      PassedIsOrbit(next, u, now);
      var p := Passed(next, t, now).value;
      forall i | 0 < i < |p| ensures Orbit(next, t, i) == Some(p[i]) {
        assert Orbit(next, t, i) == Orbit(next, u, i - 1);
      }
    }
  }

  function Take<T>(s: seq<T>, n: nat): seq<T> {
    if |s| <= n then s else s[..n]
  }

  const LATE: Time := 2 * SECOND

  function Limit(maxCatchUp: int): (r: nat)
    ensures r > 0
  {
    if maxCatchUp < 1 then 10 else maxCatchUp
  }

  /** What each policy makes of the passed times. */
  ghost function DueOf(policy: Handling, passed: seq<Time>, firstDue: Time, now: Time, maxCatchUp: int): seq<Time> {
    match policy
    case SkipMissed => if now - firstDue > LATE then [] else [firstDue]
    case FireOnceNow => if now - firstDue > LATE then [now] else [firstDue]
    case _ => Take(passed, Limit(maxCatchUp))
  }

  /** What the policies make of a due time: later than two seconds it is missed, and ten are caught up by default. */
  lemma MisfiresExactly(passed: seq<Time>, firstDue: Time, now: Time, maxCatchUp: int)
    ensures DueOf(SkipMissed, passed, firstDue, now, maxCatchUp)
            == if now - firstDue > 2_000_000_000 then [] else [firstDue]
    ensures DueOf(FireOnceNow, passed, firstDue, now, maxCatchUp)
            == if now - firstDue > 2_000_000_000 then [now] else [firstDue]
    ensures var due := DueOf(CatchUpMissed, passed, firstDue, now, maxCatchUp);
            var limit := if maxCatchUp < 1 then 10 else maxCatchUp;
            due <= passed && |due| == (if |passed| < limit then |passed| else limit)
  {
  }

  /**
   Due, for every schedule but a fixed delay. The next time is the same for all
   policies: the first of the schedule's times after now. Catching up fires the times
   that passed, oldest first, up to the limit. Where the search does not end, the
   loop does not either.
   */
  method Due(next: NextTime, policy: Handling, firstDue: Time, now: Time, maxCatchUp: int)
    returns (r: Result<(seq<Time>, Option<Time>)>)
    requires firstDue <= now && !policy.Unsupported? ==> Ends(next, firstDue, now)
    ensures firstDue > now ==> r == Ok(([], Present(firstDue)))
    ensures firstDue <= now && policy.Unsupported? ==> r.Err?
    ensures firstDue <= now && !policy.Unsupported? ==>
              match FirstAfter(next, firstDue, now)
              case Err(e) => r == Err(e)
              case Ok(f) => Passed(next, firstDue, now).Ok?
                            && r == Ok((DueOf(policy, Passed(next, firstDue, now).value, firstDue, now, maxCatchUp), f))
  {
    if firstDue > now {
      return Ok(([], Present(firstDue)));
    }
    var due, misfired := [firstDue], now - firstDue > LATE;
    var limit := Limit(maxCatchUp);
    if misfired && policy.SkipMissed? {
      due := [];
    } else if misfired && policy.FireOnceNow? {
      due := [now];
    } else if policy.Unsupported? {
      return Err(InvalidSchedule);
    }
    hide Passed, FirstAfter, Take, Ends, Steps;
    var current, catching := Present(firstDue), policy.CatchUpMissed?;
    ghost var seen: seq<Time> := if firstDue == ZERO then [firstDue] else [];
    TakeFirst(firstDue, limit);
    WalkedStart(next, firstDue, now);
    while current.Some? && current.value <= now
      invariant Walked(next, seen, current, firstDue, now) && current != Some(ZERO)
      invariant due == if catching then Take(seen + Shown(current, now), limit)
                       else DueOf(policy, [], firstDue, now, maxCatchUp)
      decreases Left(next, current, now)
    {
      PassedStep(next, current.value, now);
      var answer := Ask(next, current.value);
      if answer.Err? {
        return Err(answer.error);
      }
      WalkedStep(next, seen, current.value, firstDue, now);
      seen := seen + [current.value];
      TakeMore(seen, Shown(answer.value, now), limit);
      current := answer.value;
      if catching && current.Some? && current.value <= now && |due| < limit {
        due := due + [current.value];
      }
    }
    WalkedOver(next, seen, current, firstDue, now);
    assert seen + Shown(current, now) == seen;
    r := Ok((due, current));
  }

  /** One step of both the passed times and the first time after. */
  lemma PassedStep(next: NextTime, t: Time, now: Time)
    requires Ends(next, t, now) && t <= now
    ensures After(next, t).Err? ==>
              Passed(next, t, now) == Err(After(next, t).error) && FirstAfter(next, t, now) == Err(After(next, t).error)
    ensures After(next, t) == Ok(None) ==> Passed(next, t, now) == Ok([t]) && FirstAfter(next, t, now) == Ok(None)
    ensures After(next, t).Ok? && After(next, t).value.Some? ==>
              var u := After(next, t).value.value;
              && Ends(next, u, now) && Steps(next, u, now) < Steps(next, t, now)
              && FirstAfter(next, t, now) == FirstAfter(next, u, now)
              && (Passed(next, u, now).Ok? ==> Passed(next, t, now) == Ok([t] + Passed(next, u, now).value))
              && (Passed(next, u, now).Err? ==> Passed(next, t, now) == Err(Passed(next, u, now).error))
  {
    if After(next, t).Ok? && After(next, t).value.Some? { StepsDrop(next, t, now); }
  }

  /** The steps the loop has still to make. */
  ghost function Left(next: NextTime, current: Option<Time>, now: Time): nat {
    if current.Some? && Ends(next, current.value, now) then Steps(next, current.value, now) + 1 else 0
  }

  /** The loop has seen some of the passed times; the rest follow from the current one. */
  ghost predicate Walked(next: NextTime, seen: seq<Time>, current: Option<Time>, firstDue: Time, now: Time)
    requires Ends(next, firstDue, now)
  {
    match current
    case None => FirstAfter(next, firstDue, now) == Ok(None) && Passed(next, firstDue, now) == Ok(seen)
    case Some(t) =>
      && Ends(next, t, now)
      && FirstAfter(next, firstDue, now) == FirstAfter(next, t, now)
      && (Passed(next, t, now).Ok? ==> Passed(next, firstDue, now) == Ok(seen + Passed(next, t, now).value))
      && (Passed(next, t, now).Err? ==> Passed(next, firstDue, now) == Err(Passed(next, t, now).error))
  }

  lemma WalkedStart(next: NextTime, firstDue: Time, now: Time)
    requires Ends(next, firstDue, now) && firstDue <= now
    ensures Walked(next, if firstDue == ZERO then [firstDue] else [], Present(firstDue), firstDue, now)
  {
    if firstDue == ZERO {
      PassedStep(next, firstDue, now);
    } else {
      hide Passed;
      var p := Passed(next, firstDue, now);
      if p.Ok? { assert [] + p.value == p.value; }
    }
  }

  lemma WalkedStep(next: NextTime, seen: seq<Time>, t: Time, firstDue: Time, now: Time)
    requires Ends(next, firstDue, now) && t <= now && After(next, t).Ok? && Walked(next, seen, Some(t), firstDue, now)
    ensures Walked(next, seen + [t], After(next, t).value, firstDue, now)
  {
    hide Passed, FirstAfter;
    PassedStep(next, t, now);
    if After(next, t).value.Some? && Passed(next, After(next, t).value.value, now).Ok? {
      var rest := Passed(next, After(next, t).value.value, now).value;
      assert seen + ([t] + rest) == (seen + [t]) + rest;
    }
  }

  lemma WalkedOver(next: NextTime, seen: seq<Time>, current: Option<Time>, firstDue: Time, now: Time)
    requires Ends(next, firstDue, now) && Walked(next, seen, current, firstDue, now)
    requires !(current.Some? && current.value <= now)
    ensures FirstAfter(next, firstDue, now) == Ok(current) && Passed(next, firstDue, now) == Ok(seen)
  {
    if current.Some? { assert seen + [] == seen; }
  }

  lemma TakeFirst(t: Time, n: nat)
    requires n > 0
    ensures Take([t], n) == [t]
  {
  }

  /** The current time, once it is known to have passed. */
  function Shown(current: Option<Time>, now: Time): seq<Time> {
    if current.Some? && current.value <= now then [current.value] else []
  }

  lemma TakeMore<T>(s: seq<T>, more: seq<T>, n: nat)
    requires |more| <= 1
    ensures Take(s + more, n) == if |Take(s, n)| < n then Take(s, n) + more else Take(s, n)
  {
  }

  /** The first `count` times of the schedule after a cursor. */
  ghost function Following(next: NextTime, after: Time, count: nat): Result<seq<Time>>
    decreases count
  {
    if count == 0 then Ok([])
    else
      var n :- Ask(next, after);
      if n.None? then Ok([])
      else
        var rest :- Following(next, n.value, count - 1);
        Ok([n.value] + rest)
  }

  lemma {:induction false} FollowingAscends(next: NextTime, after: Time, count: nat)
    requires Advances(next) && Following(next, after, count).Ok?
    ensures var f := Following(next, after, count).value;
            |f| <= count && (forall i :: 0 <= i < |f| ==> after < f[i])
              && (forall i, k :: 0 <= i < k < |f| ==> f[i] < f[k])
    decreases count
  {
    if count > 0 && Ask(next, after).value.Some? {
      FollowingAscends(next, Ask(next, after).value.value, count - 1);
    }
  }

  /** Preview: the following times, as many as asked for unless the schedule ends. */
  method Preview(next: NextTime, after: Time, count: int) returns (r: Result<seq<Time>>)
    ensures !(1 <= count <= 100) ==> r.Err?
    ensures 1 <= count <= 100 ==> r == Following(next, after, count)
  {
    if count < 1 || count > 100 {
      return Err(InvalidSchedule);
    }
    var result: seq<Time>, cursor, n := [], after, 0;
    while n < count
      invariant 0 <= n <= count
      invariant Following(next, cursor, count - n).Ok? == Following(next, after, count).Ok?
      invariant Following(next, after, count).Ok? ==>
                  Following(next, after, count).value == result + Following(next, cursor, count - n).value
      invariant Following(next, after, count).Err? ==>
                  Following(next, cursor, count - n).error == Following(next, after, count).error
    {
      var answer := Ask(next, cursor);
      if answer.Err? {
        return Err(answer.error);
      }
      if answer.value.None? {
        assert result + [] == result;
        return Ok(result);
      }
      result := result + [answer.value.value];
      cursor := answer.value.value;
      n := n + 1;
    }
    assert result + [] == result;
    r := Ok(result);
  }

  // --------------------------------------------------------------- fixed schedules

  /** schedule.Next of a fixed interval, rate or delay: the duration is an int64 of nanoseconds. */
  function FixedNext(seconds: int, after: Time): Result<Time> {
    if seconds < 1 then Err(InvalidSchedule) else Ok(after + Duration(seconds))
  }

  function Fixed(seconds: int): NextTime {
    t => FixedNext(seconds, t)
  }

  /** A fixed schedule moves forward, as far as it answers, exactly when its duration is positive. */
  lemma FixedAdvances(seconds: int)
    requires seconds >= 1
    ensures Advances(Fixed(seconds)) <==> Duration(seconds) > 0
  {
    var t := 1 - Duration(seconds);
    assert Ask(Fixed(seconds), t) == Ok(Some(1));
  }

  /** Going backwards, the schedule meets the zero time: a whole number of its steps after it. */
  predicate MeetsZero(d: Time, t: Time) {
    d < 0 && t > ZERO && (t - ZERO) % -d == 0
  }

  lemma StepBack(x: int, d: int)
    requires d > 0
    ensures (x - d) % d == x % d
  {
    var q, r := x / d, x % d;
    assert x - d == d * (q - 1) + r;
    RemainderIs(x - d, d, q - 1, r);
  }

  lemma RemainderIs(x: int, d: int, q: int, r: int)
    requires d > 0 && 0 <= r < d && x == d * q + r
    ensures x % d == r
  {
    Calendar.QuotientIs(x, d, q, r);
  }

  lemma MeetsNext(d: Time, t: Time)
    requires d < 0 && t != ZERO && t + d != ZERO
    ensures MeetsZero(d, t + d) <==> MeetsZero(d, t)
  {
    StepBack(t - ZERO, -d);
    if ZERO < t < ZERO - d {
      RemainderIs(t - ZERO, -d, 0, t - ZERO);
    }
  }

  /** A schedule that neither moves forward nor meets the zero time: all its times exist and none is after now. */
  lemma {:induction false} FixedNeverPasses(seconds: int, first: Time, now: Time, i: nat)
    requires seconds >= 1 && Duration(seconds) <= 0 && ZERO != first <= now && !MeetsZero(Duration(seconds), first)
    ensures Orbit(Fixed(seconds), first, i).Some? && Orbit(Fixed(seconds), first, i).value <= now
    decreases i
  {
    var d := Duration(seconds);
    if i > 0 {
      assert first + d != ZERO by {
        if first + d == ZERO { RemainderIs(first - ZERO, -d, 1, 0); }
      }
      if d < 0 { MeetsNext(d, first); }
      FixedNeverPasses(seconds, first + d, now, i - 1);
    }
  }

  /** One that meets the zero time stops there. */
  lemma {:induction false} FixedMeetsZero(seconds: int, first: Time, now: Time)
    requires seconds >= 1 && MeetsZero(Duration(seconds), first) && first <= now
    ensures Ends(Fixed(seconds), first, now) && FirstAfter(Fixed(seconds), first, now) == Ok(None)
    decreases first - ZERO
  {
    var next, d := Fixed(seconds), Duration(seconds);
    var u := first + d;
    if u == ZERO {
      assert After(next, first) == Ok(None) && EndsWithin(next, first, now, 0);
    } else {
      MeetsNext(d, first);
      FixedMeetsZero(seconds, u, now);
      assert After(next, first) == Ok(Some(u));
      var n: nat :| EndsWithin(next, u, now, n);
      assert EndsWithin(next, first, now, n + 1);
    }
  }

  /**
   So the misfire loop of a fixed schedule that is due ends if and only if it moves forward,
   or starts at the zero time or meets it on its way back.
   */
  lemma FixedSearchEndsExactly(seconds: int, first: Time, now: Time)
    requires seconds >= 1 && first <= now
    ensures Ends(Fixed(seconds), first, now)
            <==> Duration(seconds) > 0 || first == ZERO || MeetsZero(Duration(seconds), first)
  {
    if Duration(seconds) > 0 {
      FixedAdvances(seconds);
      AdvancingEnds(Fixed(seconds), first, now);
    } else if first == ZERO {
      assert EndsWithin(Fixed(seconds), first, now, 0);
    } else if MeetsZero(Duration(seconds), first) {
      FixedMeetsZero(seconds, first, now);
    } else {
      EndsExactly(Fixed(seconds), first, now);
      forall i: nat ensures !LeavesAt(Fixed(seconds), first, now, i) {
        FixedNeverPasses(seconds, first, now, i);
      }
    }
  }

  lemma FixedAdvancesWithoutOverflow(seconds: int)
    requires 1 <= seconds <= 9_223_372_036
    ensures Duration(seconds) == seconds * SECOND > 0
  {
  }

  /** One second more and the schedule goes backwards; far longer ones creep forwards, stand still or step back. */
  lemma FixedOverflows()
    ensures Duration(9_223_372_037) < 0
    ensures Duration(18_446_744_074) == 290_448_384
    ensures Duration(36_028_797_018_963_968) == 0
    ensures Duration(36_028_797_018_963_456) == -512 * SECOND
  {
  }

  /** No single step from an instant after the year 293 meets the zero time: a duration spans less than that. */
  lemma OneStepIsNotZero(seconds: int, after: Time)
    requires seconds >= 1 && after > ZERO + TWO63
    ensures Ask(Fixed(seconds), after) == Ok(Some(after + Duration(seconds)))
  {
  }
}
