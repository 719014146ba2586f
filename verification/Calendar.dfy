// keeper/src/calendar.ts: which session close the week's option type exercises at. A calendar day
// is the number of days since 1 January 1970; the time zone is any function from an instant to its
// offset, so nothing here depends on a table of daylight-saving dates.
module Calendar {
  const DAY: int := 86_400
  const HOUR: int := 3_600
  const FRIDAY: int := 5
  const CLOSE_HOUR_ET: int := 16
  const EXERCISE_WINDOW_SECONDS: int := 86_400
  const VAULT_MIN_LEAD_SECONDS: int := 3_600

  // The longest lead the keeper's configuration accepts.
  const MAX_LEAD_SECONDS: int := 6 * DAY

  // The zone's offset from UTC, in seconds, at each instant.
  type Zone = int -> int

  // Sunday is 0; 1 January 1970 was a Thursday.
  function Weekday(day: int): int { (day + 4) % 7 }

  function LocalDay(zone: Zone, instant: int): int { (instant + zone(instant)) / DAY }

  // The wall clock of a day and an hour, read as if it were UTC.
  function Local(day: int, hour: int): int { day * DAY + hour * HOUR }

  // No zone is a day or more away from UTC.
  ghost predicate Bounded(zone: Zone) {
    forall instant: int :: -DAY < zone(instant) < DAY
  }

  // ---------------------------------------------------------------- a local time as an instant

  function Guess(zone: Zone, local: int, i: nat): int {
    if i == 0 then local else local - zone(Guess(zone, local, i - 1))
  }

  // Leaving the loop early changes nothing: a guess that confirms itself is every later guess.
  lemma {:induction false} ConfirmedGuessStays(zone: Zone, local: int, i: nat, j: nat)
    requires i <= j && Guess(zone, local, i + 1) == Guess(zone, local, i)
    ensures Guess(zone, local, j) == Guess(zone, local, i)
  {
    if i < j {
      ConfirmedGuessStays(zone, local, i, j - 1);
    }
  }

  method NewYorkTimeToUnix(zone: Zone, day: int, hour: int) returns (guess: int)
    ensures guess == Guess(zone, Local(day, hour), 3)
  {
    var local := Local(day, hour);
    guess := local;
    for i := 0 to 3
      invariant guess == Guess(zone, local, i)
    {
      var corrected := local - zone(guess);
      if corrected == guess {
        ConfirmedGuessStays(zone, local, i, 3);
        break;
      }
      guess := corrected;
    }
  }

  // Within a day of the asked wall clock the zone switches at most once, from one offset to another.
  ghost predicate SwitchesOnce(zone: Zone, local: int, switch: int, before: int, after: int) {
    && -DAY < before < DAY && -DAY < after < DAY
    && forall t :: local - DAY <= t <= local + DAY ==> zone(t) == if t < switch then before else after
  }

  // The wall clocks a switch jumps over.
  predicate InGap(local: int, switch: int, before: int, after: int) {
    switch + before <= local < switch + after
  }

  // Three corrections reach an instant that reads the asked wall clock exactly when the switch does not jump over
  // it, which is exactly when some instant does read it; over a gap they miss by the width of the gap.
  lemma ThirdGuessExact(zone: Zone, local: int, switch: int, before: int, after: int)
    requires SwitchesOnce(zone, local, switch, before, after)
    ensures var t := Guess(zone, local, 3);
            && local - DAY <= t <= local + DAY
            && (t + zone(t) == local <==> !InGap(local, switch, before, after))
            && (InGap(local, switch, before, after) ==>
                  t + zone(t) == if local < switch then local + (after - before) else local - (after - before))
    ensures InGap(local, switch, before, after) <==> forall x :: local - DAY <= x <= local + DAY ==> x + zone(x) != local
  {
    var first := Guess(zone, local, 1);
    var second := Guess(zone, local, 2);
    assert Guess(zone, local, 0) == local;
    assert first == local - zone(local) && second == local - zone(first);
    assert Guess(zone, local, 3) == local - zone(second);
    if !InGap(local, switch, before, after) {
      var t := Guess(zone, local, 3);
      assert t + zone(t) == local;
    }
  }

  // New York on the day its clocks go from 2:00 to 3:00, seven hours into the UTC day.
  function SpringForward(day: int): Zone {
    (t: int) => if t < Local(day, 7) then -5 * HOUR else -4 * HOUR
  }

  // Asked for 2:00 on that day, the three corrections answer an instant that reads 3:00.
  lemma SkippedHourMissed(day: int)
    ensures var t := Guess(SpringForward(day), Local(day, 2), 3); t + SpringForward(day)(t) == Local(day, 3)
  {
    ThirdGuessExact(SpringForward(day), Local(day, 2), Local(day, 7), -5 * HOUR, -4 * HOUR);
  }

  // Any hour whose offset holds for the five hours of UTC from it is found exactly, whichever offset between five
  // hours behind UTC and UTC itself that is: the 16:00 close, and the other hours the keeper asks for.
  lemma HourFound(zone: Zone, day: int, hour: int, offset: int)
    requires -5 * HOUR <= offset <= 0
    requires forall t :: Local(day, hour) <= t <= Local(day, hour + 5) ==> zone(t) == offset
    ensures var t := Guess(zone, Local(day, hour), 3); t + zone(t) == Local(day, hour) && t == Local(day, hour) - offset
  {
    var local := Local(day, hour);
    assert Guess(zone, local, 1) == local - offset;
    assert local <= local - offset <= Local(day, hour + 5);
    assert Guess(zone, local, 2) == local - offset;
  }

  // ---------------------------------------------------------------- the session a week closes on

  // The last day on or before `day` that is not listed, at most `steps` days back.
  function CloseOf(closed: set<int>, day: int, steps: nat): int
    decreases steps
  {
    if steps == 0 || day !in closed then day else CloseOf(closed, day - 1, steps - 1)
  }

  // Every day walked over is a listed holiday, and the day reached is open unless all of them were listed.
  lemma {:induction false} WalkBack(closed: set<int>, day: int, steps: nat)
    ensures var close := CloseOf(closed, day, steps);
            && day - steps <= close <= day
            && (forall d :: close < d <= day ==> d in closed)
            && (close in closed <==> forall d :: day - steps <= d <= day ==> d in closed)
    decreases steps
  {
    if steps != 0 && day in closed {
      WalkBack(closed, day - 1, steps - 1);
      var close := CloseOf(closed, day, steps);
      forall d | close < d <= day ensures d in closed {
        assert d == day || d <= day - 1;
      }
      if close in closed {
        forall d | day - steps <= d <= day ensures d in closed {
          assert d == day || d <= day - 1;
        }
      }
    } else {
      assert day - steps <= day <= day;
    }
  }

  function FirstFriday(today: int): int {
    today + (FRIDAY - Weekday(today) + 7) % 7
  }

  lemma FirstFridayIsFirst(today: int, day: int)
    requires today <= day && Weekday(day) == FRIDAY
    ensures Weekday(FirstFriday(today)) == FRIDAY && today <= FirstFriday(today) <= day
    ensures (day - FirstFriday(today)) % 7 == 0
  {
  }

  // When the week named after a Friday exercises.
  function ExerciseOf(zone: Zone, closed: set<int>, friday: int): int {
    Guess(zone, Local(CloseOf(closed, friday, 4), CLOSE_HOUR_ET), 3)
  }

  // The walk back over a holiday Friday, at most four days.
  method LastSession(closed: set<int>, friday: int) returns (close: int)
    ensures close == CloseOf(closed, friday, 4)
  {
    close := friday;
    var steps := 0;
    while close in closed && steps < 4
      invariant 0 <= steps <= 4 && CloseOf(closed, close, 4 - steps) == CloseOf(closed, friday, 4)
    {
      close := close - 1;
      steps := steps + 1;
    }
  }

  datatype WeekWindow = WeekWindow(exerciseTs: int, expiryTs: int, friday: int, closeDay: int, skippedForLead: nat)

  datatype Outcome = Window(week: WeekWindow) | LeadBelowVaultMinimum | NoWindow

  ghost predicate IsNextWindow(w: WeekWindow, zone: Zone, now: int, lead: int, closed: set<int>) {
    var first := FirstFriday(LocalDay(zone, now));
    && w.friday == first + 7 * w.skippedForLead
    && w.closeDay == CloseOf(closed, w.friday, 4)
    && w.exerciseTs == ExerciseOf(zone, closed, w.friday) >= now + lead
    && w.expiryTs == w.exerciseTs + EXERCISE_WINDOW_SECONDS
    && forall k: nat :: k < w.skippedForLead ==> ExerciseOf(zone, closed, first + 7 * k) < now + lead
  }

  method NextWeekWindow(zone: Zone, now: int, lead: int, closed: set<int>) returns (r: Outcome)
    ensures r == LeadBelowVaultMinimum <==> lead < 3_600
    ensures r.Window? ==> IsNextWindow(r.week, zone, now, lead, closed) && r.week.skippedForLead < 4
    ensures r.Window? ==> r.week.friday % 7 == 1 && r.week.exerciseTs >= now + lead && r.week.expiryTs == r.week.exerciseTs + 86_400
    ensures r == NoWindow ==> forall k: nat :: k < 4 ==> ExerciseOf(zone, closed, FirstFriday(LocalDay(zone, now)) + 7 * k) < now + lead
    ensures Bounded(zone) && 3_600 <= lead <= 6 * 86_400 ==> r.Window? && r.week.skippedForLead <= 2
  {
    hide Guess, CloseOf, Bounded, LocalDay, Local;
    if lead < VAULT_MIN_LEAD_SECONDS {
      return LeadBelowVaultMinimum;
    }
    if Bounded(zone) && lead <= MAX_LEAD_SECONDS {
      ThirdFridayFarEnough(zone, now, lead, closed);
    }
    var today := LocalDay(zone, now);
    var daysAhead := (FRIDAY - Weekday(today) + 7) % 7;
    for attempt := 0 to 4
      invariant today + daysAhead == FirstFriday(today) + 7 * attempt
      invariant Bounded(zone) && lead <= MAX_LEAD_SECONDS ==> attempt <= 2
      invariant forall k: nat :: k < attempt ==> ExerciseOf(zone, closed, FirstFriday(today) + 7 * k) < now + lead
    {
      var friday := today + daysAhead;
      var close := LastSession(closed, friday);
      var exerciseTs := NewYorkTimeToUnix(zone, close, CLOSE_HOUR_ET);
      if exerciseTs >= now + lead {
        return Window(WeekWindow(exerciseTs, exerciseTs + EXERCISE_WINDOW_SECONDS, friday, close, attempt));
      }
      daysAhead := daysAhead + 7;
    }
    r := NoWindow;
  }

  // ---------------------------------------------------------------- what the window found means

  lemma ExerciseNearClose(zone: Zone, closed: set<int>, friday: int)
    requires Bounded(zone)
    ensures var local := Local(CloseOf(closed, friday, 4), CLOSE_HOUR_ET);
            local - DAY < ExerciseOf(zone, closed, friday) < local + DAY
  {
    var local := Local(CloseOf(closed, friday, 4), CLOSE_HOUR_ET);
    assert Guess(zone, local, 3) == local - zone(Guess(zone, local, 2));
  }

  // The third Friday from today closes more than six days from now, however many of its days are listed.
  lemma ThirdFridayFarEnough(zone: Zone, now: int, lead: int, closed: set<int>)
    requires Bounded(zone) && lead <= MAX_LEAD_SECONDS
    ensures ExerciseOf(zone, closed, FirstFriday(LocalDay(zone, now)) + 14) >= now + lead
  {
    var today := LocalDay(zone, now);
    var friday := FirstFriday(today) + 14;
    ExerciseNearClose(zone, closed, friday);
    WalkBack(closed, friday, 4);
    assert now + zone(now) < (today + 1) * DAY;
    assert today + 10 <= CloseOf(closed, friday, 4);
  }

  // The week named is one of a Friday from today on; the session it closes on is that week's last open
  // day, and is a holiday itself exactly when the calendar lists the whole of Monday to Friday.
  lemma WindowSession(w: WeekWindow, zone: Zone, now: int, lead: int, closed: set<int>)
    requires IsNextWindow(w, zone, now, lead, closed)
    ensures Weekday(w.friday) == FRIDAY && LocalDay(zone, now) <= w.friday
    ensures w.friday - 4 <= w.closeDay <= w.friday
    ensures forall d :: w.closeDay < d <= w.friday ==> d in closed
    ensures w.closeDay in closed <==> forall d :: w.friday - 4 <= d <= w.friday ==> d in closed
  {
    WalkBack(closed, w.friday, 4);
    var today := LocalDay(zone, now);
    FirstFridayIsFirst(today, today + (FRIDAY - Weekday(today) + 7) % 7);
  }

  // In plain numbers, 1 January 1970 being day 0 and a Thursday: the day named is a Friday from the local day of
  // `now` on, its exercise is at least the lead away, and no Friday between has one that is.
  lemma WindowNamesFriday(w: WeekWindow, zone: Zone, now: int, lead: int, closed: set<int>, today: int)
    requires IsNextWindow(w, zone, now, lead, closed) && today * 86_400 <= now + zone(now) < (today + 1) * 86_400
    ensures w.friday % 7 == 1 && today <= w.friday
    ensures w.exerciseTs >= now + lead && w.expiryTs == w.exerciseTs + 86_400
    ensures forall d :: d % 7 == 1 && today <= d < w.friday ==> ExerciseOf(zone, closed, d) < now + lead
  {
    WindowSession(w, zone, now, lead, closed);
    assert LocalDay(zone, now) == today;
    forall d | d % 7 == 1 && today <= d < w.friday ensures ExerciseOf(zone, closed, d) < now + lead {
      if ExerciseOf(zone, closed, d) >= now + lead {
        WindowIsEarliest(w, zone, now, lead, closed, d);
        assert false;
      }
    }
  }

  // The session a Friday's week exercises on closes 57 600 seconds, sixteen hours, into its local day, whichever
  // day the walk back reaches, as long as one offset holds there from then for five hours of UTC.
  lemma ExerciseReadsFour(zone: Zone, closed: set<int>, friday: int, close: int, offset: int)
    requires friday - 4 <= close <= friday && (forall d :: close < d <= friday ==> d in closed)
    requires close !in closed || close == friday - 4
    requires -18_000 <= offset <= 0
    requires forall t :: close * 86_400 + 57_600 <= t <= close * 86_400 + 75_600 ==> zone(t) == offset
    ensures var t := ExerciseOf(zone, closed, friday); t + zone(t) == close * 86_400 + 57_600
  {
    WalkBack(closed, friday, 4);
    assert CloseOf(closed, friday, 4) == close;
    HourFound(zone, close, 16, offset);
  }

  // No Friday from today on with a close far enough away comes before the one chosen.
  lemma WindowIsEarliest(w: WeekWindow, zone: Zone, now: int, lead: int, closed: set<int>, friday: int)
    requires IsNextWindow(w, zone, now, lead, closed)
    requires Weekday(friday) == FRIDAY && LocalDay(zone, now) <= friday
    requires ExerciseOf(zone, closed, friday) >= now + lead
    ensures w.friday <= friday
  {
    var today := LocalDay(zone, now);
    FirstFridayIsFirst(today, friday);
    var k := (friday - FirstFriday(today)) / 7;
    assert friday == FirstFriday(today) + 7 * k;
  }

  // Two weeks never share a close, and a later week closes later.
  lemma ClosesInOrder(zone: Zone, closed: set<int>, friday: int, later: int)
    requires Bounded(zone) && friday + 7 <= later
    ensures ExerciseOf(zone, closed, friday) < ExerciseOf(zone, closed, later)
    ensures CloseOf(closed, friday, 4) < CloseOf(closed, later, 4)
  {
    WalkBack(closed, friday, 4);
    WalkBack(closed, later, 4);
    ExerciseNearClose(zone, closed, friday);
    ExerciseNearClose(zone, closed, later);
  }
}
