/** The trading day a report is for, and the deadline that goes with it. Which days are trading days
    is arbitrary. */
module ReportDay {
  import opened TimeUnits

  const MARKET_OPEN := 9 * HOUR + 30 * MINUTE
  const LOOK_AHEAD := 10

  /** The first day a report made at `now` may be for. */
  function FirstCandidate(now: int): int { if TimeOfDay(now) < MARKET_OPEN then Day(now) else Day(now) + 1 }

  /** 09:00 on the report day. */
  function Deadline(day: int): int { day * DAY + 9 * HOUR }

  /** `day` is the first trading day from `from` on. */
  ghost predicate IsNext(trading: int -> bool, from: int, day: int) {
    from <= day && trading(day) && forall d :: from <= d < day ==> !trading(d)
  }

  /** When one of the ten days from the candidate on is a trading day, the first such day; otherwise the day after
      those ten, whatever it is. */
  ghost predicate Picks(trading: int -> bool, now: int, day: int) {
    var from := FirstCandidate(now);
    && from <= day <= from + LOOK_AHEAD
    && (forall d :: from <= d < day ==> !trading(d))
    && (day < from + LOOK_AHEAD ==> trading(day))
  }

  method NextTradingDay(trading: int -> bool, now: int) returns (day: int)
    ensures Picks(trading, now, day)
  {
    var today := now / DAY;
    day := if now < today * DAY + MARKET_OPEN then today else today + 1;
    var i := 0;
    while i < 10
      invariant 0 <= i <= 10 && day == FirstCandidate(now) + i
      invariant forall d :: FirstCandidate(now) <= d < day ==> !trading(d)
    {
      if trading(day) { return; }
      day := day + 1;
      i := i + 1;
    }
  }

  /** The day picked is the next trading day exactly when there is one among the ten days looked up and the day
      after them, which is returned without a look. */
  lemma {:induction false} PicksTheNext(trading: int -> bool, now: int, day: int)
    requires Picks(trading, now, day)
    ensures IsNext(trading, FirstCandidate(now), day)
            <==> exists d :: FirstCandidate(now) <= d <= FirstCandidate(now) + LOOK_AHEAD && trading(d)
    ensures forall other :: Picks(trading, now, other) ==> other == day
  {
  }

  /** The deadline drawn from the report day lies ahead except on a trading day between 09:00 and the opening:
      a run started then finds its deadline already passed. */
  lemma {:induction false} DeadlineAhead(trading: int -> bool, now: int, day: int)
    requires Picks(trading, now, day)
    ensures now < Deadline(day) <==> !(trading(Day(now)) && 9 * HOUR <= TimeOfDay(now) < MARKET_OPEN)
  {
  }

  /** Ten days without trading, and a day that is not a trading day is picked. */
  lemma {:induction false} HolidayPicked()
    ensures Picks(_ => false, 0, 10)
  {
  }

  /** A start at 09:15 of a trading day picks that day, whose deadline was a quarter of an hour ago. */
  lemma {:induction false} MorningStartIsLate()
    ensures var now := 9 * HOUR + 15 * MINUTE; Picks(_ => true, now, 0) && Deadline(0) == now - 15 * MINUTE
  {
  }
}
