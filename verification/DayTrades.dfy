// Pattern-day-trader guard
// (services/autonomy-orchestrator/src/autonomy_orchestrator/day_trade_tracker.py).
//
// Days are ordinal numbers; day 1 is a Monday.

/** Rolling windows of business days. */
module BusinessDays {

  /** 0 is Monday, 6 is Sunday. */
  function Weekday(d: int): int { (d + 6) % 7 }

  predicate Business(d: int) { Weekday(d) < 5 }

  /** Business days in `[first, last)`. */
  function BusinessBetween(first: int, last: int): nat
    requires first <= last
    decreases last - first
  {
    if first == last then 0 else BusinessBetween(first, last - 1) + if Business(last - 1) then 1 else 0
  }

  /** What it means for `d` to be one of the `sessions` latest business days ending on `today`;
      today itself always counts, even on a weekend. */
  predicate InWindow(d: int, today: int, sessions: int) {
    d == today || (d < today && Business(d) && BusinessBetween(d, today) < sessions)
  }

  lemma {:induction false} BetweenSplit(a: int, b: int, c: int)
    requires a <= b <= c
    ensures BusinessBetween(a, c) == BusinessBetween(a, b) + BusinessBetween(b, c)
    decreases c - b
  {
    if b < c {
      BetweenSplit(a, b, c - 1);
    }
  }

  lemma OneDay(d: int)
    ensures BusinessBetween(d, d + 1) == if Business(d) then 1 else 0
  {
    assert BusinessBetween(d, d) == 0;
  }

  /** Later windows are nested on past days: a day still in a later window was in every
      window between then and now. */
  lemma WindowNested(d: int, earlier: int, later: int, sessions: int)
    requires d <= earlier <= later && InWindow(d, later, sessions)
    ensures InWindow(d, earlier, sessions)
  {
    if d < earlier {
      BetweenSplit(d, earlier, later);
    }
  }

  lemma WiderWindow(d: int, today: int, narrow: int, wide: int)
    requires narrow <= wide && InWindow(d, today, narrow)
    ensures InWindow(d, today, wide)
  {
  }

  ghost predicate Collected(dates: set<int>, cursor: int, today: int) {
    forall d :: d in dates <==> d == today || (cursor < d < today && Business(d))
  }

  lemma WindowComplete(dates: set<int>, cursor: int, today: int, sessions: int)
    requires cursor < today && Collected(dates, cursor, today)
    requires sessions <= 1 ==> cursor == today - 1
    requires sessions > 1 ==> 1 + BusinessBetween(cursor + 1, today) == sessions
    ensures forall d :: d in dates <==> InWindow(d, today, sessions)
  {
    forall d | d < today && Business(d) ensures d > cursor <==> BusinessBetween(d, today) < sessions {
      OneDay(d);
      BetweenSplit(d, d + 1, today);
      if d > cursor {
        BetweenSplit(cursor + 1, d, today);
      } else {
        BetweenSplit(d + 1, cursor + 1, today);
      }
    }
  }

  /** One more day looked at. */
  lemma CollectStep(dates: set<int>, cursor: int, today: int)
    requires cursor < today && Collected(dates, cursor, today)
    ensures var next := if Business(cursor) then dates + {cursor} else dates;
            && Collected(next, cursor - 1, today)
            && |next| == |dates| + (if Business(cursor) then 1 else 0)
            && BusinessBetween(cursor, today) == BusinessBetween(cursor + 1, today) + (if Business(cursor) then 1 else 0)
    ensures !Business(cursor) ==> Business(cursor - 1) || Weekday(cursor - 1) < Weekday(cursor)
  {
    OneDay(cursor);
    BetweenSplit(cursor, cursor + 1, today);
    assert cursor !in dates;
  }

  /** Walk back from today collecting weekdays until there are enough. */
  method BusinessWindow(today: int, sessions: int) returns (dates: set<int>)
    ensures forall d :: d in dates <==> InWindow(d, today, sessions)
    ensures |dates| == if sessions <= 1 then 1 else sessions
  {
    dates := {today};
    var cursor := today - 1;
    while |dates| < sessions
      invariant cursor < today && Collected(dates, cursor, today)
      invariant |dates| == 1 + BusinessBetween(cursor + 1, today)
      invariant sessions <= 1 ==> cursor == today - 1
      invariant sessions > 1 ==> |dates| <= sessions
      decreases sessions - |dates|, if Business(cursor) then 0 else Weekday(cursor)
    {
      CollectStep(dates, cursor, today);
      if Business(cursor) {
        dates := dates + {cursor};
      }
      cursor := cursor - 1;
    }
    WindowComplete(dates, cursor, today, sessions);
  }

  // ------------------------------------------------------------------
  // Five sessions, day by day
  // ------------------------------------------------------------------

  /** The latest five sessions ending on `today`, weekdays counted back from it; day 1 was a Monday. */
  function FiveDays(today: int): set<int> {
    match today % 7
    case 1 => {today, today - 3, today - 4, today - 5, today - 6}
    case 2 => {today, today - 1, today - 4, today - 5, today - 6}
    case 3 => {today, today - 1, today - 2, today - 5, today - 6}
    case 4 => {today, today - 1, today - 2, today - 3, today - 6}
    case 0 => {today, today - 2, today - 3, today - 4, today - 5}
    case _ => {today, today - 1, today - 2, today - 3, today - 4}
  }

  lemma BetweenFirst(first: int, last: int)
    requires first < last
    ensures BusinessBetween(first, last) == BusinessBetween(first + 1, last) + if Business(first) then 1 else 0
  {
    OneDay(first);
    BetweenSplit(first, first + 1, last);
  }

  /** Days of the week repeat: what `today` is decides what each of the last seven days was. */
  lemma DayBefore(today: int, j: int)
    requires 0 <= j <= 7
    ensures Business(today - j) <==> Weekdays(today % 7, j)
  {
  }

  /** Whether the day `j` before a day of residue `r` was a weekday. */
  predicate Weekdays(r: int, j: int) { (r + 7 - j) % 7 != 6 && (r + 7 - j) % 7 != 0 }

  /** Weekdays among the `j` days before. */
  function WeekdaysBack(r: int, j: nat): nat {
    if j == 0 then 0 else WeekdaysBack(r, j - 1) + if Weekdays(r, j) then 1 else 0
  }

  lemma {:induction false} BetweenIsBack(today: int, j: nat)
    requires j <= 7
    ensures BusinessBetween(today - j, today) == WeekdaysBack(today % 7, j)
  {
    if j > 0 {
      BetweenIsBack(today, j - 1);
      DayBefore(today, j);
      BetweenFirst(today - j, today);
    }
  }

  /** How far back the four weekdays before a day of residue `r` are. */
  function FourBack(r: int): set<int> {
    if r == 1 then {3, 4, 5, 6} else if r == 2 then {1, 4, 5, 6} else if r == 3 then {1, 2, 5, 6}
    else if r == 4 then {1, 2, 3, 6} else if r == 0 then {2, 3, 4, 5} else {1, 2, 3, 4}
  }

  lemma BackTable(r: int)
    requires 0 <= r < 7
    ensures WeekdaysBack(r, 7) == 5
    ensures forall j :: j in {1, 2, 3, 4, 5, 6} ==> (Weekdays(r, j) && WeekdaysBack(r, j) < 5 <==> j in FourBack(r))
  {
    assert WeekdaysBack(r, 1) == if Weekdays(r, 1) then 1 else 0;
    assert WeekdaysBack(r, 2) == WeekdaysBack(r, 1) + if Weekdays(r, 2) then 1 else 0;
    assert WeekdaysBack(r, 3) == WeekdaysBack(r, 2) + if Weekdays(r, 3) then 1 else 0;
    assert WeekdaysBack(r, 4) == WeekdaysBack(r, 3) + if Weekdays(r, 4) then 1 else 0;
    assert WeekdaysBack(r, 5) == WeekdaysBack(r, 4) + if Weekdays(r, 5) then 1 else 0;
    assert WeekdaysBack(r, 6) == WeekdaysBack(r, 5) + if Weekdays(r, 6) then 1 else 0;
    assert WeekdaysBack(r, 7) == WeekdaysBack(r, 6) + if Weekdays(r, 7) then 1 else 0;
    assert r == 0 || r == 1 || r == 2 || r == 3 || r == 4 || r == 5 || r == 6;
  }

  lemma FiveDaysBack(today: int, j: nat)
    requires 1 <= j
    ensures today - j in FiveDays(today) <==> j in FourBack(today % 7)
  {
  }

  lemma WindowIsFiveDays(d: int, today: int)
    ensures InWindow(d, today, 5) <==> d in FiveDays(today)
  {
    var r, j := today % 7, today - d;
    BackTable(r);
    if j >= 7 {
      BetweenIsBack(today, 7);
      BetweenSplit(d, today - 7, today);
      FiveDaysBack(today, j);
    } else if j >= 1 {
      assert j in {1, 2, 3, 4, 5, 6};
      BetweenIsBack(today, j);
      DayBefore(today, j);
      FiveDaysBack(today, j);
    }
  }

  /** The window of five sessions on a Monday, a Tuesday, and so on to a Sunday: the day itself and the four
      weekdays before it. */
  lemma WeekOfWindows(k: int, d: int)
    ensures InWindow(d, 7 * k + 1, 5) <==> d in {7 * k + 1, 7 * k - 2, 7 * k - 3, 7 * k - 4, 7 * k - 5}
    ensures InWindow(d, 7 * k + 2, 5) <==> d in {7 * k + 2, 7 * k + 1, 7 * k - 2, 7 * k - 3, 7 * k - 4}
    ensures InWindow(d, 7 * k + 3, 5) <==> d in {7 * k + 3, 7 * k + 2, 7 * k + 1, 7 * k - 2, 7 * k - 3}
    ensures InWindow(d, 7 * k + 4, 5) <==> d in {7 * k + 4, 7 * k + 3, 7 * k + 2, 7 * k + 1, 7 * k - 2}
    ensures InWindow(d, 7 * k + 5, 5) <==> d in {7 * k + 5, 7 * k + 4, 7 * k + 3, 7 * k + 2, 7 * k + 1}
    ensures InWindow(d, 7 * k + 6, 5) <==> d in {7 * k + 6, 7 * k + 5, 7 * k + 4, 7 * k + 3, 7 * k + 2}
    ensures InWindow(d, 7 * k + 7, 5) <==> d in {7 * k + 7, 7 * k + 5, 7 * k + 4, 7 * k + 3, 7 * k + 2}
  {
    WindowIsFiveDays(d, 7 * k + 1);
    WindowIsFiveDays(d, 7 * k + 2);
    WindowIsFiveDays(d, 7 * k + 3);
    WindowIsFiveDays(d, 7 * k + 4);
    WindowIsFiveDays(d, 7 * k + 5);
    WindowIsFiveDays(d, 7 * k + 6);
    WindowIsFiveDays(d, 7 * k + 7);
  }
}

module DayTrades {
  import opened Common
  import opened Counts
  import opened BusinessDays
  import Text

  const ROLLING_SESSIONS := 5

  datatype Settings = Settings(enabled: bool, equityThreshold: real, maxDayTrades: int)

  datatype Decision = Decision(allowed: bool, reason: string, used: int, remaining: int, openToday: int)

  /** `openOn`: session each open position was entered; `trades`: day trades closed per session. */
  datatype Tracker = Tracker(openOn: map<string, int>, trades: map<int, nat>)

  const EMPTY := Tracker(map[], map[])

  function WindowTerm(trades: map<int, nat>, today: int): int -> int {
    (d: int) => if d in trades && InWindow(d, today, ROLLING_SESSIONS) then trades[d] else 0
  }

  /** Day trades inside the rolling window ending today. */
  ghost function Used(trades: map<int, nat>, today: int): int { Total(trades.Keys, WindowTerm(trades, today)) }

  function Recording(trades: map<int, nat>): int -> int { (d: int) => if d in trades then trades[d] else 0 }

  /** Day trades recorded on the latest five sessions. */
  ghost function FiveDayCount(trades: map<int, nat>, today: int): int { Total(FiveDays(today), Recording(trades)) }

  function OpenedOn(openOn: map<string, int>, today: int): set<string> {
    set s | s in openOn && openOn[s] == today
  }

  /** Day trades taken plus those that closing today's positions would make. */
  ghost function Committed(t: Tracker, today: int): int {
    Used(t.trades, today) + |OpenedOn(t.openOn, today)|
  }

  function Pruned(trades: map<int, nat>, today: int): map<int, nat> {
    map d | d in trades && InWindow(d, today, ROLLING_SESSIONS * 3) :: trades[d]
  }

  function RecordOpen(t: Tracker, symbol: string, today: int): Tracker {
    if Text.Upper(symbol) in t.openOn then t else t.(openOn := t.openOn[Text.Upper(symbol) := today])
  }

  predicate IsDayTrade(t: Tracker, symbol: string, today: int) {
    Text.Upper(symbol) in t.openOn && t.openOn[Text.Upper(symbol)] == today
  }

  function Counted(trades: map<int, nat>, day: int): map<int, nat> {
    trades[day := (if day in trades then trades[day] else 0) + 1]
  }

  function RecordClose(t: Tracker, symbol: string, today: int): Tracker {
    Tracker(t.openOn - {Text.Upper(symbol)},
            Pruned(if IsDayTrade(t, symbol, today) then Counted(t.trades, today) else t.trades, today))
  }

  ghost predicate MayEnter(cfg: Settings, t: Tracker, equity: Option<real>, today: int) {
    || !cfg.enabled
    || (equity.Some? && equity.value >= cfg.equityThreshold)
    || Committed(t, today) < cfg.maxDayTrades
  }

  // ------------------------------------------------------------------
  // The tracker
  // ------------------------------------------------------------------
  class DayTradeTracker {
    const settings: Settings
    var openSessions: map<string, int>
    var dayTrades: map<int, nat>

    ghost function State(): Tracker
      reads this
    {
      Tracker(openSessions, dayTrades)
    }

    constructor (settings: Settings)
      ensures State() == EMPTY && this.settings == settings
    {
      this.settings := settings;
      openSessions, dayTrades := map[], map[];
    }

    method Open(symbol: string, today: int)
      modifies this`openSessions
      ensures State() == RecordOpen(old(State()), symbol, today)
      ensures openSessions == if Text.Upper(symbol) in old(openSessions) then old(openSessions)
                              else old(openSessions)[Text.Upper(symbol) := today]
    {
      if Text.Upper(symbol) !in openSessions {
        openSessions := openSessions[Text.Upper(symbol) := today];
      }
    }

    method Close(symbol: string, today: int) returns (isDayTrade: bool)
      modifies this`openSessions, this`dayTrades
      ensures State() == RecordClose(old(State()), symbol, today)
      ensures isDayTrade == IsDayTrade(old(State()), symbol, today)
      ensures isDayTrade <==> Text.Upper(symbol) in old(openSessions) && old(openSessions)[Text.Upper(symbol)] == today
      ensures openSessions == old(openSessions) - {Text.Upper(symbol)}
      ensures today in dayTrades ==>
                dayTrades[today] == (if today in old(dayTrades) then old(dayTrades)[today] else 0) + (if isDayTrade then 1 else 0)
      ensures isDayTrade ==> today in dayTrades
    {
      var key := Text.Upper(symbol);
      isDayTrade := key in openSessions && openSessions[key] == today;
      openSessions := openSessions - {key};
      if isDayTrade {
        dayTrades := dayTrades[today := (if today in dayTrades then dayTrades[today] else 0) + 1];
      }
      Prune(today);
    }

    method Prune(today: int)
      modifies this`dayTrades
      ensures dayTrades == Pruned(old(dayTrades), today)
      ensures forall d :: d in dayTrades <==> d in old(dayTrades) && InWindow(d, today, 15)
      ensures forall d :: d in dayTrades ==> dayTrades[d] == old(dayTrades)[d]
    {
      var window := BusinessWindow(today, ROLLING_SESSIONS * 3);
      dayTrades := map d | d in dayTrades && d in window :: dayTrades[d];
    }

    method Count(today: int) returns (used: int)
      ensures used == Used(dayTrades, today)
    {
      var window := BusinessWindow(today, ROLLING_SESSIONS);
      used := 0;
      var left := dayTrades.Keys;
      ghost var term := WindowTerm(dayTrades, today);
      while left != {}
        invariant left <= dayTrades.Keys
        invariant used + Total(left, term) == Used(dayTrades, today)
      {
        var day :| day in left;
        TotalRemove(left, term, day);
        if day in window {
          used := used + dayTrades[day];
        }
        left := left - {day};
      }
    }

    method CheckEntry(equity: Option<real>, today: int) returns (d: Decision)
      ensures d.allowed <==> MayEnter(settings, State(), equity, today)
      ensures d.allowed <==>
                || !settings.enabled || (equity.Some? && equity.value >= settings.equityThreshold)
                || FiveDayCount(dayTrades, today) + |set s | s in openSessions && openSessions[s] == today|
                     < settings.maxDayTrades
      ensures settings.enabled ==> d.used == FiveDayCount(dayTrades, today)
      ensures d.reason == if !settings.enabled then "pdt_disabled"
                          else if equity.Some? && equity.value >= settings.equityThreshold then "above_pdt_equity_threshold"
                          else if d.allowed then "within_day_trade_budget" else "pdt_day_trade_limit"
      ensures settings.enabled ==>
                && d.used == Used(dayTrades, today) && d.openToday == |OpenedOn(openSessions, today)|
                && d.remaining == (if Committed(State(), today) < settings.maxDayTrades
                                   then settings.maxDayTrades - Committed(State(), today) else 0)
    {
      UsedIsFiveDays(dayTrades, today);
      if !settings.enabled {
        return Decision(true, "pdt_disabled", 0, 0, 0);
      }
      var used := Count(today);
      var openToday := |OpenedOn(openSessions, today)|;
      var committed := used + openToday;
      var remaining := if settings.maxDayTrades > committed then settings.maxDayTrades - committed else 0;
      if equity.Some? && equity.value >= settings.equityThreshold {
        return Decision(true, "above_pdt_equity_threshold", used, remaining, openToday);
      }
      if committed >= settings.maxDayTrades {
        return Decision(false, "pdt_day_trade_limit", used, 0, openToday);
      }
      return Decision(true, "within_day_trade_budget", used, remaining, openToday);
    }
  }

  // ------------------------------------------------------------------
  // Counting
  // ------------------------------------------------------------------
  /** The count is of the latest five sessions. */
  lemma UsedIsFiveDays(trades: map<int, nat>, today: int)
    ensures Used(trades, today) == FiveDayCount(trades, today)
  {
    var days, term := FiveDays(today), WindowTerm(trades, today);
    var all := trades.Keys + days;
    forall d ensures term(d) == if d in days then Recording(trades)(d) else 0 {
      WindowIsFiveDays(d, today);
    }
    TotalPadding(trades.Keys, all, term);
    TotalPadding(days, all, term);
    TotalEqual(days, term, Recording(trades));
  }

  /** Time passing never adds to the count of past day trades. */
  lemma UsedShrinks(trades: map<int, nat>, now: int, later: int)
    requires now <= later && forall d :: d in trades ==> d <= now
    ensures Used(trades, later) <= Used(trades, now)
  {
    forall d | d in trades.Keys ensures WindowTerm(trades, later)(d) <= WindowTerm(trades, now)(d) {
      if InWindow(d, later, ROLLING_SESSIONS) { WindowNested(d, now, later, ROLLING_SESSIONS); }
    }
    TotalOrdered(trades.Keys, WindowTerm(trades, later), WindowTerm(trades, now));
  }

  /** One more day trade today adds exactly one to today's count and to every later count
      whose window still holds today. */
  lemma UsedCounted(trades: map<int, nat>, day: int, today: int)
    ensures Used(Counted(trades, day), today)
            == Used(trades, today) + if InWindow(day, today, ROLLING_SESSIONS) then 1 else 0
  {
    var next := Counted(trades, day);
    var f, g := WindowTerm(trades, today), WindowTerm(next, today);
    TotalRemove(next.Keys, g, day);
    TotalEqual(next.Keys - {day}, f, g);
    if day in trades {
      assert next.Keys == trades.Keys;
      TotalRemove(trades.Keys, f, day);
    } else {
      assert next.Keys - {day} == trades.Keys;
    }
  }

  /** Pruning at fifteen sessions changes no present or later five-session count. */
  lemma PruneKeepsCounts(trades: map<int, nat>, now: int, later: int)
    requires now <= later && forall d :: d in trades ==> d <= now
    ensures Used(Pruned(trades, now), later) == Used(trades, later)
  {
    var kept := Pruned(trades, now);
    var f, g := WindowTerm(trades, later), WindowTerm(kept, later);
    forall d | d in trades.Keys && d !in kept.Keys ensures f(d) == 0 {
      if InWindow(d, later, ROLLING_SESSIONS) {
        WiderWindow(d, later, ROLLING_SESSIONS, ROLLING_SESSIONS * 3);
        WindowNested(d, now, later, ROLLING_SESSIONS * 3);
      }
    }
    TotalPadding(kept.Keys, trades.Keys, f);
    TotalEqual(kept.Keys, f, g);
  }

  // ------------------------------------------------------------------
  // Runs
  // ------------------------------------------------------------------

  /** `Enter` asks the guard and opens only when it is allowed; `Leave` is never refused. */
  datatype Event =
    | Enter(symbol: string, equity: Option<real>, day: int)
    | Leave(symbol: string, day: int)

  ghost function Step(cfg: Settings, t: Tracker, e: Event): Tracker {
    match e
    case Enter(symbol, equity, day) => if MayEnter(cfg, t, equity, day) then RecordOpen(t, symbol, day) else t
    case Leave(symbol, day) => RecordClose(t, symbol, day)
  }

  ghost function Run(cfg: Settings, es: seq<Event>): Tracker {
    if es == [] then EMPTY else Step(cfg, Run(cfg, es[..|es| - 1]), es[|es| - 1])
  }

  /** The clock does not run backwards. */
  ghost predicate Monotone(es: seq<Event>) {
    forall i, j :: 0 <= i < j < |es| ==> es[i].day <= es[j].day
  }

  /** Every entry was made with the account unknown or below the threshold. */
  ghost predicate SmallAccount(cfg: Settings, es: seq<Event>) {
    forall i :: 0 <= i < |es| && es[i].Enter? ==>
      es[i].equity.None? || es[i].equity.value < cfg.equityThreshold
  }

  function Cap(cfg: Settings): int { if cfg.maxDayTrades > 0 then cfg.maxDayTrades else 0 }

  ghost predicate Inv(cfg: Settings, t: Tracker, now: int) {
    && (forall s :: s in t.openOn ==> t.openOn[s] <= now)
    && (forall d :: d in t.trades ==> d <= now)
    && Committed(t, now) <= Cap(cfg)
  }

  lemma InvAdvances(cfg: Settings, t: Tracker, now: int, later: int)
    requires Inv(cfg, t, now) && now <= later
    ensures Inv(cfg, t, later)
  {
    if now < later {
      UsedShrinks(t.trades, now, later);
      assert OpenedOn(t.openOn, later) == {};
    }
  }

  lemma OpenAdds(t: Tracker, symbol: string, today: int)
    ensures Committed(RecordOpen(t, symbol, today), today)
            == Committed(t, today) + if Text.Upper(symbol) in t.openOn then 0 else 1
  {
    var key := Text.Upper(symbol);
    if key !in t.openOn {
      assert OpenedOn(t.openOn[key := today], today) == OpenedOn(t.openOn, today) + {key};
    }
  }

  lemma CloseReserves(t: Tracker, symbol: string, today: int)
    ensures |OpenedOn(RecordClose(t, symbol, today).openOn, today)|
            == |OpenedOn(t.openOn, today)| - if IsDayTrade(t, symbol, today) then 1 else 0
  {
    var key := Text.Upper(symbol);
    if IsDayTrade(t, symbol, today) {
      assert OpenedOn(t.openOn - {key}, today) == OpenedOn(t.openOn, today) - {key};
    } else {
      assert OpenedOn(t.openOn - {key}, today) == OpenedOn(t.openOn, today);
    }
  }

  lemma CloseCounts(t: Tracker, symbol: string, today: int)
    requires forall d :: d in t.trades ==> d <= today
    ensures Used(RecordClose(t, symbol, today).trades, today)
            == Used(t.trades, today) + if IsDayTrade(t, symbol, today) then 1 else 0
  {
    PruneKeepsCounts(if IsDayTrade(t, symbol, today) then Counted(t.trades, today) else t.trades, today, today);
    UsedCounted(t.trades, today, today);
  }

  /** Closing today's position turns a reservation into a day trade: the commitment never grows. */
  lemma CloseConverts(t: Tracker, symbol: string, today: int)
    requires forall d :: d in t.trades ==> d <= today
    ensures Committed(RecordClose(t, symbol, today), today) == Committed(t, today)
  {
    CloseReserves(t, symbol, today);
    CloseCounts(t, symbol, today);
  }

  lemma StepKeepsInv(cfg: Settings, t: Tracker, e: Event)
    requires cfg.enabled && Inv(cfg, t, e.day)
    requires e.Enter? ==> e.equity.None? || e.equity.value < cfg.equityThreshold
    ensures Inv(cfg, Step(cfg, t, e), e.day)
  {
    match e
    case Enter(symbol, equity, day) => OpenAdds(t, symbol, day);
    case Leave(symbol, day) => CloseConverts(t, symbol, day);
  }

  /** Over every run: day trades in the window plus positions opened today never exceed the
      budget, on the day of the last event and on every later day. */
  lemma {:induction false} RunStaysWithinBudget(cfg: Settings, es: seq<Event>, now: int)
    requires cfg.enabled && Monotone(es) && SmallAccount(cfg, es)
    requires es != [] ==> es[|es| - 1].day <= now
    ensures Inv(cfg, Run(cfg, es), now)
  {
    if es != [] {
      var n := |es| - 1;
      RunStaysWithinBudget(cfg, es[..n], es[n].day);
      StepKeepsInv(cfg, Run(cfg, es[..n]), es[n]);
      InvAdvances(cfg, Run(cfg, es), es[n].day, now);
    }
  }

  /** Every day trade the tracker flagged, by session, never pruned. */
  ghost function Completed(cfg: Settings, es: seq<Event>): map<int, nat> {
    if es == [] then map[]
    else
      var before, e := Completed(cfg, es[..|es| - 1]), es[|es| - 1];
      if e.Leave? && IsDayTrade(Run(cfg, es[..|es| - 1]), e.symbol, e.day) then Counted(before, e.day) else before
  }

  ghost predicate Exact(cfg: Settings, es: seq<Event>, now: int) {
    && (forall d :: d in Run(cfg, es).trades ==> d <= now)
    && (forall later :: now <= later ==> Used(Run(cfg, es).trades, later) == Used(Completed(cfg, es), later))
  }

  /** The pruned tracker counts exactly what an unpruned record of every day trade it flagged
      would, now and at every later day. */
  lemma {:induction false} PruningIsInvisible(cfg: Settings, es: seq<Event>, now: int)
    requires Monotone(es)
    requires es != [] ==> es[|es| - 1].day <= now
    ensures Exact(cfg, es, now)
  {
    if es != [] {
      var n := |es| - 1;
      var e, t, full := es[n], Run(cfg, es[..n]), Completed(cfg, es[..n]);
      PruningIsInvisible(cfg, es[..n], e.day);
      if e.Leave? {
        var trades := if IsDayTrade(t, e.symbol, e.day) then Counted(t.trades, e.day) else t.trades;
        forall later | now <= later
          ensures Used(Run(cfg, es).trades, later) == Used(Completed(cfg, es), later)
        {
          assert Used(t.trades, later) == Used(full, later);
          PruneKeepsCounts(trades, e.day, later);
          UsedCounted(t.trades, e.day, later);
          UsedCounted(full, e.day, later);
        }
      }
    }
  }

  // ------------------------------------------------------------------
  // Day trades, as the rule defines them
  // ------------------------------------------------------------------

  /** Event `i` was an entry the guard allowed. */
  ghost predicate Accepted(cfg: Settings, es: seq<Event>, i: nat)
    requires i < |es|
  {
    es[i].Enter? && MayEnter(cfg, Run(cfg, es[..i]), es[i].equity, es[i].day)
  }

  /** Event `i` bought `key`, and nothing sold it between then and event `n`. */
  ghost predicate HeldSince(cfg: Settings, es: seq<Event>, key: string, i: nat, n: nat)
    requires n <= |es|
  {
    && i < n && Accepted(cfg, es, i) && Text.Upper(es[i].symbol) == key
    && (forall k :: i < k < n && es[k].Leave? ==> Text.Upper(es[k].symbol) != key)
  }

  ghost predicate BoughtOn(cfg: Settings, es: seq<Event>, key: string, n: nat, day: int)
    requires n <= |es|
  {
    exists i: nat :: HeldSince(cfg, es, key, i, n) && es[i].day == day
  }

  /** Event `n` is a day trade: it sells a security bought in the same session and not sold since. */
  ghost predicate DayTradeAt(cfg: Settings, es: seq<Event>, n: nat)
    requires n < |es|
  {
    es[n].Leave? && BoughtOn(cfg, es, Text.Upper(es[n].symbol), n, es[n].day)
  }

  /** Event `n` sells a position that was open from an earlier session and was added to in this one. */
  ghost predicate StretchedAt(cfg: Settings, es: seq<Event>, n: nat)
    requires n < |es|
  {
    es[n].Leave? && Stretched(cfg, es, Text.Upper(es[n].symbol), n, es[n].day)
  }

  /** Before event `n`, `key` is open from a session other than `day` and was added to on `day`. */
  ghost predicate Stretched(cfg: Settings, es: seq<Event>, key: string, n: nat, day: int)
    requires n <= |es|
  {
    var t := Run(cfg, es[..n]);
    key in t.openOn && t.openOn[key] != day && BoughtOn(cfg, es, key, n, day)
  }

  /** What the tracker counts at event `n`. */
  ghost predicate RecordedAt(cfg: Settings, es: seq<Event>, n: nat)
    requires n < |es|
  {
    es[n].Leave? && IsDayTrade(Run(cfg, es[..n]), es[n].symbol, es[n].day)
  }

  ghost function Tick(yes: bool, day: int, today: int): nat {
    if yes && InWindow(day, today, ROLLING_SESSIONS) then 1 else 0
  }

  /** Day trades among the first `n` events that fall in the rolling window ending `today`. */
  ghost function DayTradesIn(cfg: Settings, es: seq<Event>, n: nat, today: int): nat
    requires n <= |es|
  {
    if n == 0 then 0
    else DayTradesIn(cfg, es, n - 1, today) + Tick(DayTradeAt(cfg, es, n - 1), es[n - 1].day, today)
  }

  ghost function RecordedIn(cfg: Settings, es: seq<Event>, n: nat, today: int): nat
    requires n <= |es|
  {
    if n == 0 then 0
    else RecordedIn(cfg, es, n - 1, today) + Tick(RecordedAt(cfg, es, n - 1), es[n - 1].day, today)
  }

  ghost function StretchedIn(cfg: Settings, es: seq<Event>, n: nat, today: int): nat
    requires n <= |es|
  {
    if n == 0 then 0
    else StretchedIn(cfg, es, n - 1, today) + Tick(StretchedAt(cfg, es, n - 1), es[n - 1].day, today)
  }

  /** No position sold inside the window had been added to, that day, while open from an earlier one. */
  ghost predicate NoneStretched(cfg: Settings, es: seq<Event>, today: int) {
    forall n: nat :: n < |es| ==> !StretchedWithin(cfg, es, n, today)
  }

  ghost predicate StretchedWithin(cfg: Settings, es: seq<Event>, n: nat, today: int)
    requires n < |es|
  {
    StretchedAt(cfg, es, n) && InWindow(es[n].day, today, ROLLING_SESSIONS)
  }

  // --- what the tracker's open record says about the run ------------------

  /** `key` is recorded open exactly when something bought is still held, and the day recorded is the
      first day it was bought. */
  ghost predicate Tracks(cfg: Settings, es: seq<Event>, key: string, n: nat)
    requires n <= |es|
  {
    var t := Run(cfg, es[..n]);
    && (key in t.openOn ==> BoughtOn(cfg, es, key, n, t.openOn[key]))
    && (forall i: nat :: HeldSince(cfg, es, key, i, n) ==> key in t.openOn && t.openOn[key] <= es[i].day)
  }

  lemma RunStep(cfg: Settings, es: seq<Event>, n: nat)
    requires n < |es|
    ensures Run(cfg, es[..n + 1]) == Step(cfg, Run(cfg, es[..n]), es[n])
  {
    assert es[..n + 1][..n] == es[..n];
  }

  /** What is held after one more event. */
  lemma HeldStep(cfg: Settings, es: seq<Event>, key: string, i: nat, n: nat)
    requires n < |es|
    ensures HeldSince(cfg, es, key, i, n + 1) <==>
              || (i == n && Accepted(cfg, es, n) && Text.Upper(es[n].symbol) == key)
              || (HeldSince(cfg, es, key, i, n) && !(es[n].Leave? && Text.Upper(es[n].symbol) == key))
  {
  }

  lemma BoughtStays(cfg: Settings, es: seq<Event>, key: string, n: nat, day: int)
    requires n < |es| && BoughtOn(cfg, es, key, n, day)
    requires !(es[n].Leave? && Text.Upper(es[n].symbol) == key)
    ensures BoughtOn(cfg, es, key, n + 1, day)
  {
    var i: nat :| HeldSince(cfg, es, key, i, n) && es[i].day == day;
    HeldStep(cfg, es, key, i, n);
  }

  /** Buying what is not open records today; buying what is open records nothing. */
  lemma TracksBuy(cfg: Settings, es: seq<Event>, key: string, n: nat, was: Tracker)
    requires n < |es| && was == Run(cfg, es[..n]) && Tracks(cfg, es, key, n)
    requires Accepted(cfg, es, n) && Text.Upper(es[n].symbol) == key
    requires forall s :: s in was.openOn ==> was.openOn[s] <= es[n].day
    ensures Tracks(cfg, es, key, n + 1)
  {
    RunStep(cfg, es, n);
    HeldStep(cfg, es, key, n, n);
    if key in was.openOn { BoughtStays(cfg, es, key, n, was.openOn[key]); }
    var now := Run(cfg, es[..n + 1]);
    assert now == RecordOpen(was, es[n].symbol, es[n].day);
    forall i: nat | HeldSince(cfg, es, key, i, n + 1) ensures key in now.openOn && now.openOn[key] <= es[i].day {
      HeldStep(cfg, es, key, i, n);
    }
  }

  /** Events that neither buy nor sell `key` leave its record alone. */
  lemma TracksIdle(cfg: Settings, es: seq<Event>, key: string, n: nat, was: Tracker)
    requires n < |es| && was == Run(cfg, es[..n]) && Tracks(cfg, es, key, n)
    requires Text.Upper(es[n].symbol) != key || (es[n].Enter? && !Accepted(cfg, es, n))
    ensures Tracks(cfg, es, key, n + 1)
  {
    RunStep(cfg, es, n);
    if key in was.openOn { BoughtStays(cfg, es, key, n, was.openOn[key]); }
    forall i: nat | HeldSince(cfg, es, key, i, n + 1) ensures HeldSince(cfg, es, key, i, n) {
      HeldStep(cfg, es, key, i, n);
    }
  }

  lemma SoldIsNotHeld(cfg: Settings, es: seq<Event>, key: string, n: nat, m: nat)
    requires m == n + 1 <= |es| && es[n].Leave? && Text.Upper(es[n].symbol) == key
    ensures forall i: nat :: !HeldSince(cfg, es, key, i, m)
  {
    if i: nat :| HeldSince(cfg, es, key, i, m) {
      HeldStep(cfg, es, key, i, n);
    }
  }

  lemma TracksSell(cfg: Settings, es: seq<Event>, key: string, n: nat)
    requires n < |es| && es[n].Leave? && Text.Upper(es[n].symbol) == key
    ensures Tracks(cfg, es, key, n + 1)
  {
    RunStep(cfg, es, n);
    SoldIsNotHeld(cfg, es, key, n, n + 1);
  }

  lemma {:induction false} OpenedBy(cfg: Settings, es: seq<Event>, n: nat, day: int)
    requires Monotone(es) && n <= |es| && (n > 0 ==> es[n - 1].day <= day)
    ensures forall s :: s in Run(cfg, es[..n]).openOn ==> Run(cfg, es[..n]).openOn[s] <= day
    decreases n
  {
    if n > 0 {
      OpenedBy(cfg, es, n - 1, es[n - 1].day);
      RunStep(cfg, es, n - 1);
    }
  }

  lemma {:induction false} RunTracks(cfg: Settings, es: seq<Event>, key: string, n: nat)
    requires Monotone(es) && n <= |es|
    ensures Tracks(cfg, es, key, n)
    decreases n
  {
    if n > 0 {
      var e, was := es[n - 1], Run(cfg, es[..n - 1]);
      RunTracks(cfg, es, key, n - 1);
      if e.Leave? && Text.Upper(e.symbol) == key {
        TracksSell(cfg, es, key, n - 1);
      } else if Text.Upper(e.symbol) == key && Accepted(cfg, es, n - 1) {
        OpenedBy(cfg, es, n - 1, e.day);
        TracksBuy(cfg, es, key, n - 1, was);
      } else {
        TracksIdle(cfg, es, key, n - 1, was);
      }
    }
  }

  /** Every day trade is either recorded or closes a position added to while open from an earlier
      session, never both. */
  lemma DayTradeCases(cfg: Settings, es: seq<Event>, n: nat)
    requires Monotone(es) && n < |es|
    ensures DayTradeAt(cfg, es, n) <==> RecordedAt(cfg, es, n) || StretchedAt(cfg, es, n)
    ensures !(RecordedAt(cfg, es, n) && StretchedAt(cfg, es, n))
  {
    RunTracks(cfg, es, Text.Upper(es[n].symbol), n);
  }

  lemma {:induction false} DayTradesSplit(cfg: Settings, es: seq<Event>, n: nat, today: int)
    requires Monotone(es) && n <= |es|
    ensures DayTradesIn(cfg, es, n, today) == RecordedIn(cfg, es, n, today) + StretchedIn(cfg, es, n, today)
  {
    if n > 0 {
      DayTradesSplit(cfg, es, n - 1, today);
      DayTradeCases(cfg, es, n - 1);
    }
  }

  lemma CompletedStep(cfg: Settings, es: seq<Event>, n: nat)
    requires n < |es|
    ensures Completed(cfg, es[..n + 1])
            == if RecordedAt(cfg, es, n) then Counted(Completed(cfg, es[..n]), es[n].day) else Completed(cfg, es[..n])
  {
    assert es[..n + 1][..n] == es[..n];
  }

  /** Day trades the tracker flagged among the first `n` events, counted from an unpruned record. */
  ghost function FlaggedIn(cfg: Settings, es: seq<Event>, n: nat, today: int): int
    requires n <= |es|
  {
    Used(Completed(cfg, es[..n]), today)
  }

  lemma FlaggedStep(cfg: Settings, es: seq<Event>, n: nat, m: nat, today: int)
    requires m == n + 1 <= |es|
    ensures FlaggedIn(cfg, es, m, today)
            == FlaggedIn(cfg, es, n, today) + Tick(RecordedAt(cfg, es, n), es[n].day, today)
  {
    CompletedStep(cfg, es, n);
    UsedCounted(Completed(cfg, es[..n]), es[n].day, today);
  }

  lemma NoneFlagged(cfg: Settings, es: seq<Event>, today: int)
    ensures FlaggedIn(cfg, es, 0, today) == 0
  {
    assert es[..0] == [];
  }

  lemma {:induction false} FlaggedIsRecorded(cfg: Settings, es: seq<Event>, n: nat, today: int)
    requires n <= |es|
    ensures FlaggedIn(cfg, es, n, today) == RecordedIn(cfg, es, n, today)
  {
    if n == 0 {
      NoneFlagged(cfg, es, today);
    } else {
      FlaggedIsRecorded(cfg, es, n - 1, today);
      FlaggedStep(cfg, es, n - 1, n, today);
    }
  }

  lemma {:induction false} NoneStretchedIff(cfg: Settings, es: seq<Event>, n: nat, today: int)
    requires n <= |es|
    ensures StretchedIn(cfg, es, n, today) == 0 <==>
              forall k: nat :: k < n ==> !StretchedWithin(cfg, es, k, today)
  {
    if n > 0 {
      NoneStretchedIff(cfg, es, n - 1, today);
      assert StretchedIn(cfg, es, n, today) == 0
        <==> StretchedIn(cfg, es, n - 1, today) == 0 && !StretchedWithin(cfg, es, n - 1, today);
    }
  }

  /** The day trades of a run, at every moment from its last event on, are what the tracker counts plus
      the closes of positions that were added to on the day while open from an earlier session. */
  lemma TrackerMisses(cfg: Settings, es: seq<Event>, today: int)
    requires Monotone(es)
    requires es != [] ==> es[|es| - 1].day <= today
    ensures DayTradesIn(cfg, es, |es|, today) == Used(Run(cfg, es).trades, today) + StretchedIn(cfg, es, |es|, today)
  {
    PruningIsInvisible(cfg, es, today);
    assert Used(Run(cfg, es).trades, today) == Used(Completed(cfg, es), today);
    assert es[..|es|] == es;
    FlaggedIsRecorded(cfg, es, |es|, today);
    DayTradesSplit(cfg, es, |es|, today);
  }

  /** The tracker's count is the number of day trades exactly when no position sold inside the window had
      been added to on that day while open from an earlier session. */
  lemma CountIsExactIff(cfg: Settings, es: seq<Event>, today: int)
    requires Monotone(es)
    requires es != [] ==> es[|es| - 1].day <= today
    ensures Used(Run(cfg, es).trades, today) == DayTradesIn(cfg, es, |es|, today) <==> NoneStretched(cfg, es, today)
  {
    TrackerMisses(cfg, es, today);
    NoneStretchedIff(cfg, es, |es|, today);
  }

  // --- what the budget then means ------------------------------------------

  /** In every run the day trades that are not closes of such positions stay within the budget, and all
      of them do when there are none. */
  lemma DayTradesWithinBudget(cfg: Settings, es: seq<Event>, today: int)
    requires cfg.enabled && Monotone(es) && SmallAccount(cfg, es)
    requires es != [] ==> es[|es| - 1].day <= today
    ensures DayTradesIn(cfg, es, |es|, today) - StretchedIn(cfg, es, |es|, today) <= Cap(cfg)
    ensures NoneStretched(cfg, es, today) ==> DayTradesIn(cfg, es, |es|, today) <= Cap(cfg)
  {
    RunStaysWithinBudget(cfg, es, today);
    TrackerMisses(cfg, es, today);
    NoneStretchedIff(cfg, es, |es|, today);
  }

  ghost predicate ClosesOn(cs: seq<Event>, day: int) {
    forall i :: 0 <= i < |cs| ==> cs[i].Leave? && cs[i].day == day
  }

  lemma ClosesKeepOrder(cfg: Settings, es: seq<Event>, closes: seq<Event>, today: int)
    requires Monotone(es) && SmallAccount(cfg, es) && ClosesOn(closes, today)
    requires es != [] ==> es[|es| - 1].day <= today
    ensures Monotone(es + closes) && SmallAccount(cfg, es + closes)
    ensures es + closes != [] ==> (es + closes)[|es + closes| - 1].day <= today
  {
    var all := es + closes;
    forall i, j | 0 <= i < j < |all| ensures all[i].day <= all[j].day {
      if i < |es| <= j { assert all[i].day <= es[|es| - 1].day; }
    }
  }

  /** Closing never adds to the record of open positions. */
  lemma {:induction false} ClosesOnlyForget(cfg: Settings, es: seq<Event>, closes: seq<Event>, today: int, n: nat)
    requires ClosesOn(closes, today) && |es| <= n <= |es + closes|
    ensures var t, u := Run(cfg, es), Run(cfg, (es + closes)[..n]);
            forall s :: s in u.openOn ==> s in t.openOn && u.openOn[s] == t.openOn[s]
    decreases n
  {
    var all := es + closes;
    if n == |es| {
      assert all[..n] == es;
    } else {
      ClosesOnlyForget(cfg, es, closes, today, n - 1);
      RunStep(cfg, all, n - 1);
      assert all[n - 1] == closes[n - 1 - |es|];
    }
  }

  /** What is held in the longer run was bought, and is held, in the shorter. */
  lemma HeldBeforeCloses(cfg: Settings, es: seq<Event>, closes: seq<Event>, today: int, key: string, i: nat, n: nat)
    requires ClosesOn(closes, today) && |es| <= n <= |es + closes| && HeldSince(cfg, es + closes, key, i, n)
    ensures i < |es| && HeldSince(cfg, es, key, i, |es|)
  {
    var all := es + closes;
    assert forall k :: |es| <= k < |all| ==> all[k] == closes[k - |es|];
    assert all[..i] == es[..i] && all[i] == es[i];
    forall k | i < k < |es| && es[k].Leave? ensures Text.Upper(es[k].symbol) != key {
      assert all[k] == es[k];
    }
  }

  lemma StretchedClose(cfg: Settings, es: seq<Event>, closes: seq<Event>, today: int, n: nat)
    requires ClosesOn(closes, today) && |es| <= n < |es + closes|
    requires StretchedAt(cfg, es + closes, n)
    ensures Stretched(cfg, es, Text.Upper((es + closes)[n].symbol), |es|, today)
  {
    var all := es + closes;
    var key := Text.Upper(all[n].symbol);
    assert all[n] == closes[n - |es|] && es[..|es|] == es;
    ClosesOnlyForget(cfg, es, closes, today, n);
    var i: nat :| HeldSince(cfg, all, key, i, n) && all[i].day == today;
    HeldBeforeCloses(cfg, es, closes, today, key, i, n);
    assert BoughtOn(cfg, es, key, |es|, today);
  }

  lemma SamePast(cfg: Settings, es: seq<Event>, closes: seq<Event>, key: string, n: nat, day: int)
    requires n <= |es| && Stretched(cfg, es + closes, key, n, day)
    ensures Stretched(cfg, es, key, n, day)
  {
    var all := es + closes;
    assert all[..n] == es[..n];
    var i: nat :| HeldSince(cfg, all, key, i, n) && all[i].day == day;
    assert all[..i] == es[..i] && all[i] == es[i];
    assert forall k :: 0 <= k < n ==> all[k] == es[k];
    assert HeldSince(cfg, es, key, i, n);
  }

  /** Exits are never refused and never breach: whatever is closed today, in any order, the day trades of
      the window stay within the budget, unless a position open from an earlier session was added to
      today, or was on the day it was closed. */
  lemma ClosingEverythingIsSafe(cfg: Settings, es: seq<Event>, closes: seq<Event>, today: int)
    requires cfg.enabled && Monotone(es) && SmallAccount(cfg, es)
    requires es != [] ==> es[|es| - 1].day <= today
    requires ClosesOn(closes, today)
    requires NoneStretched(cfg, es, today) && forall key :: !Stretched(cfg, es, key, |es|, today)
    ensures DayTradesIn(cfg, es + closes, |es + closes|, today) <= Cap(cfg)
  {
    var all := es + closes;
    ClosesKeepOrder(cfg, es, closes, today);
    forall n: nat | n < |all| && StretchedWithin(cfg, all, n, today) ensures false {
      if n < |es| {
        assert all[n] == es[n];
        SamePast(cfg, es, closes, Text.Upper(es[n].symbol), n, es[n].day);
        assert StretchedWithin(cfg, es, n, today);
      } else {
        StretchedClose(cfg, es, closes, today, n);
      }
    }
    DayTradesWithinBudget(cfg, all, today);
  }

  /** Day trades among the first `n` events that were made on one of `days`. */
  ghost function DayTradesOn(cfg: Settings, es: seq<Event>, n: nat, days: set<int>): nat
    requires n <= |es|
  {
    if n == 0 then 0
    else DayTradesOn(cfg, es, n - 1, days) + if DayTradeAt(cfg, es, n - 1) && es[n - 1].day in days then 1 else 0
  }

  lemma {:induction false} DayTradesByDay(cfg: Settings, es: seq<Event>, n: nat, today: int)
    requires n <= |es|
    ensures DayTradesIn(cfg, es, n, today) == DayTradesOn(cfg, es, n, FiveDays(today))
  {
    if n > 0 {
      DayTradesByDay(cfg, es, n - 1, today);
      WindowIsFiveDays(es[n - 1].day, today);
    }
  }

  /** With the default budget of three and no such position, a fourth day trade in five sessions never
      happens: not on today and the four weekdays before it, together. */
  lemma NeverPatternDayTrader(cfg: Settings, es: seq<Event>, today: int)
    requires cfg.enabled && cfg.maxDayTrades == 3 && Monotone(es) && SmallAccount(cfg, es)
    requires es != [] ==> es[|es| - 1].day <= today
    requires NoneStretched(cfg, es, today)
    ensures DayTradesIn(cfg, es, |es|, today) < 4
    ensures DayTradesOn(cfg, es, |es|, FiveDays(today)) < 4
  {
    DayTradesWithinBudget(cfg, es, today);
    DayTradesByDay(cfg, es, |es|, today);
  }

  // --- how far the count can be off ----------------------------------------

  function Sym(i: nat): (s: string)
    ensures |s| == i + 1 && Text.Upper(s) == s
  {
    if i == 0 then "A" else Sym(i - 1) + "A"
  }

  ghost predicate AllAccepted(cfg: Settings, es: seq<Event>) {
    forall i: nat :: i < |es| && es[i].Enter? ==> Accepted(cfg, es, i)
  }

  /** A run in order, on a small account, ending by `day`. */
  ghost predicate Ordinary(cfg: Settings, es: seq<Event>, day: int) {
    Monotone(es) && SmallAccount(cfg, es) && (es != [] ==> es[|es| - 1].day <= day)
  }

  /** An ordinary run the guard lets through entirely, with no day trade on record. */
  ghost predicate Unnoticed(cfg: Settings, es: seq<Event>, day: int) {
    Ordinary(cfg, es, day) && AllAccepted(cfg, es) && Run(cfg, es).trades == map[]
  }

  /** Symbols `lo` to `hi` are open, each since its own day; nothing was opened later. */
  ghost predicate Holding(t: Tracker, lo: nat, hi: nat) {
    && (forall i: nat :: lo <= i < hi ==> Sym(i) in t.openOn && t.openOn[Sym(i)] == i)
    && (forall s :: s in t.openOn ==> t.openOn[s] < hi && |s| == t.openOn[s] + 1)
  }

  lemma SameAcceptance(cfg: Settings, es: seq<Event>, more: seq<Event>, i: nat)
    requires i < |es|
    ensures (es + more)[i] == es[i] && (Accepted(cfg, es + more, i) <==> Accepted(cfg, es, i))
  {
    assert (es + more)[..i] == es[..i];
  }

  lemma SameBuying(cfg: Settings, es: seq<Event>, more: seq<Event>, key: string, n: nat, day: int)
    requires n <= |es|
    ensures BoughtOn(cfg, es + more, key, n, day) <==> BoughtOn(cfg, es, key, n, day)
  {
    forall i: nat | i < n ensures HeldSince(cfg, es + more, key, i, n) <==> HeldSince(cfg, es, key, i, n) {
      SameAcceptance(cfg, es, more, i);
      assert forall k :: 0 <= k < n ==> (es + more)[k] == es[k];
    }
  }

  lemma {:induction false} SameDayTrades(cfg: Settings, es: seq<Event>, more: seq<Event>, n: nat, today: int)
    requires n <= |es|
    ensures DayTradesIn(cfg, es + more, n, today) == DayTradesIn(cfg, es, n, today)
  {
    if n > 0 {
      SameDayTrades(cfg, es, more, n - 1, today);
      assert (es + more)[n - 1] == es[n - 1];
      SameBuying(cfg, es, more, Text.Upper(es[n - 1].symbol), n - 1, es[n - 1].day);
    }
  }

  lemma NothingCommitted(t: Tracker, today: int)
    requires t.trades == map[] && forall s :: s in t.openOn ==> t.openOn[s] < today
    ensures Committed(t, today) == 0
  {
    assert OpenedOn(t.openOn, today) == {};
  }

  lemma RunAppend(cfg: Settings, es: seq<Event>, e: Event)
    ensures Run(cfg, es + [e]) == Step(cfg, Run(cfg, es), e)
  {
    assert (es + [e])[..|es|] == es;
  }

  lemma OrdinaryAppend(cfg: Settings, es: seq<Event>, e: Event)
    requires Ordinary(cfg, es, e.day) && (e.Enter? ==> e.equity == None)
    ensures Ordinary(cfg, es + [e], e.day)
  {
  }

  lemma AcceptedAppend(cfg: Settings, es: seq<Event>, e: Event)
    requires AllAccepted(cfg, es) && (e.Enter? ==> Accepted(cfg, es + [e], |es|))
    ensures AllAccepted(cfg, es + [e])
  {
    var all := es + [e];
    forall i: nat | i < |all| && all[i].Enter? ensures Accepted(cfg, all, i) {
      if i < |es| { SameAcceptance(cfg, es, [e], i); }
    }
  }

  /** An entry in a state nothing is committed in is allowed. */
  lemma EntryAccepted(cfg: Settings, es: seq<Event>, e: Event, t: Tracker)
    requires cfg.maxDayTrades >= 1 && e.Enter? && t == Run(cfg, es) && t.trades == map[]
    requires forall s :: s in t.openOn ==> t.openOn[s] < e.day
    ensures Accepted(cfg, es + [e], |es|)
  {
    assert (es + [e])[..|es|] == es;
    NothingCommitted(t, e.day);
  }

  lemma UnnoticedEntry(cfg: Settings, es: seq<Event>, e: Event, t: Tracker)
    requires cfg.maxDayTrades >= 1 && e.Enter? && e.equity == None && Unnoticed(cfg, es, e.day) && t == Run(cfg, es)
    requires forall s :: s in t.openOn ==> t.openOn[s] < e.day
    ensures Unnoticed(cfg, es + [e], e.day) && Run(cfg, es + [e]) == RecordOpen(t, e.symbol, e.day)
    ensures Accepted(cfg, es + [e], |es|)
  {
    RunAppend(cfg, es, e);
    NothingCommitted(t, e.day);
    EntryAccepted(cfg, es, e, t);
    OrdinaryAppend(cfg, es, e);
    AcceptedAppend(cfg, es, e);
  }

  lemma UnnoticedExit(cfg: Settings, es: seq<Event>, e: Event, t: Tracker)
    requires e.Leave? && Unnoticed(cfg, es, e.day) && t == Run(cfg, es) && !IsDayTrade(t, e.symbol, e.day)
    ensures Unnoticed(cfg, es + [e], e.day) && Run(cfg, es + [e]) == Tracker(t.openOn - {Text.Upper(e.symbol)}, map[])
  {
    RunAppend(cfg, es, e);
    assert Pruned(map[], e.day) == map[];
    OrdinaryAppend(cfg, es, e);
    AcceptedAppend(cfg, es, e);
  }

  lemma UnnoticedLater(cfg: Settings, es: seq<Event>, day: int, later: int)
    requires Unnoticed(cfg, es, day) && day <= later
    ensures Unnoticed(cfg, es, later)
  {
  }

  lemma HoldingGrows(t: Tracker, k: nat)
    requires Holding(t, 0, k)
    ensures Holding(RecordOpen(t, Sym(k), k), 0, k + 1)
  {
  }

  lemma HoldingShrinks(t: Tracker, j: nat, k: nat)
    requires Holding(t, j, k) && j < k
    ensures RecordOpen(t, Sym(j), k) == t && !IsDayTrade(t, Sym(j), k)
    ensures Holding(Tracker(t.openOn - {Sym(j)}, map[]), j + 1, k)
  {
  }

  ghost predicate Ready(cfg: Settings, es: seq<Event>, lo: nat, hi: nat) {
    Unnoticed(cfg, es, hi) && Holding(Run(cfg, es), lo, hi)
  }

  lemma ReadyOpens(cfg: Settings, es: seq<Event>, k: nat)
    requires cfg.maxDayTrades >= 1 && Ready(cfg, es, 0, k)
    ensures Ready(cfg, es + [Enter(Sym(k), None, k)], 0, k + 1)
  {
    var e := Enter(Sym(k), None, k);
    UnnoticedEntry(cfg, es, e, Run(cfg, es));
    UnnoticedLater(cfg, es + [e], k, k + 1);
    HoldingGrows(Run(cfg, es), k);
  }

  lemma ReadyChurns(cfg: Settings, es: seq<Event>, j: nat, k: nat)
    requires cfg.maxDayTrades >= 1 && j < k && Ready(cfg, es, j, k)
    ensures var bought := es + [Enter(Sym(j), None, k)];
            Accepted(cfg, bought, |es|) && Ready(cfg, bought + [Leave(Sym(j), k)], j + 1, k)
  {
    var t := Run(cfg, es);
    UnnoticedEntry(cfg, es, Enter(Sym(j), None, k), t);
    HoldingShrinks(t, j, k);
    UnnoticedExit(cfg, es + [Enter(Sym(j), None, k)], Leave(Sym(j), k), t);
  }

  lemma ReadyStart(cfg: Settings)
    ensures Ready(cfg, [], 0, 0)
  {
  }

  ghost predicate Opened(cfg: Settings, es: seq<Event>, k: nat) {
    Ready(cfg, es, 0, k) && forall i :: 0 <= i < |es| ==> es[i].Enter?
  }

  lemma OpenOneMore(cfg: Settings, before: seq<Event>, i: nat, k: nat) returns (es: seq<Event>)
    requires cfg.maxDayTrades >= 1 && k == i + 1 && Opened(cfg, before, i)
    ensures Opened(cfg, es, k)
  {
    ReadyOpens(cfg, before, i);
    es := before + [Enter(Sym(i), None, i)];
  }

  lemma OpenNone(cfg: Settings)
    ensures Opened(cfg, [], 0)
  {
    ReadyStart(cfg);
  }

  /** Open one symbol a day, `k` days running. */
  lemma {:induction false} Opens(cfg: Settings, k: nat) returns (es: seq<Event>)
    requires cfg.maxDayTrades >= 1
    ensures Opened(cfg, es, k)
  {
    if k == 0 {
      es := [];
      OpenNone(cfg);
    } else {
      var before := Opens(cfg, k - 1);
      es := OpenOneMore(cfg, before, k - 1, k);
    }
  }

  lemma {:induction false} NoSalesYet(cfg: Settings, es: seq<Event>, n: nat, today: int)
    requires n <= |es| && forall i :: 0 <= i < |es| ==> es[i].Enter?
    ensures DayTradesIn(cfg, es, n, today) == 0
  {
    if n > 0 { NoSalesYet(cfg, es, n - 1, today); }
  }

  /** Buying and selling in one session is one more day trade, whatever came before. */
  lemma OneMoreDayTrade(cfg: Settings, es: seq<Event>, symbol: string, day: int, all: seq<Event>)
    requires Accepted(cfg, es + [Enter(symbol, None, day)], |es|)
    requires all == es + [Enter(symbol, None, day)] + [Leave(symbol, day)]
    ensures DayTradesIn(cfg, all, |all|, day) == DayTradesIn(cfg, es, |es|, day) + 1
  {
    var more := [Enter(symbol, None, day)] + [Leave(symbol, day)];
    var n := |es|;
    SameAcceptance(cfg, es + [Enter(symbol, None, day)], [Leave(symbol, day)], n);
    assert all == es + more;
    SameDayTrades(cfg, es, more, n, day);
    assert HeldSince(cfg, all, Text.Upper(symbol), n, n + 1);
    assert DayTradeAt(cfg, all, n + 1) && !DayTradeAt(cfg, all, n);
    assert DayTradesIn(cfg, all, n + 1, day) == DayTradesIn(cfg, all, n, day);
  }

  ghost predicate Churned(cfg: Settings, es: seq<Event>, j: nat, k: nat) {
    Ready(cfg, es, j, k) && DayTradesIn(cfg, es, |es|, k) == j
  }

  lemma ChurnStart(cfg: Settings, es: seq<Event>, k: nat)
    requires Opened(cfg, es, k)
    ensures Churned(cfg, es, 0, k)
  {
    NoSalesYet(cfg, es, |es|, k);
  }

  lemma ChurnOneMore(cfg: Settings, before: seq<Event>, j: nat, next: nat, k: nat) returns (es: seq<Event>)
    requires cfg.maxDayTrades >= 1 && next == j + 1 <= k && Churned(cfg, before, j, k)
    ensures Churned(cfg, es, next, k)
  {
    es := before + [Enter(Sym(j), None, k)] + [Leave(Sym(j), k)];
    ReadyChurns(cfg, before, j, k);
    OneMoreDayTrade(cfg, before, Sym(j), k, es);
  }

  /** Then, all on day `k`, buy more of each of the first `j` symbols and sell it. */
  lemma {:induction false} Churn(cfg: Settings, k: nat, j: nat) returns (es: seq<Event>)
    requires cfg.maxDayTrades >= 1 && j <= k
    ensures Churned(cfg, es, j, k)
    decreases j
  {
    if j == 0 {
      es := Opens(cfg, k);
      ChurnStart(cfg, es, k);
    } else {
      var before := Churn(cfg, k, j - 1);
      es := ChurnOneMore(cfg, before, j - 1, j, k);
    }
  }

  /** `k` day trades on day `k` that the tracker has not counted, every entry allowed. */
  ghost predicate Escapes(cfg: Settings, es: seq<Event>, k: nat) {
    && Monotone(es) && SmallAccount(cfg, es) && (es != [] ==> es[|es| - 1].day <= k)
    && AllAccepted(cfg, es)
    && Used(Run(cfg, es).trades, k) == 0 && DayTradesIn(cfg, es, |es|, k) == k
  }

  /** Without that condition no budget holds.  For every number `k` there is a run, every entry of which
      the guard allowed, with `k` day trades on its last day and none of them on record: open a symbol a
      day, then on one day buy more of each and sell it. */
  lemma AddsEscapeTheCount(cfg: Settings, k: nat)
    requires cfg.enabled && cfg.maxDayTrades >= 1
    ensures exists es :: Escapes(cfg, es, k)
  {
    var es := Churn(cfg, k, k);
    assert Escapes(cfg, es, k);
  }

  /** Opening keeps the budget exactly when a slot was free or the symbol was already open. */
  lemma OpenKeepsBudgetIff(t: Tracker, symbol: string, today: int, max: int)
    requires Committed(t, today) <= max
    ensures Committed(RecordOpen(t, symbol, today), today) <= max
            <==> Text.Upper(symbol) in t.openOn || Committed(t, today) < max
  {
    OpenAdds(t, symbol, today);
  }

  /** Check and open are two calls: two entries checked before either opens overrun the budget. */
  lemma StaleChecksOverrun(today: int)
    ensures var cfg := Settings(true, 25000.0, 1);
            && MayEnter(cfg, EMPTY, None, today)
            && Committed(RecordOpen(RecordOpen(EMPTY, "A", today), "B", today), today) > cfg.maxDayTrades
  {
    assert Committed(EMPTY, today) == 0 by { assert OpenedOn(EMPTY.openOn, today) == {}; }
    OpenAdds(EMPTY, "A", today);
    assert Text.Upper("A") == "A" && Text.Upper("B") == "B";
    assert "A"[0] != "B"[0];
    OpenAdds(RecordOpen(EMPTY, "A", today), "B", today);
  }
}
