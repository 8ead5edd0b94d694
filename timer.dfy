/** The focus timer: a countdown whose length is adjusted in 5-minute steps
    and that is started, paused and reset from buttons. Each firing of the
    one-second interval is a call to `Tick`; the interval handle itself is
    the flag `intervalSet`. */
module FocusTimer {
  import opened Format

  const DefaultMinutes := 25
  const MinMinutes := 5
  const MaxMinutes := 90
  const StepMinutes := 5

  /** `timerDurationMinutes`, `timerMinutes`, `timerSeconds`, `timerRunning`,
      and whether `timerInterval` holds an interval. */
  datatype TimerState = TimerState(duration: int, minutes: int, seconds: int, running: bool, intervalSet: bool)

  /** The time left, in seconds. */
  function Remaining(t: TimerState): int {
    60 * t.minutes + t.seconds
  }

  /** What every handler keeps: a duration in [5, 90] on the 5-minute grid,
      a seconds field in [0, 59], never more time left than the duration,
      and an interval exactly while the timer runs. */
  predicate ValidState(t: TimerState) {
    MinMinutes <= t.duration <= MaxMinutes && t.duration % StepMinutes == 0
    && 0 <= t.minutes && 0 <= t.seconds <= 59
    && Remaining(t) <= 60 * t.duration
    && t.intervalSet == t.running
  }

  /** The state at page load: 25:00 of 25 minutes, stopped. */
  function Initial(): (t: TimerState)
    ensures ValidState(t) && !t.running
    ensures t.duration == DefaultMinutes && Remaining(t) == 60 * DefaultMinutes
  {
    TimerState(DefaultMinutes, DefaultMinutes, 0, false, false)
  }

  /** `tickTimer`: one second off with a borrow from the minutes, or, at 0:00,
      the timer stops with the display left at 0:00. */
  function AfterTick(t: TimerState): (r: TimerState)
    ensures r.duration == t.duration
    ensures ValidState(t) ==> ValidState(r)
    ensures ValidState(t) && Remaining(t) > 0 ==>
      Remaining(r) == Remaining(t) - 1 && r.running == t.running && r.intervalSet == t.intervalSet
    ensures ValidState(t) && Remaining(t) == 0 ==>
      r.minutes == 0 && r.seconds == 0 && !r.running && !r.intervalSet
  {
    if t.seconds > 0 then t.(seconds := t.seconds - 1)
    else if t.minutes > 0 then t.(minutes := t.minutes - 1, seconds := 59)
    else t.(running := false, intervalSet := false)
  }

  /** The start button's handler: nothing while running; otherwise running,
      with an interval created if there is none. */
  function AfterStart(t: TimerState): (r: TimerState)
    ensures ValidState(t) ==> ValidState(r)
    ensures r.running && (ValidState(t) ==> r.intervalSet)
    ensures r.duration == t.duration && r.minutes == t.minutes && r.seconds == t.seconds
    ensures t.running ==> r == t
  {
    if t.running then t else t.(running := true, intervalSet := true)
  }

  /** The pause button's handler: nothing while stopped; otherwise stopped
      with the interval cleared and the time left untouched, so that starting
      again resumes exactly where the timer was. */
  function AfterPause(t: TimerState): (r: TimerState)
    ensures ValidState(t) ==> ValidState(r)
    ensures !r.running
    ensures r.duration == t.duration && r.minutes == t.minutes && r.seconds == t.seconds
    ensures !t.running ==> r == t
    ensures ValidState(t) && t.running ==> AfterStart(r) == t
  {
    if !t.running then t
    else t.(running := false, intervalSet := false)
  }

  /** The reset button's handler: stopped, at the full configured duration. */
  function AfterReset(t: TimerState): (r: TimerState)
    ensures ValidState(t) ==> ValidState(r)
    ensures r.duration == t.duration && !r.running && !r.intervalSet
    ensures Remaining(r) == 60 * t.duration && r.seconds == 0
  {
    t.(minutes := t.duration, seconds := 0, running := false, intervalSet := false)
  }

  /** `updateTimerAdjState`: the plus button is disabled while running or at 90. */
  predicate PlusDisabled(t: TimerState) {
    t.running || t.duration >= MaxMinutes
  }

  /** `updateTimerAdjState`: the minus button is disabled while running or at 5. */
  predicate MinusDisabled(t: TimerState) {
    t.running || t.duration <= MinMinutes
  }

  /** The plus button's handler: 5 minutes more, capped at 90, and the time
      left becomes the new duration. */
  function AfterPlus(t: TimerState): (r: TimerState)
    ensures ValidState(t) ==> ValidState(r)
    ensures r == t <==> PlusDisabled(t)
    ensures ValidState(t) && !t.running && t.duration < MaxMinutes ==>
      r.duration == t.duration + StepMinutes && r.minutes == r.duration && r.seconds == 0
      && r.running == t.running && r.intervalSet == t.intervalSet
  {
    if t.running || t.duration >= MaxMinutes then t
    else
      var d := if t.duration + StepMinutes < MaxMinutes then t.duration + StepMinutes else MaxMinutes;
      if !t.running then t.(duration := d, minutes := d, seconds := 0) else t.(duration := d)
  }

  /** The minus button's handler: 5 minutes less, floored at 5, and the time
      left becomes the new duration. */
  function AfterMinus(t: TimerState): (r: TimerState)
    ensures ValidState(t) ==> ValidState(r)
    ensures r == t <==> MinusDisabled(t)
    ensures ValidState(t) && !t.running && t.duration > MinMinutes ==>
      r.duration == t.duration - StepMinutes && r.minutes == r.duration && r.seconds == 0
      && r.running == t.running && r.intervalSet == t.intervalSet
  {
    if t.running || t.duration <= MinMinutes then t
    else
      var d := if t.duration - StepMinutes > MinMinutes then t.duration - StepMinutes else MinMinutes;
      if !t.running then t.(duration := d, minutes := d, seconds := 0) else t.(duration := d)
  }

  /** The display text, `MM:SS`, always five characters. */
  function Display(t: TimerState): (text: string)
    requires ValidState(t)
    ensures |text| == 5 && text[2] == ':'
    ensures AllDigits(text[..2]) && AllDigits(text[3..])
    ensures DecimalValue(text[..2]) == t.minutes && DecimalValue(text[3..]) == t.seconds
  {
    assert t.minutes <= MaxMinutes;
    FormatTimer(t.minutes, t.seconds)
  }

  /** The state after `n` firings of the interval. */
  function Ticks(t: TimerState, n: nat): TimerState {
    if n == 0 then t else AfterTick(Ticks(t, n - 1))
  }

  /** While time is left, every tick takes exactly one second off and the
      timer keeps running. */
  lemma {:induction false} CountdownIsExact(t: TimerState, n: nat)
    requires ValidState(t) && t.running && n <= Remaining(t)
    ensures ValidState(Ticks(t, n)) && Ticks(t, n).running
    ensures Ticks(t, n).duration == t.duration
    ensures Remaining(Ticks(t, n)) == Remaining(t) - n
  {
    if n > 0 {
      CountdownIsExact(t, n - 1);
    }
  }

  /** A running timer shows `00:00` after as many ticks as it has seconds
      left, still running; the tick after that stops it, at `00:00`. */
  lemma CountdownExpires(t: TimerState)
    requires ValidState(t) && t.running
    ensures ValidState(Ticks(t, Remaining(t))) && Display(Ticks(t, Remaining(t))) == "00:00"
    ensures Ticks(t, Remaining(t)).running
    ensures ValidState(Ticks(t, Remaining(t) + 1)) && Display(Ticks(t, Remaining(t) + 1)) == "00:00"
    ensures !Ticks(t, Remaining(t) + 1).running && Ticks(t, Remaining(t) + 1).duration == t.duration
  {
    var n := Remaining(t);
    CountdownIsExact(t, n);
    var z := Ticks(t, n);
    assert z.minutes == 0 && z.seconds == 0;
    assert Display(z) == FormatTimer(0, 0);
    assert FormatTimer(0, 0) == "00:00";
    assert Ticks(t, n + 1) == AfterTick(z);
  }

  /** From page load, Start and 1500 ticks show `00:00` with the timer still
      running; the 1501st tick stops it. */
  lemma DefaultSession(t: TimerState, n: nat)
    requires t == AfterStart(Initial()) && n == 1500
    ensures ValidState(Ticks(t, n)) && Display(Ticks(t, n)) == "00:00" && Ticks(t, n).running
    ensures ValidState(Ticks(t, n + 1)) && Display(Ticks(t, n + 1)) == "00:00" && !Ticks(t, n + 1).running
  {
    assert Remaining(t) == n;
    CountdownExpires(t);
  }

  /** Any sequence of handler calls keeps the duration a multiple of 5 in [5, 90]. */
  datatype Control = Start | Pause | Reset | Plus | Minus | TickOnce

  function Apply(t: TimerState, c: Control): TimerState {
    match c
    case Start => AfterStart(t)
    case Pause => AfterPause(t)
    case Reset => AfterReset(t)
    case Plus => AfterPlus(t)
    case Minus => AfterMinus(t)
    case TickOnce => if t.intervalSet then AfterTick(t) else t
  }

  function Run(t: TimerState, cs: seq<Control>): TimerState
    decreases |cs|
  {
    if cs == [] then t else Run(Apply(t, cs[0]), cs[1..])
  }

  lemma {:induction false} RunKeepsValid(t: TimerState, cs: seq<Control>)
    requires ValidState(t)
    ensures ValidState(Run(t, cs))
    ensures MinMinutes <= Run(t, cs).duration <= MaxMinutes && Run(t, cs).duration % StepMinutes == 0
    decreases |cs|
  {
    if cs != [] {
      RunKeepsValid(Apply(t, cs[0]), cs[1..]);
    }
  }

  /** The timer widget: the handlers of its five buttons and of the interval
      update these fields in place, together with the display text and the
      disabled state of each button. */
  class Timer {
    var duration: int
    var minutes: int
    var seconds: int
    var running: bool
    var intervalSet: bool
    var startDisabled: bool
    var pauseDisabled: bool
    var plusDisabled: bool
    var minusDisabled: bool

    function State(): TimerState
      reads this
    {
      TimerState(duration, minutes, seconds, running, intervalSet)
    }

    /** The state is valid and each button is disabled exactly when its
        handler would do nothing. */
    predicate Valid()
      reads this
    {
      ValidState(State())
      && startDisabled == running && pauseDisabled == !running
      && plusDisabled == PlusDisabled(State()) && minusDisabled == MinusDisabled(State())
    }

    /** Page load: 25:00, stopped, pause disabled, then the adjust buttons
        refreshed. */
    constructor ()
      ensures Valid() && State() == Initial()
    {
      duration, minutes, seconds := DefaultMinutes, DefaultMinutes, 0;
      running, intervalSet := false, false;
      startDisabled := false;
      pauseDisabled := true;
      new;
      UpdateAdjState();
    }

    method UpdateAdjState()
      modifies this`plusDisabled, this`minusDisabled
      ensures plusDisabled == PlusDisabled(State()) && minusDisabled == MinusDisabled(State())
    {
      plusDisabled := running || duration >= MaxMinutes;
      minusDisabled := running || duration <= MinMinutes;
    }

    /** One firing of the interval. */
    method Tick()
      requires Valid() && intervalSet
      modifies this
      ensures Valid() && State() == AfterTick(old(State()))
    {
      if seconds > 0 {
        seconds := seconds - 1;
      } else if minutes > 0 {
        minutes := minutes - 1;
        seconds := 59;
      } else {
        intervalSet := false;
        running := false;
        startDisabled := false;
        pauseDisabled := true;
        UpdateAdjState();
      }
    }

    method Start()
      requires Valid()
      modifies this
      ensures Valid() && State() == AfterStart(old(State()))
    {
      if running {
        return;
      }
      running := true;
      startDisabled := true;
      pauseDisabled := false;
      UpdateAdjState();
      if !intervalSet {
        intervalSet := true;
      }
    }

    method Pause()
      requires Valid()
      modifies this
      ensures Valid() && State() == AfterPause(old(State()))
    {
      if !running {
        return;
      }
      running := false;
      startDisabled := false;
      pauseDisabled := true;
      if intervalSet {
        intervalSet := false;
      }
      UpdateAdjState();
    }

    method Reset()
      requires Valid()
      modifies this
      ensures Valid() && State() == AfterReset(old(State()))
    {
      minutes := duration;
      seconds := 0;
      running := false;
      if intervalSet {
        intervalSet := false;
      }
      startDisabled := false;
      pauseDisabled := true;
      UpdateAdjState();
    }

    method Plus()
      requires Valid()
      modifies this
      ensures Valid() && State() == AfterPlus(old(State()))
    {
      if running || duration >= MaxMinutes {
        return;
      }
      duration := if duration + StepMinutes < MaxMinutes then duration + StepMinutes else MaxMinutes;
      if !running {
        minutes := duration;
        seconds := 0;
      }
      UpdateAdjState();
    }

    method Minus()
      requires Valid()
      modifies this
      ensures Valid() && State() == AfterMinus(old(State()))
    {
      if running || duration <= MinMinutes {
        return;
      }
      duration := if duration - StepMinutes > MinMinutes then duration - StepMinutes else MinMinutes;
      if !running {
        minutes := duration;
        seconds := 0;
      }
      UpdateAdjState();
    }
  }
}
