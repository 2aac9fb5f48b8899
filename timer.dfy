/**
 * The live state of the timer screen and the handlers that change it: start,
 * pause and reset, the countdown's tick and finish callbacks, the mode chips
 * and the settings controls.
 *
 * The platform countdown is abstracted to what the handlers rely on. Each
 * countdown object started gets a fresh id and records the time it counts
 * down from; `timer` is the single slot that holds the last one started,
 * and `live` is the set of countdowns that have been neither cancelled nor
 * finished, the only ones the platform still calls back. Ticks and the finish
 * are events delivered by a live countdown.
 */
module Timer {
  import opened Schedule

  datatype Option<T> = None | Some(value: T)

  /** A countdown object: its identity and the time it was started from. */
  datatype Countdown = Countdown(id: nat, startMillis: int)

  /** Requests to the device made when a period runs out. */
  datatype Effect = Vibrate | Notify(title: string, text: string)

  /** The notification posted when a period of mode `finished` runs out. */
  function NoticeFor(finished: Mode): (e: Effect)
    ensures e.Notify?
    ensures finished == Work <==> e == Notify("Пора отдохнуть", "Сделай перерыв")
    ensures finished != Work <==> e == Notify("Возвращаемся к работе", "Новый цикл начинается")
  {
    if finished == Work then Notify("Пора отдохнуть", "Сделай перерыв")
    else Notify("Возвращаемся к работе", "Новый цикл начинается")
  }

  class WorkRestTimer {
    var settings: Settings
    var mode: Mode
    var running: bool
    var cyclesSinceLong: int
    var completed: int
    var millisLeft: int
    var timer: Option<Countdown>
    /** Countdowns neither cancelled nor finished: the platform's bookkeeping, not the app's. */
    ghost var live: set<nat>
    var nextId: nat
    /** Vibration and notification requests, oldest first. */
    var effects: seq<Effect>

    /** The ids held in the timer slot: none, or the one countdown last started. */
    function SlotIds(): set<nat>
      reads this
    {
      if timer.Some? then {timer.value.id} else {}
    }

    /**
     * What holds between any two steps of a handler: the settings are in the
     * sliders' ranges, the counters are not negative, and every countdown
     * the platform may still call back is the one in the slot, so at most
     * one is live.
     */
    ghost predicate Coherent()
      reads this
    {
      InRange(settings) &&
      0 <= cyclesSinceLong && 0 <= completed &&
      live <= SlotIds() &&
      (timer.Some? ==> timer.value.id < nextId)
    }

    /**
     * What holds between events: besides `Coherent`, the remaining time lies
     * within the current period, and the timer is running exactly when a
     * countdown is live.
     */
    ghost predicate Valid()
      reads this
    {
      Coherent() &&
      0 <= millisLeft <= DurationFor(settings, mode) &&
      (running <==> live != {})
    }

    /** The part of the state that the period transition acts on. */
    function Counters(): Cycle
      reads this
    {
      Cycle(mode, cyclesSinceLong, completed)
    }

    /** A fresh screen with the stored settings: work mode, not running, the full work period left. */
    constructor (stored: Settings)
      requires InRange(stored)
      ensures Valid()
      ensures settings == stored && mode == Work && !running
      ensures cyclesSinceLong == 0 && completed == 0
      ensures millisLeft == DurationFor(stored, Work)
      ensures timer == None && live == {} && effects == []
    {
      settings := stored;
      mode := Work;
      running := false;
      cyclesSinceLong := 0;
      completed := 0;
      millisLeft := DurationFor(stored, Work);
      timer := None;
      live := {};
      nextId := 0;
      effects := [];
    }

    /**
     * Cancels the countdown in the slot, if any, and starts a new one from the
     * time now left: the timer resumes where it stands rather than starting
     * the period over, and exactly one countdown is live afterwards.
     */
    method StartTimer()
      requires Coherent()
      modifies this
      ensures Coherent()
      ensures running
      ensures timer == Some(Countdown(old(nextId), millisLeft))
      ensures live == {old(nextId)} && nextId == old(nextId) + 1
      ensures millisLeft == old(millisLeft) && mode == old(mode) && settings == old(settings)
      ensures Counters() == old(Counters()) && effects == old(effects)
    {
      if timer.Some? {
        live := live - {timer.value.id};
      }
      running := true;
      timer := Some(Countdown(nextId, millisLeft));
      live := live + {nextId};
      nextId := nextId + 1;
    }

    /** Cancels the countdown in the slot, if any, and stops; the time left stays where it is. */
    method PauseTimer()
      requires Coherent()
      modifies this
      ensures Coherent()
      ensures !running && live == {}
      ensures millisLeft == old(millisLeft) && mode == old(mode) && settings == old(settings)
      ensures Counters() == old(Counters()) && effects == old(effects)
      ensures timer == old(timer) && nextId == old(nextId)
      ensures old(!running && live == {}) ==> unchanged(this)
    {
      if timer.Some? {
        live := live - {timer.value.id};
      }
      running := false;
    }

    /** Pauses and puts the full period of the current mode back on the clock. */
    method ResetTimer()
      requires Coherent()
      modifies this
      ensures Valid()
      ensures !running && live == {}
      ensures millisLeft == DurationFor(settings, mode)
      ensures mode == old(mode) && settings == old(settings)
      ensures Counters() == old(Counters()) && effects == old(effects)
      ensures timer == old(timer) && nextId == old(nextId)
      ensures old(!running && live == {} && millisLeft == DurationFor(settings, mode)) ==> unchanged(this)
    {
      PauseTimer();
      millisLeft := DurationFor(settings, mode);
    }

    /** The live countdown reports the time it has left. */
    method Tick(id: nat, ms: int)
      requires Valid()
      requires id in live && 0 <= ms <= millisLeft
      modifies this
      ensures Valid()
      ensures millisLeft == ms
      ensures running == old(running) && mode == old(mode) && settings == old(settings)
      ensures Counters() == old(Counters()) && effects == old(effects)
      ensures timer == old(timer) && live == old(live) && nextId == old(nextId)
    {
      millisLeft := ms;
    }

    /**
     * The live countdown has run out. The device is asked to vibrate (when
     * enabled) and to post the notice for the period that ended; the counters
     * and the mode take the `Advance` transition; the full new period is put
     * on the clock; and a new countdown starts at once when auto-start is on,
     * otherwise the timer stops. The countdown that finished never fires
     * again.
     */
    method Finish(id: nat)
      requires Valid()
      requires id in live
      modifies this
      ensures Valid()
      ensures Counters() == Advance(old(Counters()), settings.cyclesToLong)
      ensures old(mode) == Work ==> 0 <= cyclesSinceLong < settings.cyclesToLong
      ensures millisLeft == DurationFor(settings, mode)
      ensures effects == old(effects) + (if settings.vibrateOnEnd then [Vibrate] else []) + [NoticeFor(old(mode))]
      ensures running == settings.autoStart
      ensures settings.autoStart ==>
        timer == Some(Countdown(old(nextId), millisLeft)) && live == {old(nextId)} && nextId == old(nextId) + 1
      ensures !settings.autoStart ==> timer == old(timer) && live == {} && nextId == old(nextId)
      ensures id !in live && settings == old(settings)
    {
      live := live - {id};
      millisLeft := 0;
      if settings.vibrateOnEnd {
        effects := effects + [Vibrate];
      }
      effects := effects + [NoticeFor(mode)];
      TakeTransition();
      millisLeft := DurationFor(settings, mode);
      if settings.autoStart {
        StartTimer();
      } else {
        running := false;
      }
    }

    /** The mode and counter update of `Finish`, step by step as the callback does it. */
    method TakeTransition()
      requires Coherent()
      modifies this`mode, this`cyclesSinceLong, this`completed
      ensures Coherent()
      ensures Counters() == Advance(old(Counters()), settings.cyclesToLong)
    {
      if mode == Work {
        completed := completed + 1;
        cyclesSinceLong := cyclesSinceLong + 1;
        if cyclesSinceLong >= settings.cyclesToLong {
          cyclesSinceLong := 0;
          mode := LongBreak;
        } else {
          mode := Break;
        }
      } else {
        mode := Work;
      }
    }

    /** A mode chip: switch to `m` directly, stop, and put the full period of `m` on the clock. */
    method SelectMode(m: Mode)
      requires Valid()
      modifies this
      ensures Valid()
      ensures mode == m && !running && live == {}
      ensures millisLeft == DurationFor(settings, m)
      ensures cyclesSinceLong == old(cyclesSinceLong) && completed == old(completed)
      ensures settings == old(settings) && effects == old(effects)
      ensures timer == old(timer) && nextId == old(nextId)
    {
      mode := m;
      ResetTimer();
    }

    /** The work-minutes slider: a running or paused work period starts over with the new length. */
    method SetWorkMinutes(v: int)
      requires Valid()
      requires 10 <= v <= 120
      modifies this
      ensures Valid()
      ensures settings == old(settings).(workMin := v)
      ensures old(mode) == Work ==> !running && live == {} && millisLeft == DurationFor(settings, Work)
      ensures old(mode) != Work ==>
        running == old(running) && live == old(live) && millisLeft == old(millisLeft)
      ensures Counters() == old(Counters()) && effects == old(effects)
      ensures timer == old(timer) && nextId == old(nextId)
    {
      settings := settings.(workMin := v);
      if mode == Work {
        ResetTimer();
      }
    }

    /** The break-minutes slider: any break, short or long, starts over. */
    method SetBreakMinutes(v: int)
      requires Valid()
      requires 1 <= v <= 60
      modifies this
      ensures Valid()
      ensures settings == old(settings).(breakMin := v)
      ensures old(mode) != Work ==> !running && live == {} && millisLeft == DurationFor(settings, mode)
      ensures old(mode) == Work ==>
        running == old(running) && live == old(live) && millisLeft == old(millisLeft)
      ensures Counters() == old(Counters()) && effects == old(effects)
      ensures timer == old(timer) && nextId == old(nextId)
    {
      settings := settings.(breakMin := v);
      if mode != Work {
        ResetTimer();
      }
    }

    /** The long-break-minutes slider: a long break starts over with the new length. */
    method SetLongBreakMinutes(v: int)
      requires Valid()
      requires 5 <= v <= 60
      modifies this
      ensures Valid()
      ensures settings == old(settings).(longBreakMin := v)
      ensures old(mode) == LongBreak ==>
        !running && live == {} && millisLeft == DurationFor(settings, LongBreak)
      ensures old(mode) != LongBreak ==>
        running == old(running) && live == old(live) && millisLeft == old(millisLeft)
      ensures Counters() == old(Counters()) && effects == old(effects)
      ensures timer == old(timer) && nextId == old(nextId)
    {
      settings := settings.(longBreakMin := v);
      if mode == LongBreak {
        ResetTimer();
      }
    }

    /**
     * The cycles slider: only the setting changes. The count since the last
     * long break is left as it is, so after lowering the setting it can stand
     * at or above the new value until the next work period ends.
     */
    method SetCyclesToLong(v: int)
      requires Valid()
      requires 1 <= v <= 8
      modifies this
      ensures Valid()
      ensures settings == old(settings).(cyclesToLong := v)
      ensures running == old(running) && millisLeft == old(millisLeft)
      ensures Counters() == old(Counters()) && effects == old(effects)
      ensures timer == old(timer) && live == old(live) && nextId == old(nextId)
    {
      settings := settings.(cyclesToLong := v);
    }

    /** The auto-start chip flips the switch and nothing else. */
    method ToggleAutoStart()
      requires Valid()
      modifies this
      ensures Valid()
      ensures settings == old(settings).(autoStart := !old(settings.autoStart))
      ensures running == old(running) && millisLeft == old(millisLeft)
      ensures Counters() == old(Counters()) && effects == old(effects)
      ensures timer == old(timer) && live == old(live) && nextId == old(nextId)
    {
      settings := settings.(autoStart := !settings.autoStart);
    }

    /** The vibration chip flips the switch and nothing else. */
    method ToggleVibrate()
      requires Valid()
      modifies this
      ensures Valid()
      ensures settings == old(settings).(vibrateOnEnd := !old(settings.vibrateOnEnd))
      ensures running == old(running) && millisLeft == old(millisLeft)
      ensures Counters() == old(Counters()) && effects == old(effects)
      ensures timer == old(timer) && live == old(live) && nextId == old(nextId)
    {
      settings := settings.(vibrateOnEnd := !settings.vibrateOnEnd);
    }

    /** The start/pause button: pauses a running timer, starts a stopped one. */
    method StartOrPause()
      requires Valid()
      modifies this
      ensures Valid()
      ensures running == !old(running)
      ensures millisLeft == old(millisLeft) && mode == old(mode) && settings == old(settings)
      ensures Counters() == old(Counters()) && effects == old(effects)
      ensures old(running) ==> live == {} && timer == old(timer) && nextId == old(nextId)
      ensures !old(running) ==>
        timer == Some(Countdown(old(nextId), millisLeft)) && live == {old(nextId)} && nextId == old(nextId) + 1
    {
      if running {
        PauseTimer();
      } else {
        StartTimer();
      }
    }
  }

  /**
   * A client of the handlers: three work periods with a long break due
   * after every third, where the cycles slider is lowered to 2 while the
   * count stands at 2. The count then equals the setting until the next
   * work period ends, which leads to a long break and restarts the count.
   */
  method CyclesSliderScenario()
  {
    var t := new WorkRestTimer(Settings(25, 5, 15, 3, false, false));
    t.StartTimer();
    t.Finish(t.timer.value.id);
    assert t.mode == Break && t.cyclesSinceLong == 1 && !t.running;
    assert t.millisLeft == 5 * MillisPerMinute;
    t.StartTimer();
    t.Finish(t.timer.value.id);
    assert t.mode == Work && t.cyclesSinceLong == 1;
    t.StartTimer();
    t.Finish(t.timer.value.id);
    assert t.mode == Break && t.cyclesSinceLong == 2 && t.completed == 2;
    t.SetCyclesToLong(2);
    assert t.cyclesSinceLong >= t.settings.cyclesToLong;
    t.StartTimer();
    t.Finish(t.timer.value.id);
    t.StartTimer();
    t.Finish(t.timer.value.id);
    assert t.mode == LongBreak && t.cyclesSinceLong == 0 && t.completed == 3;
    assert t.millisLeft == 15 * MillisPerMinute && t.effects[|t.effects| - 1] == NoticeFor(Work);
  }
}
