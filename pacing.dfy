/**
 * `wait_with_countdown`: wait a random whole number of seconds, one second
 * at a time, telling an optional callback how many seconds are left before
 * each one; and the minutes-and-seconds view the campaign's callback shows.
 *
 * The random draw is a parameter constrained to its range, and the calls to
 * the callback and to `time.sleep` are recorded as a trace.
 */
module Pacing {
  datatype Effect = Notify(remaining: int) | Sleep(seconds: nat)

  /** The values `delay, delay - 1, ..., 1` that `range(delay, 0, -1)` yields; none when `delay <= 0`. */
  function Countdown(delay: int): (r: seq<int>)
    ensures |r| == (if delay > 0 then delay else 0)
    ensures forall k :: 0 <= k < |r| ==> r[k] == delay - k
    decreases delay
  {
    if delay <= 0 then [] else [delay] + Countdown(delay - 1)
  }

  /** What one second of the wait does: tell the callback, if any, then sleep. */
  function Tick(remaining: int, hasCallback: bool): seq<Effect> {
    (if hasCallback then [Notify(remaining)] else []) + [Sleep(1)]
  }

  /** The trace of waiting `delay` seconds. */
  function Schedule(delay: int, hasCallback: bool): seq<Effect>
    decreases delay
  {
    if delay <= 0 then [] else Tick(delay, hasCallback) + Schedule(delay - 1, hasCallback)
  }

  /** The values passed to the callback, in order. */
  function Notified(es: seq<Effect>): seq<int> {
    if |es| == 0 then []
    else (if es[0].Notify? then [es[0].remaining] else []) + Notified(es[1..])
  }

  /** The total number of seconds slept. */
  function Slept(es: seq<Effect>): nat {
    if |es| == 0 then 0
    else (if es[0].Sleep? then es[0].seconds else 0) + Slept(es[1..])
  }

  lemma {:induction false} NotifiedAppend(a: seq<Effect>, b: seq<Effect>)
    ensures Notified(a + b) == Notified(a) + Notified(b)
    decreases |a|
  {
    if |a| == 0 {
      assert a + b == b;
    } else {
      var head := if a[0].Notify? then [a[0].remaining] else [];
      assert (a + b)[0] == a[0] && (a + b)[1..] == a[1..] + b;
      assert Notified(a + b) == head + Notified(a[1..] + b);
      NotifiedAppend(a[1..], b);
    }
  }

  lemma {:induction false} SleptAppend(a: seq<Effect>, b: seq<Effect>)
    ensures Slept(a + b) == Slept(a) + Slept(b)
    decreases |a|
  {
    if |a| == 0 {
      assert a + b == b;
    } else {
      assert (a + b)[1..] == a[1..] + b;
      SleptAppend(a[1..], b);
    }
  }

  /**
   * The callback hears `delay, delay - 1, ..., 1`, strictly decreasing, or
   * nothing when there is none; either way the wait lasts `delay` seconds.
   */
  lemma {:induction false} ScheduleMeans(delay: int, hasCallback: bool)
    ensures Notified(Schedule(delay, hasCallback)) == (if hasCallback then Countdown(delay) else [])
    ensures Slept(Schedule(delay, hasCallback)) == (if delay > 0 then delay else 0)
    decreases delay
  {
    if delay > 0 {
      var t := Tick(delay, hasCallback);
      NotifiedAppend(t, Schedule(delay - 1, hasCallback));
      SleptAppend(t, Schedule(delay - 1, hasCallback));
      if hasCallback {
        assert t == [Notify(delay)] + [Sleep(1)];
        NotifiedAppend([Notify(delay)], [Sleep(1)]);
        SleptAppend([Notify(delay)], [Sleep(1)]);
      } else {
        assert t == [Sleep(1)];
      }
      ScheduleMeans(delay - 1, hasCallback);
    }
  }

  /** `wait_with_countdown`, with `delay` the value `random.randint(minSeconds, maxSeconds)` drew. */
  method WaitWithCountdown(minSeconds: int, maxSeconds: int, delay: int, hasCallback: bool)
    returns (effects: seq<Effect>)
    requires minSeconds <= delay <= maxSeconds
    ensures effects == Schedule(delay, hasCallback)
  {
    effects := [];
    var i := delay;
    while i > 0
      invariant i <= delay || delay <= 0
      invariant effects + Schedule(i, hasCallback) == Schedule(delay, hasCallback)
      decreases i
    {
      if hasCallback {
        effects := effects + [Notify(i)];
      }
      effects := effects + [Sleep(1)];
      i := i - 1;
    }
  }

  /** The minutes and seconds the cooling-down message shows. */
  datatype Clock = Clock(mins: int, secs: int)

  /** `remaining // 60` and `remaining % 60`: Python floors, which for a positive divisor agrees with Dafny's division. */
  function CountdownDisplay(remaining: int): (c: Clock)
    ensures 0 <= c.secs < 60
    ensures remaining == 60 * c.mins + c.secs
  {
    Clock(remaining / 60, remaining % 60)
  }

  /** The display is the unique minutes-and-seconds split, so distinct remaining times look different. */
  lemma DisplayUnique(remaining: int, c: Clock)
    requires 0 <= c.secs < 60 && remaining == 60 * c.mins + c.secs
    ensures CountdownDisplay(remaining) == c
  {
  }

  /** During the campaign's 60 to 120 second pause the display stays within two minutes. */
  lemma CampaignPauseDisplay(delay: int, k: nat)
    requires 60 <= delay <= 120 && k < |Countdown(delay)|
    ensures var c := CountdownDisplay(Countdown(delay)[k]);
            0 <= c.mins <= 2 && (c.mins == 2 ==> c.secs == 0)
  {
  }
}
