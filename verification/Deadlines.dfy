/**
 * Points in time as (seconds, milliseconds) pairs, and the arithmetic the event
 * loop does on them.
 */
module Deadlines {
  import opened Base

  // C division and remainder: truncation towards zero.
  function TruncDiv(a: int, b: int): int
    requires 0 < b
  {
    if 0 <= a then a / b else -((-a) / b)
  }

  function TruncMod(a: int, b: int): int
    requires 0 < b
  {
    a - TruncDiv(a, b) * b
  }

  datatype Time = Time(sec: int, ms: int) {
    function Millis(): int {
      sec * 1000 + ms
    }

    predicate Normal() {
      0 <= ms < 1000
    }

    // The comparison the timer code writes out: seconds first, then millis.
    predicate Before(t: Time) {
      sec < t.sec || (sec == t.sec && ms < t.ms)
    }

    // `now` has reached this time.
    predicate Reached(now: Time) {
      now.sec > sec || (now.sec == sec && now.ms >= ms)
    }
  }

  function AddMilliseconds(now: Time, delay: int): Time {
    var t := Time(now.sec + TruncDiv(delay, 1000), now.ms + TruncMod(delay, 1000));
    if t.ms >= 1000 then Time(t.sec + 1, t.ms - 1000) else t
  }

  // The deadline is exact for every delay, negative ones included; it is a
  // normal pair if and only if the milliseconds do not go below zero, which no
  // nonnegative delay makes them do.
  lemma DeadlineExact(now: Time, delay: int)
    requires now.Normal()
    ensures var t := AddMilliseconds(now, delay);
            && t.Millis() == now.Millis() + delay
            && (t.Normal() <==> 0 <= now.ms + TruncMod(delay, 1000))
            && (0 <= delay ==> t.Normal())
  {
  }

  lemma NegativeDelayUnnormalized()
    ensures !AddMilliseconds(Time(10, 0), -1).Normal()
  {
  }

  // On normal pairs the two-part comparisons order times as their totals do.
  lemma OrderIsTotal(a: Time, b: Time)
    requires a.Normal() && b.Normal()
    ensures a.Before(b) <==> a.Millis() < b.Millis()
    ensures a.Reached(b) <==> a.Millis() <= b.Millis()
  {
  }

  datatype TimeVal = TimeVal(sec: int, usec: int) {
    // What the epoll back end passes to the kernel.
    function Millis(): int {
      sec * 1000 + usec / 1000
    }
  }

  function TimeUntil(when: Time, now: Time): TimeVal {
    var tv := if when.ms < now.ms then TimeVal(when.sec - now.sec - 1, (when.ms + 1000 - now.ms) * 1000)
              else TimeVal(when.sec - now.sec, (when.ms - now.ms) * 1000);
    TimeVal(if tv.sec < 0 then 0 else tv.sec, if tv.usec < 0 then 0 else tv.usec)
  }

  // A deadline ahead is waited for exactly.  A deadline behind is waited for by
  // the difference of the millisecond parts alone: less than a second, and not
  // at all if and only if those parts agree.
  lemma WaitIsGap(when: Time, now: Time)
    requires when.Normal() && now.Normal()
    ensures var w := TimeUntil(when, now).Millis();
            && (now.Millis() <= when.Millis() ==> w == when.Millis() - now.Millis())
            && (when.Millis() < now.Millis() ==>
                  0 <= w < 1000 && w == (when.ms - now.ms) % 1000 && (w == 0 <==> when.ms == now.ms))
  {
  }

  // One millisecond overdue, and waited for almost a second.
  lemma OverdueWaits()
    ensures Time(9, 999).Millis() + 1 == Time(10, 0).Millis() && TimeUntil(Time(9, 999), Time(10, 0)).Millis() == 999
  {
  }

  // How long one round of event processing sleeps in the kernel.
  datatype Sleep = NoPoll | Forever | For(ms: int)

  function SleepTime(nearest: Option<Time>, now: Time, timeout: int, maxfd: int): Sleep {
    if maxfd == -1 && timeout == 0 then NoPoll
    else if timeout != 0 && nearest.Some? then For(TimeUntil(nearest.value, now).Millis())
    else if timeout > 0 then For(TimeVal(TruncDiv(timeout, 1000), TruncMod(timeout, 1000) * 1000).Millis())
    else if timeout == 0 then For(0)
    else Forever
  }

  // Whatever deadline is nearest, the loop wakes no later than any deadline
  // still ahead when none is overdue, never sleeps a full second when one is,
  // and keeps to the caller's timeout when there is no timer.
  lemma SleepMeetsDeadlines(nearest: Option<Time>, now: Time, timeout: int, maxfd: int, t: Time)
    requires now.Normal() && t.Normal() && timeout != 0
    requires nearest.Some? ==> nearest.value.Normal() && nearest.value.Millis() <= t.Millis()
    ensures var s := SleepTime(nearest, now, timeout, maxfd);
            if nearest.Some? then
              && s.For?
              && (now.Millis() <= nearest.value.Millis() ==> now.Millis() + s.ms <= t.Millis())
              && (nearest.value.Millis() < now.Millis() ==> 0 <= s.ms < 1000)
            else if 0 < timeout then s == For(timeout) else s == Forever
  {
    if nearest.Some? {
      WaitIsGap(nearest.value, now);
    }
  }
}
