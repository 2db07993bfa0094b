/**
 * The betting deadline countdown (`components/CountdownTimer.tsx`): the
 * split of the remaining milliseconds into days, hours, minutes and
 * seconds, the once-a-second tick that stops at the deadline and calls
 * `onEnd` once, and the components the timer renders.
 *
 * The remaining time is an object whose keys are listed in insertion order;
 * here it is the sequence of its entries. `Date.now()` is the parameter `now`.
 */
module CountdownTimer {

  const MsPerHour := 1000 * 60 * 60
  const MsPerDay := 1000 * 60 * 60 * 24

  /** One entry of the remaining-time object: its key and its value. */
  datatype Interval = Interval(name: string, value: nat)

  /**
   * `calculateTimeLeft`: nothing when the deadline has passed, otherwise the
   * four fields in the order `dias`, `horas`, `minutos`, `segundos`. The
   * difference is a whole number of milliseconds, so `Math.floor` of the
   * quotient (and of the quotient modulo 24 or 60) is integer division and
   * remainder.
   */
  function CalculateTimeLeft(deadline: int, now: int): (r: seq<Interval>)
    ensures r == [] <==> deadline - now <= 0
    ensures r != [] ==> (&& |r| == 4
                         && r[0].name == "dias" && r[1].name == "horas"
                         && r[2].name == "minutos" && r[3].name == "segundos")
  {
    var difference := deadline - now;
    if difference > 0 then
      [Interval("dias", difference / MsPerDay),
       Interval("horas", (difference / MsPerHour) % 24),
       Interval("minutos", (difference / 1000 / 60) % 60),
       Interval("segundos", (difference / 1000) % 60)]
    else []
  }

  /** Division by a product is division by each factor in turn. */
  lemma DivDiv(a: nat, b: nat, c: nat)
    requires b > 0 && c > 0
    ensures a / b / c == a / (b * c)
  {
    var q, r := a / b, a % b;
    var q2, r2 := q / c, q % c;
    Regroup(a, b, c, q, r, q2, r2);
    RemainderBound(b, c, r, r2);
    DivUnique(a, b * c, q2, b * r2 + r);
  }

  lemma Regroup(a: int, b: int, c: int, q: int, r: int, q2: int, r2: int)
    requires a == b * q + r && q == c * q2 + r2
    ensures a == (b * c) * q2 + (b * r2 + r)
  {
    assert b * q == b * (c * q2) + b * r2;
  }

  lemma RemainderBound(b: int, c: int, r: int, r2: int)
    requires 0 <= r < b && 0 <= r2 < c
    ensures b * r2 + r < b * c
  {
    MulMonotone(r2, c - 1, b);
    assert r2 * b == b * r2 && (c - 1) * b == b * c - b;
  }

  /** The quotient is the only whole number leaving a remainder in range. */
  lemma DivUnique(a: int, m: int, k: int, t: int)
    requires m > 0 && 0 <= t < m && a == k * m + t
    ensures a / m == k
  {
    var q := a / m;
    assert a == q * m + a % m;
    MulMonotone(k + 1, q, m);
    MulMonotone(q + 1, k, m);
  }

  lemma MulMonotone(x: int, y: int, m: int)
    ensures m >= 0 && x <= y ==> x * m <= y * m
  {
    if m >= 0 && x <= y {
      assert y * m - x * m == (y - x) * m;
    }
  }

  /**
   * The fields are a days-hours-minutes-seconds clock: hours below 24,
   * minutes and seconds below 60, and together they account for the
   * remaining time down to the last whole second.
   */
  lemma TimeLeftDecomposes(deadline: int, now: int)
    requires deadline - now > 0
    ensures var r := CalculateTimeLeft(deadline, now);
      var d := deadline - now;
      && r[0].value == d / 86400000
      && r[1].value < 24 && r[2].value < 60 && r[3].value < 60
      && r[0].value * 86400000 + r[1].value * 3600000 + r[2].value * 60000 + r[3].value * 1000 <= d
      && d < r[0].value * 86400000 + r[1].value * 3600000 + r[2].value * 60000 + r[3].value * 1000 + 1000
  {
    var d := deadline - now;
    var s := d / 1000;
    var m := s / 60;
    var h := m / 60;
    var days := h / 24;
    DivDiv(d, 1000, 60);
    DivDiv(d, 60000, 60);
    DivDiv(d, 3600000, 24);
    DivDiv(s, 60, 60);
    assert m == d / 60000;
    assert h == d / 3600000;
    assert days == d / 86400000;
    assert s == 60 * m + s % 60;
    assert m == 60 * h + m % 60;
    assert h == 24 * days + h % 24;
    assert d == 1000 * s + d % 1000;
    calc {
      days * 86400000 + (h % 24) * 3600000 + (m % 60) * 60000 + (s % 60) * 1000;
      (24 * days + h % 24) * 3600000 + (m % 60) * 60000 + (s % 60) * 1000;
      h * 3600000 + (m % 60) * 60000 + (s % 60) * 1000;
      (60 * h + m % 60) * 60000 + (s % 60) * 1000;
      m * 60000 + (s % 60) * 1000;
      (60 * m + s % 60) * 1000;
      s * 1000;
    }
  }

  /** Once the deadline has passed it stays passed. */
  lemma ExpiredStaysExpired(deadline: int, now: int, later: int)
    requires CalculateTimeLeft(deadline, now) == [] && now <= later
    ensures CalculateTimeLeft(deadline, later) == []
  {
  }

  /**
   * The effect run after each render: nothing is scheduled once the
   * remaining time is empty; otherwise, a second later, the remaining time
   * is recomputed and `onEnd` is called exactly when it has become empty.
   * Returns the new remaining time, whether a tick was scheduled and whether `onEnd`
   * was called.
   */
  function TickOutcome(timeLeft: seq<Interval>, deadline: int, now: int): (r: (seq<Interval>, bool, bool))
    ensures timeLeft == [] ==> r == (timeLeft, false, false)
    ensures timeLeft != [] ==> r.0 == CalculateTimeLeft(deadline, now) && r.1 && (r.2 <==> r.0 == [])
  {
    if timeLeft == [] then (timeLeft, false, false)
    else
      var newTimeLeft := CalculateTimeLeft(deadline, now);
      (newTimeLeft, true, newTimeLeft == [])
  }

  /** How often `onEnd` is called over the ticks at the given instants. */
  function EndCalls(timeLeft: seq<Interval>, deadline: int, instants: seq<int>): nat
    decreases |instants|
  {
    if instants == [] then 0
    else
      var (next, _, ended) := TickOutcome(timeLeft, deadline, instants[0]);
      (if ended then 1 else 0) + EndCalls(next, deadline, instants[1..])
  }

  /** After the remaining time is empty, no tick calls `onEnd`. */
  lemma {:induction false} NoEndAfterExpiry(deadline: int, instants: seq<int>)
    ensures EndCalls([], deadline, instants) == 0
  {
    if instants != [] {
      NoEndAfterExpiry(deadline, instants[1..]);
    }
  }

  /** However many ticks run, `onEnd` is called at most once. */
  lemma {:induction false} EndCalledAtMostOnce(timeLeft: seq<Interval>, deadline: int, instants: seq<int>)
    ensures EndCalls(timeLeft, deadline, instants) <= 1
    decreases |instants|
  {
    if instants != [] {
      var (next, _, ended) := TickOutcome(timeLeft, deadline, instants[0]);
      if ended {
        NoEndAfterExpiry(deadline, instants[1..]);
      } else {
        EndCalledAtMostOnce(next, deadline, instants[1..]);
      }
    }
  }

  /** The timer's state: the deadline it counts to and the remaining time last computed. */
  class Countdown {
    const deadline: int
    var timeLeft: seq<Interval>

    /** `useState(calculateTimeLeft())` */
    constructor (deadline: int, now: int)
      ensures this.deadline == deadline && timeLeft == CalculateTimeLeft(deadline, now)
    {
      this.deadline := deadline;
      timeLeft := CalculateTimeLeft(deadline, now);
    }

    /** One run of the effect and, when scheduled, of its timeout a second later at `now`. */
    method Tick(now: int) returns (ticked: bool, endCalled: bool)
      modifies this
      ensures (timeLeft, ticked, endCalled) == TickOutcome(old(timeLeft), deadline, now)
    {
      if |timeLeft| == 0 {
        return false, false;
      }
      var newTimeLeft := CalculateTimeLeft(deadline, now);
      endCalled := |newTimeLeft| == 0;
      timeLeft := newTimeLeft;
      ticked := true;
    }
  }

  /** One rendered field: its key, the number shown and the caption. */
  datatype Component = Component(key: string, value: nat, caption: string)

  /** `Object.keys(timeLeft).forEach(interval => timerComponents.push(…))` */
  method TimerComponents(timeLeft: seq<Interval>) returns (components: seq<Component>)
    ensures |components| == |timeLeft|
    ensures forall i :: 0 <= i < |timeLeft| ==>
      components[i] == Component(timeLeft[i].name, timeLeft[i].value, timeLeft[i].name)
  {
    components := [];
    var i := 0;
    while i < |timeLeft|
      invariant i <= |timeLeft|
      invariant |components| == i
      invariant forall j :: 0 <= j < i ==>
        components[j] == Component(timeLeft[j].name, timeLeft[j].value, timeLeft[j].name)
    {
      var interval := timeLeft[i];
      components := components + [Component(interval.name, interval.value, interval.name)];
      i := i + 1;
    }
  }

  /** What the timer shows: its components, or the time-up message when there are none. */
  datatype View = Counting(components: seq<Component>) | TimeUp(message: string)

  function Display(components: seq<Component>): (v: View)
    ensures v.TimeUp? <==> components == []
    ensures v.TimeUp? ==> v.message == "Tempo esgotado!"
  {
    if |components| > 0 then Counting(components) else TimeUp("Tempo esgotado!")
  }

  /** The time-up message shows exactly when the deadline has passed. */
  method Render(deadline: int, now: int) returns (v: View)
    ensures v.TimeUp? <==> deadline - now <= 0
    ensures v.Counting? ==> |v.components| == 4
  {
    var components := TimerComponents(CalculateTimeLeft(deadline, now));
    v := Display(components);
  }
}
