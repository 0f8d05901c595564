/** The timeval arithmetic that the resolver's deadlines rest on. */
module TimeArith {
  datatype Timeval = Timeval(sec: int, usec: int)

  const ZERO := Timeval(0, 0)

  ghost predicate Normal(tv: Timeval) {
    0 <= tv.usec < 1_000_000
  }

  /** The reading of a timeval as one number. */
  function Micros(tv: Timeval): int {
    tv.sec * 1_000_000 + tv.usec
  }

  /** timevaladd: a deadline ms milliseconds after tv. */
  function AddMs(tv: Timeval, ms: nat): (r: Timeval)
    requires Normal(tv)
    ensures Normal(r) && Micros(r) == Micros(tv) + ms * 1000
    ensures r.sec >= tv.sec + ms / 1000
  {
    var usec := tv.usec + (ms % 1000) * 1000;
    var sec := tv.sec + ms / 1000;
    if usec >= 1_000_000 then Timeval(sec + 1, usec - 1_000_000) else Timeval(sec, usec)
  }

  /** timercmp(a, b, >) */
  predicate After(a: Timeval, b: Timeval) {
    a.sec > b.sec || (a.sec == b.sec && a.usec > b.usec)
  }

  lemma AfterIsMicros(a: Timeval, b: Timeval)
    requires Normal(a) && Normal(b)
    ensures After(a, b) <==> Micros(a) > Micros(b)
  {
    if a.sec != b.sec {
      assert a.sec * 1_000_000 - b.sec * 1_000_000 == (a.sec - b.sec) * 1_000_000;
    }
  }

  /** ldiv truncates toward zero. */
  function TruncDiv(a: int, b: int): int
    requires b > 0
  {
    if a >= 0 then a / b else -((-a) / b)
  }

  /** Microseconds from now to the deadline, or zero if it has passed. */
  function Until(now: Timeval, deadline: Timeval): int {
    if Micros(deadline) > Micros(now) then Micros(deadline) - Micros(now) else 0
  }

  /** The clamped subtraction of inter_maxtoabs: the borrow of two seconds makes the
      dividend positive, so that the truncated quotient normalises the result. */
  function WaitUntil(now: Timeval, deadline: Timeval): (r: Timeval)
    requires Normal(now) && Normal(deadline)
    ensures Normal(r) && r.sec >= 0
    ensures Micros(r) == Until(now, deadline)
  {
    var sec := deadline.sec - (now.sec + 2);
    var usec := deadline.usec - (now.usec - 2_000_000);
    var quot := TruncDiv(usec, 1_000_000);
    assert quot == if usec < 2_000_000 then 1 else 2;
    var d := Timeval(sec + quot, usec - quot * 1_000_000);
    if d.sec < 0 then ZERO else d
  }

  /** What the caller of adns_firsttimeout passes in and gets back: no timeout wanted
      (a null tv_io), no bound yet (a null timeval), or a bound. */
  datatype Wait = NotAsked | Unbounded | AtMost(tv: Timeval)

  ghost predicate WaitOk(w: Wait) {
    w.AtMost? ==> Normal(w.tv) && w.tv.sec >= 0
  }

  /** w promises to wake up within `micros` from now. */
  ghost predicate WakesBy(w: Wait, micros: int) {
    w.NotAsked? || (w.AtMost? && Micros(w.tv) <= micros)
  }

  /** w' is at least as impatient as w. */
  ghost predicate Tighter(w': Wait, w: Wait) {
    (w'.NotAsked? <==> w.NotAsked?) &&
    (w.AtMost? ==> w'.AtMost? && Micros(w'.tv) <= Micros(w.tv))
  }

  lemma TighterWakes(w': Wait, w: Wait, micros: int)
    requires Tighter(w', w) && WakesBy(w, micros)
    ensures WakesBy(w', micros)
  {
  }

  /** inter_immed */
  function Immediately(w: Wait): (r: Wait)
    ensures WaitOk(r)
    ensures WakesBy(r, 0)
    ensures WaitOk(w) ==> Tighter(r, w)
  {
    if w.NotAsked? then w else AtMost(ZERO)
  }

  /** inter_maxto */
  function NoLongerThan(w: Wait, maxto: Timeval): (r: Wait)
    requires WaitOk(w) && Normal(maxto) && maxto.sec >= 0
    ensures WaitOk(r) && Tighter(r, w)
    ensures WakesBy(r, Micros(maxto))
    ensures r.AtMost? ==> r == w || r.tv == maxto
  {
    match w
    case NotAsked => w
    case Unbounded => AtMost(maxto)
    case AtMost(tv) =>
      AfterIsMicros(tv, maxto);
      if After(tv, maxto) then AtMost(maxto) else w
  }

  /** inter_maxtoabs */
  function NoLaterThan(w: Wait, now: Timeval, deadline: Timeval): (r: Wait)
    requires WaitOk(w) && Normal(now) && Normal(deadline)
    ensures WaitOk(r) && Tighter(r, w)
    ensures WakesBy(r, Until(now, deadline))
  {
    if w.NotAsked? then w else NoLongerThan(w, WaitUntil(now, deadline))
  }

  /** What timeouts_queue makes of one deadline when it may not act. */
  function WakeFor(w: Wait, now: Timeval, deadline: Timeval): (r: Wait)
    requires WaitOk(w) && Normal(now) && Normal(deadline)
    ensures WaitOk(r) && Tighter(r, w) && WakesBy(r, Until(now, deadline))
    ensures After(now, deadline) ==> WakesBy(r, 0)
  {
    assert After(now, deadline) ==> Until(now, deadline) == 0 by {
      AfterIsMicros(now, deadline);
    }
    if !After(now, deadline) then NoLaterThan(w, now, deadline) else Immediately(w)
  }
}
