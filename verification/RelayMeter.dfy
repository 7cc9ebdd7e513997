/** The rate limiter for free transactions: an exponentially decaying byte count. */
module RelayMeter {

  /** `total` is the decaying count, `last` the unix time it was last brought up to date. */
  datatype Meter = Meter(total: real, last: int)
  datatype Attempt = Attempt(now: int, size: nat)

  const MAX_CHARGE := 49000

  /** (1 - 1/600)^n */
  function Pow(n: nat): (r: real)
    ensures 0.0 < r <= 1.0
  {
    if n == 0 then 1.0 else Pow(n - 1) * 599.0 / 600.0
  }

  /** `x` times (1 - 1/600)^n, one second at a time. */
  function Fade(x: real, n: nat): (r: real)
    ensures 0.0 <= x ==> 0.0 <= r <= x
    ensures x == 0.0 ==> r == 0.0
  {
    if n == 0 then x else Fade(x, n - 1) * 599.0 / 600.0
  }

  /** The same for a negative number of seconds: a clock set back inflates the count. */
  function Inflate(x: real, n: nat): (r: real)
    ensures x == 0.0 ==> r == 0.0
  {
    if n == 0 then x else Inflate(x, n - 1) * 600.0 / 599.0
  }

  function Decayed(m: Meter, now: int): Meter {
    Meter(if now < m.last then Inflate(m.total, m.last - now) else Fade(m.total, now - m.last), now)
  }

  predicate Passes(limit: real, m: Meter, a: Attempt) {
    Decayed(m, a.now).total < limit
  }

  function Charge(limit: real, m: Meter, a: Attempt): Meter {
    var d := Decayed(m, a.now);
    if d.total < limit then d.(total := d.total + a.size as real) else d
  }

  /** The bytes let through by one attempt. */
  function Passed(limit: real, m: Meter, a: Attempt): (c: real)
    ensures 0.0 <= c
    ensures Charge(limit, m, a).total == Decayed(m, a.now).total + c
  {
    if Passes(limit, m, a) then a.size as real else 0.0
  }

  /** The meter after a whole history of low-fee transactions. */
  function Replay(limit: real, log: seq<Attempt>): Meter {
    if log == [] then Meter(0.0, 0)
    else Charge(limit, Replay(limit, log[..|log| - 1]), log[|log| - 1])
  }

  ghost predicate ClockMonotone(log: seq<Attempt>) {
    forall i, j :: 0 <= i <= j < |log| ==> log[i].now <= log[j].now
  }

  ghost predicate ChargesBounded(log: seq<Attempt>) {
    forall a :: a in log ==> a.size < MAX_CHARGE
  }

  /** Bytes let through by attempts i..j of the history. */
  ghost function Relayed(limit: real, log: seq<Attempt>, i: nat, j: nat): (r: real)
    requires i <= j <= |log|
    ensures 0.0 <= r
  {
    if i == j then 0.0
    else Relayed(limit, log, i, j - 1) + Passed(limit, Replay(limit, log[..j - 1]), log[j - 1])
  }

  lemma {:induction false} FadeIsPow(x: real, n: nat)
    ensures Fade(x, n) == x * Pow(n)
  {
    if n > 0 {
      FadeIsPow(x, n - 1);
      var p := Pow(n - 1);
      assert x * p * 599.0 / 600.0 == x * (p * 599.0 / 600.0);
    }
  }

  lemma UndoneStep(i: real, p: real, a: real, b: real)
    requires a * 599.0 == i * 600.0 && b * 600.0 == p * 599.0
    ensures a * b == i * p
  {
    assert (a * 599.0) * (b * 600.0) == (i * 600.0) * (p * 599.0);
    assert (a * b) * (599.0 * 600.0) == (i * p) * (599.0 * 600.0);
  }

  lemma {:induction false} InflateTimesPow(x: real, n: nat)
    ensures Inflate(x, n) * Pow(n) == x
  {
    if n > 0 {
      InflateTimesPow(x, n - 1);
      UndoneStep(Inflate(x, n - 1), Pow(n - 1), Inflate(x, n), Pow(n));
    }
  }

  /** Setting the clock back by some seconds is undone when those seconds pass again. */
  lemma FadeUndoesInflate(x: real, n: nat)
    ensures Fade(Inflate(x, n), n) == x
  {
    InflateTimesPow(x, n);
    FadeIsPow(Inflate(x, n), n);
  }

  lemma {:induction false} FadeMono(x: real, y: real, n: nat)
    requires x <= y
    ensures Fade(x, n) <= Fade(y, n)
  {
    if n > 0 {
      FadeMono(x, y, n - 1);
    }
  }

  lemma {:induction false} FadeAdds(x: real, c: real, n: nat)
    ensures Fade(x + c, n) == Fade(x, n) + Fade(c, n)
  {
    if n > 0 {
      FadeAdds(x, c, n - 1);
    }
  }

  lemma {:induction false} FadeTwice(x: real, a: nat, b: nat)
    ensures Fade(x, a + b) == Fade(Fade(x, a), b)
  {
    if b > 0 {
      FadeTwice(x, a, b - 1);
    }
  }

  lemma ReplayStep(limit: real, log: seq<Attempt>, k: nat)
    requires k < |log|
    ensures Replay(limit, log[..k + 1]) == Charge(limit, Replay(limit, log[..k]), log[k])
    ensures Replay(limit, log[..k + 1]).last == log[k].now
  {
    assert log[..k + 1][..k] == log[..k];
  }

  /** The count never reaches the limit plus one maximal transaction. */
  lemma {:induction false} TotalBounded(limit: real, log: seq<Attempt>)
    requires 0.0 <= limit && ClockMonotone(log) && ChargesBounded(log)
    ensures 0.0 <= Replay(limit, log).total < limit + MAX_CHARGE as real
  {
    if log != [] {
      var n := |log| - 1;
      TotalBounded(limit, log[..n]);
      if n > 0 {
        ReplayStep(limit, log, n - 1);
      }
      assert log[n] in log;
    }
  }

  /** Bytes `r` aged `before` seconds weigh at most `total`; after `dt` more seconds and
      `c` more bytes they weigh at most the new total. */
  lemma CountStep(r: real, c: real, before: nat, dt: nat, total: real)
    requires 0.0 <= c && Fade(r, before) <= total
    ensures Fade(r + c, before + dt) <= Fade(total, dt) + c
  {
    FadeAdds(r, c, before + dt);
    FadeTwice(r, before, dt);
    FadeMono(Fade(r, before), total, dt);
  }

  lemma RelayedStep(limit: real, log: seq<Attempt>, i: nat, n: nat) returns (c: real)
    requires i < n < |log| && log[n - 1].now <= log[n].now
    ensures 0.0 <= c && Relayed(limit, log, i, n + 1) == Relayed(limit, log, i, n) + c
    ensures Replay(limit, log[..n + 1]).total ==
            Fade(Replay(limit, log[..n]).total, log[n].now - log[n - 1].now) + c
  {
    ReplayStep(limit, log, n);
    ReplayStep(limit, log, n - 1);
    c := Passed(limit, Replay(limit, log[..n]), log[n]);
  }

  lemma RelayedFirst(limit: real, log: seq<Attempt>, n: nat)
    requires 0.0 <= limit && ClockMonotone(log) && ChargesBounded(log) && n < |log|
    ensures Relayed(limit, log, n, n + 1) <= Replay(limit, log[..n + 1]).total
  {
    ReplayStep(limit, log, n);
    TotalBounded(limit, log[..n]);
    if n > 0 {
      ReplayStep(limit, log, n - 1);
    }
    assert Relayed(limit, log, n, n + 1) == Passed(limit, Replay(limit, log[..n]), log[n]);
  }

  /** Every relayed byte still counts, faded by at most its age. */
  lemma {:induction false} RelayedStillCounted(limit: real, log: seq<Attempt>, i: nat, j: nat)
    requires 0.0 <= limit && ClockMonotone(log) && ChargesBounded(log) && i < j <= |log|
    ensures Fade(Relayed(limit, log, i, j), log[j - 1].now - log[i].now) <= Replay(limit, log[..j]).total
  {
    hide Charge, Passed, Decayed, Replay, Relayed;
    var n := j - 1;
    if i == n {
      RelayedFirst(limit, log, n);
    } else {
      RelayedStillCounted(limit, log, i, n);
      var c := RelayedStep(limit, log, i, n);
      CountStep(Relayed(limit, log, i, n), c, log[n - 1].now - log[i].now, log[n].now - log[n - 1].now,
        Replay(limit, log[..n]).total);
    }
  }

  lemma WindowFaded(limit: real, log: seq<Attempt>, i: nat, j: nat, seconds: nat)
    requires 0.0 <= limit && ClockMonotone(log) && ChargesBounded(log) && i < j <= |log|
    requires log[j - 1].now - log[i].now <= seconds
    ensures Fade(Relayed(limit, log, i, j), seconds) < limit + MAX_CHARGE as real
  {
    hide Relayed, Charge;
    var span := log[j - 1].now - log[i].now;
    RelayedStillCounted(limit, log, i, j);
    TotalBounded(limit, log[..j]);
    FadeTwice(Relayed(limit, log, i, j), span, seconds - span);
  }

  lemma ProductBound(x: real, n: nat, p: real, bound: real)
    requires Fade(x, n) < bound && p == Pow(n)
    ensures x * p < bound
  {
    FadeIsPow(x, n);
  }

  /** Free bytes relayed within any window of `seconds` are below
      (limit + 49000) / (599/600)^seconds. */
  lemma WindowBounded(limit: real, log: seq<Attempt>, i: nat, j: nat, seconds: nat, relayed: real, p: real)
    requires 0.0 <= limit && ClockMonotone(log) && ChargesBounded(log) && i < j <= |log|
    requires log[j - 1].now - log[i].now <= seconds
    requires relayed == Relayed(limit, log, i, j) && p == Pow(seconds)
    ensures relayed * p < limit + MAX_CHARGE as real
  {
    WindowFaded(limit, log, i, j, seconds);
    ProductBound(relayed, seconds, p, limit + MAX_CHARGE as real);
  }
}
