/** Retry policies: stateful counters, cloned for every Execute. */
module Policy {
  import opened Model
  import opened Program

  // ---- the backoff law, over the reals ----

  function Pow(factor: real, n: nat): real {
    if n == 0 then 1.0 else Pow(factor, n - 1) * factor
  }

  function Min(a: real, b: real): real {
    if b < a then b else a
  }

  /** The delay after the k-th failure. */
  function BackoffDelay(initial: Time, factor: real, cap: Time, k: nat): real
    requires k >= 1
  {
    Min(initial as real * Pow(factor, k - 1), cap as real)
  }

  /** Conversion of a floating-point duration: towards zero. */
  function Trunc(d: real): Time {
    if d < 0.0 then -((-d).Floor) else d.Floor
  }

  /** What a policy answers to the n-th failure of fn. */
  function DelayAfter(r: Retry, failures: nat): Time
    requires failures >= 1
  {
    match r
    case NoRetry => 0
    case Fixed(delay, _) => if MayRetry(r, failures) then delay else 0
    case Backoff(initial, factor, cap, _) =>
      if MayRetry(r, failures) then Trunc(BackoffDelay(initial, factor, cap, failures)) else 0
  }

  /** The product built up one factor at a time. */
  function Grown(x: real, factor: real, n: nat): real {
    if n == 0 then x else Grown(x, factor, n - 1) * factor
  }

  lemma {:induction false} GrownIsPow(x: real, factor: real, n: nat)
    ensures Grown(x, factor, n) == x * Pow(factor, n)
  {
    if n > 0 {
      GrownIsPow(x, factor, n - 1);
      MulAssoc(x, Pow(factor, n - 1), factor);
    }
  }

  lemma {:induction false} GrownGrows(x: real, factor: real, m: nat, n: nat)
    requires x >= 0.0 && factor >= 1.0 && m <= n
    ensures 0.0 <= Grown(x, factor, m) <= Grown(x, factor, n)
    decreases n
  {
    if n > 0 {
      GrownGrows(x, factor, if m < n then m else n - 1, n - 1);
      MulMore(Grown(x, factor, n - 1), factor);
    }
  }

  lemma MulMore(x: real, f: real)
    requires x >= 0.0 && f >= 1.0
    ensures x <= x * f
  {
    assert x * (f - 1.0) >= 0.0;
  }

  lemma MulAssoc(x: real, y: real, z: real)
    ensures x * (y * z) == (x * y) * z
  {
  }

  lemma TruncMonotone(a: real, b: real)
    requires 0.0 <= a <= b
    ensures 0 <= Trunc(a) <= Trunc(b)
  {
  }

  /** Backoff delays never shrink and never pass the cap. */
  lemma BackoffMonotone(initial: Time, factor: real, cap: Time, j: nat, k: nat)
    requires initial >= 0 && factor >= 1.0 && cap >= 0 && 1 <= j <= k
    ensures 0.0 <= BackoffDelay(initial, factor, cap, j) <= BackoffDelay(initial, factor, cap, k) <= cap as real
    ensures 0 <= Trunc(BackoffDelay(initial, factor, cap, j)) <= Trunc(BackoffDelay(initial, factor, cap, k)) <= cap
  {
    var x, c := initial as real, cap as real;
    GrownGrows(x, factor, j - 1, k - 1);
    DelayIsGrown(initial, factor, cap, j);
    DelayIsGrown(initial, factor, cap, k);
    MinMonotone(Grown(x, factor, j - 1), Grown(x, factor, k - 1), c);
    TruncMonotone(BackoffDelay(initial, factor, cap, j), BackoffDelay(initial, factor, cap, k));
    TruncMonotone(BackoffDelay(initial, factor, cap, k), c);
  }

  lemma DelayIsGrown(initial: Time, factor: real, cap: Time, k: nat)
    requires k >= 1
    ensures BackoffDelay(initial, factor, cap, k) == Min(Grown(initial as real, factor, k - 1), cap as real)
  {
    GrownIsPow(initial as real, factor, k - 1);
  }

  lemma MinMonotone(a: real, b: real, c: real)
    requires 0.0 <= a <= b && 0.0 <= c
    ensures 0.0 <= Min(a, c) <= Min(b, c) <= c
  {
  }

  // ---- the policies ----

  class FixedDelay {
    const delay: Time
    const maxAttempts: int
    var attempts: nat

    constructor Literal(delay: Time, maxAttempts: int)
      ensures this.delay == delay && this.maxAttempts == maxAttempts && attempts == 0
    {
      this.delay, this.maxAttempts, attempts := delay, maxAttempts, 0;
    }

    constructor New(delay: Time, maxAttempts: int)
      ensures this.delay == delay && this.maxAttempts == (if maxAttempts < 1 then 1 else maxAttempts) && attempts == 0
    {
      this.delay, this.maxAttempts, attempts := delay, if maxAttempts < 1 then 1 else maxAttempts, 0;
    }

    ghost function Spec(): Retry {
      Fixed(delay, maxAttempts)
    }

    method Next() returns (d: Time, ok: bool)
      modifies this
      ensures attempts == old(attempts) + 1
      ensures ok <==> attempts < maxAttempts
      ensures ok ==> d == delay
      ensures ok == MayRetry(Spec(), attempts) && d == DelayAfter(Spec(), attempts)
    {
      attempts := attempts + 1;
      if attempts < maxAttempts {
        return delay, true;
      }
      return 0, false;
    }

    method Clone() returns (c: FixedDelay)
      ensures fresh(c) && c.Spec() == Spec() && c.attempts == 0
    {
      c := new FixedDelay.Literal(delay, maxAttempts);
    }
  }

  class ExponentialBackoff {
    const initial: Time
    const factor: real
    const cap: Time
    const maxAttempts: int
    var attempts: nat

    constructor Literal(initial: Time, factor: real, cap: Time, maxAttempts: int)
      ensures Spec() == Backoff(initial, factor, cap, maxAttempts) && attempts == 0
    {
      this.initial, this.factor, this.cap, this.maxAttempts, attempts := initial, factor, cap, maxAttempts, 0;
    }

    /** Illegal parameters are replaced by safe ones, so the laws of BackoffMonotone apply to what is built. */
    constructor New(initial: Time, factor: real, cap: Time, maxAttempts: int)
      ensures this.initial > 0 && this.factor > 1.0 && this.cap > 0 && this.maxAttempts >= 1 && attempts == 0
      ensures initial > 0 ==> this.initial == initial
      ensures factor > 1.0 ==> this.factor == factor
      ensures cap > 0 ==> this.cap == cap
      ensures cap <= 0 ==> this.cap == this.initial
      ensures maxAttempts >= 1 ==> this.maxAttempts == maxAttempts
    {
      var i := if initial <= 0 then 1_000_000 else initial;
      this.initial := i;
      this.factor := if factor <= 1.0 then 2.0 else factor;
      this.cap := if cap <= 0 then i else cap;
      this.maxAttempts := if maxAttempts < 1 then 1 else maxAttempts;
      attempts := 0;
    }

    ghost function Spec(): Retry {
      Backoff(initial, factor, cap, maxAttempts)
    }

    method DelayFor(k: nat) returns (delay: Time)
      requires k >= 1
      ensures delay == Trunc(BackoffDelay(initial, factor, cap, k))
    {
      var d := initial as real;
      for i := 1 to k
        invariant d == initial as real * Pow(factor, i - 1)
      {
        MulAssoc(initial as real, Pow(factor, i - 1), factor);
        d := d * factor;
      }
      if d > cap as real {
        d := cap as real;
      }
      delay := Trunc(d);
    }

    method Next() returns (d: Time, ok: bool)
      modifies this
      ensures ok <==> old(attempts) + 1 < maxAttempts
      ensures ok ==> d == Trunc(Min(Grown(initial as real, factor, old(attempts)), cap as real))
      ensures ok == MayRetry(Spec(), old(attempts) + 1) && d == DelayAfter(Spec(), old(attempts) + 1)
      ensures attempts == if ok then old(attempts) + 1 else old(attempts)
    {
      if attempts >= maxAttempts - 1 {
        return 0, false;
      }
      d := DelayFor(attempts + 1);
      DelayIsGrown(initial, factor, cap, attempts + 1);
      attempts := attempts + 1;
      ok := true;
    }

    method Clone() returns (c: ExponentialBackoff)
      ensures fresh(c) && c.Spec() == Spec() && c.attempts == 0
    {
      c := new ExponentialBackoff.Literal(initial, factor, cap, maxAttempts);
    }
  }

  /** The built-in policies behind the RetryPolicy interface; Nil is the nil interface value. */
  datatype RetryPolicy =
    | Nil
    | Never
    | FixedPolicy(f: FixedDelay)
    | BackoffPolicy(b: ExponentialBackoff)
  {
    ghost function Spec(): Retry {
      match this
      case FixedPolicy(f) => f.Spec()
      case BackoffPolicy(b) => b.Spec()
      case _ => NoRetry
    }

    /** Failures this instance has been told of while it kept answering yes. */
    ghost function Count(): nat
      reads if FixedPolicy? then {f} else {}, if BackoffPolicy? then {b} else {}
    {
      match this
      case FixedPolicy(f) => f.attempts
      case BackoffPolicy(b) => b.attempts
      case _ => 0
    }

    /** The most calls of fn that this instance allows, the first one included. */
    function Most(): nat {
      match this
      case FixedPolicy(f) => if f.maxAttempts < 1 then 1 else f.maxAttempts
      case BackoffPolicy(b) => if b.maxAttempts < 1 then 1 else b.maxAttempts
      case _ => 1
    }

    ghost function Objects(): set<object> {
      match this
      case FixedPolicy(f) => {f}
      case BackoffPolicy(b) => {b}
      case _ => {}
    }
  }

  /** The policy value with the given parameters. */
  method PolicyOf(r: Retry) returns (p: RetryPolicy)
    ensures p.Spec() == r
  {
    if r.Fixed? {
      var f := new FixedDelay.Literal(r.delay, r.max);
      p := FixedPolicy(f);
    } else if r.Backoff? {
      var b := new ExponentialBackoff.Literal(r.initial, r.factor, r.cap, r.max);
      p := BackoffPolicy(b);
    } else {
      p := Never;
    }
  }

  /** A copy for one Execute: same parameters, a count of its own that starts at zero however the original was used. */
  method ForExec(p: RetryPolicy) returns (c: RetryPolicy)
    ensures c.Spec() == p.Spec() && c.Count() == 0 && !c.Nil? && fresh(c.Objects())
  {
    match p
    case FixedPolicy(f) =>
      var g := f.Clone();
      c := FixedPolicy(g);
    case BackoffPolicy(b) =>
      var g := b.Clone();
      c := BackoffPolicy(g);
    case _ => c := Never;
  }

  method Next(p: RetryPolicy, ghost failures: nat) returns (d: Time, ok: bool)
    requires !p.Nil? && (p.Never? || p.Count() == failures)
    modifies p.Objects()
    ensures ok == MayRetry(p.Spec(), failures + 1) && d == DelayAfter(p.Spec(), failures + 1)
    ensures ok ==> p.Count() == failures + 1
  {
    match p
    case FixedPolicy(f) => d, ok := f.Next();
    case BackoffPolicy(b) => d, ok := b.Next();
    case _ => d, ok := 0, false;
  }

  /** The most calls of fn that a policy allows. */
  function MaxCalls(r: Retry): nat {
    match r
    case NoRetry => 1
    case Fixed(_, max) => if max < 1 then 1 else max
    case Backoff(_, _, _, max) => if max < 1 then 1 else max
  }

  lemma MayRetryIff(r: Retry, failures: nat)
    requires failures >= 1
    ensures MayRetry(r, failures) <==> failures < MaxCalls(r)
  {
  }
}
