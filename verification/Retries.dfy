/** The retry policy's arithmetic and the retry loop around one provider. */
module Retries {
  import opened Outcomes
  import opened Rounding

  datatype Jitter = NoJitter | FullJitter | EqualJitter

  datatype RetryPolicy = RetryPolicy(
    maxAttempts: nat, initialBackoff: real, maxBackoff: real, multiplier: real, jitter: Jitter,
    retryOn: set<string>, neverRetryOn: set<string>, respectRetryAfter: bool)

  /** The field bounds and the two cross-field validators. */
  ghost predicate ValidPolicy(p: RetryPolicy) {
    && 1 <= p.maxAttempts <= 20
    && 0.0 <= p.initialBackoff <= 60.0 && p.maxBackoff <= 600.0 && 1.0 <= p.multiplier <= 10.0
    && p.initialBackoff <= p.maxBackoff
    && p.retryOn !! p.neverRetryOn
  }

  /** An error as the policy sees it. Only rate-limit errors can carry a retry-after hint. */
  datatype Fault = Fault(code: string, retryable: bool, retryAfter: Option<real>)

  predicate ShouldRetry(p: RetryPolicy, attempt: nat, f: Fault) {
    && attempt < p.maxAttempts
    && f.code !in p.neverRetryOn
    && if p.retryOn != {} then f.code in p.retryOn else f.retryable
  }

  function Pow(b: real, n: nat): real {
    if n == 0 then 1.0 else b * Pow(b, n - 1)
  }

  function Min(x: real, y: real): real {
    if x <= y then x else y
  }

  function Max(x: real, y: real): real {
    if x >= y then x else y
  }

  /** The window before jitter, after the given attempt. */
  function Window(p: RetryPolicy, attempt: nat): real {
    Min(p.initialBackoff * Pow(p.multiplier, if attempt >= 1 then attempt - 1 else 0), p.maxBackoff)
  }

  /** The uniform draw from zero to `x`. */
  function Drawn(draw: real, x: real): real {
    draw * x
  }

  /** `draw` is the random source's uniform draw, as a fraction of its range. */
  function Jittered(p: RetryPolicy, window: real, draw: real): real {
    if p.jitter == NoJitter || window == 0.0 then window
    else if p.jitter == FullJitter then Drawn(draw, window)
    else window / 2.0 + Drawn(draw, window / 2.0)
  }

  function Backoff(p: RetryPolicy, attempt: nat, f: Fault, draw: real): real {
    var delay := Jittered(p, Window(p, attempt), draw);
    Round4(if p.respectRetryAfter && f.retryAfter.Some? then Max(delay, Min(f.retryAfter.value, p.maxBackoff))
        else delay)
  }

  /** Sum of the windows after attempts `attempt`, ..., `maxAttempts - 1`. */
  function WindowsFrom(p: RetryPolicy, attempt: nat): real
    decreases p.maxAttempts - attempt
  {
    if attempt >= p.maxAttempts then 0.0 else Window(p, attempt) + WindowsFrom(p, attempt + 1)
  }

  function TotalWorstCaseDelay(p: RetryPolicy): real {
    Round4(WindowsFrom(p, 1))
  }

  lemma {:induction false} PowAtLeastOne(b: real, n: nat)
    requires b >= 1.0
    ensures Pow(b, n) >= 1.0
  {
    if n > 0 {
      PowAtLeastOne(b, n - 1);
    }
  }

  lemma WindowBounds(p: RetryPolicy, attempt: nat)
    requires ValidPolicy(p)
    ensures 0.0 <= Window(p, attempt) <= p.maxBackoff
  {
    PowAtLeastOne(p.multiplier, if attempt >= 1 then attempt - 1 else 0);
  }

  lemma DrawnBounds(draw: real, x: real)
    requires 0.0 <= x && 0.0 <= draw <= 1.0
    ensures 0.0 <= Drawn(draw, x) <= x
  {
    Scaled(x, 0.0, draw);
    Scaled(x, draw, 1.0);
  }

  /** Jitter only ever shortens the window, and equal jitter never below half of it. */
  lemma JitterBounds(p: RetryPolicy, window: real, draw: real)
    requires 0.0 <= window && 0.0 <= draw <= 1.0
    ensures 0.0 <= Jittered(p, window, draw) <= window
    ensures p.jitter == EqualJitter ==> Jittered(p, window, draw) >= window / 2.0
  {
    hide Drawn;
    DrawnBounds(draw, window);
    DrawnBounds(draw, window / 2.0);
  }

  /** A delay fits the ceiling always, and the attempt's own window when no hint applies, up to the last decimal. */
  lemma BackoffBounds(p: RetryPolicy, attempt: nat, f: Fault, draw: real)
    requires ValidPolicy(p) && 0.0 <= draw <= 1.0
    ensures 0.0 <= Backoff(p, attempt, f, draw) <= Round4(p.maxBackoff)
    ensures !(p.respectRetryAfter && f.retryAfter.Some?) ==>
              Backoff(p, attempt, f, draw) <= Round4(Window(p, attempt))
  {
    var window := Window(p, attempt);
    WindowBounds(p, attempt);
    JitterBounds(p, window, draw);
    var delay := Jittered(p, window, draw);
    RoundMonotone(0.0, delay);
    NearestOfWhole(0);
    RoundMonotone(delay, window);
    RoundMonotone(window, p.maxBackoff);
    if p.respectRetryAfter && f.retryAfter.Some? {
      var hinted := Max(delay, Min(f.retryAfter.value, p.maxBackoff));
      RoundMonotone(0.0, hinted);
      RoundMonotone(hinted, p.maxBackoff);
    }
  }

  /**
   The window starts at the initial backoff and from one attempt to the next is multiplied, up to the ceiling. So it
   never falls.
   */
  lemma WindowGrows(p: RetryPolicy, attempt: nat)
    requires ValidPolicy(p) && attempt >= 1
    ensures Window(p, 0) == Window(p, 1) == p.initialBackoff
    ensures Window(p, attempt + 1) == Min(p.multiplier * Window(p, attempt), p.maxBackoff)
    ensures Window(p, attempt) <= Window(p, attempt + 1)
  {
    hide Window, Pow;
    FirstWindow(p);
    NextWindow(p, attempt);
    WindowBounds(p, attempt);
    Scaled(Window(p, attempt), 1.0, p.multiplier);
  }

  lemma FirstWindow(p: RetryPolicy)
    requires ValidPolicy(p)
    ensures Window(p, 0) == p.initialBackoff && Window(p, 1) == p.initialBackoff
  {
    assert Pow(p.multiplier, 0) == 1.0;
    assert p.initialBackoff * 1.0 == p.initialBackoff;
  }

  function Product(x: real, y: real): real {
    x * y
  }

  lemma WindowFormula(p: RetryPolicy, attempt: nat)
    requires attempt >= 1
    ensures Window(p, attempt) == Min(Product(p.initialBackoff, Pow(p.multiplier, attempt - 1)), p.maxBackoff)
    ensures Pow(p.multiplier, attempt) == Product(p.multiplier, Pow(p.multiplier, attempt - 1))
  {
  }

  lemma NextWindow(p: RetryPolicy, attempt: nat)
    requires ValidPolicy(p) && attempt >= 1
    ensures Window(p, attempt + 1) == Min(Product(p.multiplier, Window(p, attempt)), p.maxBackoff)
  {
    hide Product, Pow, Window, Min;
    WindowFormula(p, attempt);
    WindowFormula(p, attempt + 1);
    GrowthCommutes(p.multiplier, p.initialBackoff, Pow(p.multiplier, attempt - 1), p.maxBackoff);
  }

  /** Capping before multiplying makes no difference to what the cap lets through. */
  lemma GrowthCommutes(m: real, x: real, y: real, cap: real)
    requires m >= 1.0 && cap >= 0.0
    ensures Min(Product(x, Product(m, y)), cap) == Min(Product(m, Min(Product(x, y), cap)), cap)
  {
    ProductAssoc(x, m, y);
    if Product(x, y) > cap {
      Scaled(m, cap, Product(x, y));
      Scaled(cap, 1.0, m);
    }
  }

  lemma ProductAssoc(x: real, m: real, y: real)
    ensures Product(x, Product(m, y)) == Product(m, Product(x, y))
  {
  }

  predicate Hinted(p: RetryPolicy, f: Fault) {
    p.respectRetryAfter && f.retryAfter.Some?
  }

  /**
   Without jitter or hint the delays are the rounded windows themselves: the first is the initial backoff, and none is
   shorter than the one before.
   */
  lemma UnjitteredDelays(p: RetryPolicy, attempt: nat, f: Fault, g: Fault, draw: real, next: real)
    requires ValidPolicy(p) && p.jitter == NoJitter && attempt >= 1 && !Hinted(p, f) && !Hinted(p, g)
    ensures Backoff(p, 1, f, draw) == Round4(p.initialBackoff)
    ensures Backoff(p, attempt, f, draw) == Round4(Window(p, attempt))
    ensures Backoff(p, attempt, f, draw) <= Backoff(p, attempt + 1, g, next)
  {
    hide Window, Round4;
    WindowGrows(p, attempt);
    RoundMonotone(Window(p, attempt), Window(p, attempt + 1));
  }

  /**
   From below: a hint that is respected is waited out as far as the ceiling allows, equal jitter keeps half the window,
   and without jitter the whole window stands.
   */
  lemma BackoffAtLeast(p: RetryPolicy, attempt: nat, f: Fault, draw: real)
    requires ValidPolicy(p) && 0.0 <= draw <= 1.0
    ensures Hinted(p, f) ==> Backoff(p, attempt, f, draw) >= Round4(Min(f.retryAfter.value, p.maxBackoff))
    ensures p.jitter == EqualJitter ==> Backoff(p, attempt, f, draw) >= Round4(Window(p, attempt) / 2.0)
    ensures p.jitter == NoJitter ==> Backoff(p, attempt, f, draw) >= Round4(Window(p, attempt))
  {
    hide Window, Round4;
    WindowBounds(p, attempt);
    JitterBounds(p, Window(p, attempt), draw);
    var delay := Jittered(p, Window(p, attempt), draw);
    if Hinted(p, f) {
      RoundMonotone(Min(f.retryAfter.value, p.maxBackoff), Max(delay, Min(f.retryAfter.value, p.maxBackoff)));
      RoundMonotone(delay, Max(delay, Min(f.retryAfter.value, p.maxBackoff)));
    }
    RoundMonotone(Window(p, attempt) / 2.0, if delay >= Window(p, attempt) / 2.0 then delay else Window(p, attempt));
  }

  /** The jittered delay runs evenly over its whole range as the draw does: from zero, or from half, to the window. */
  lemma JitterSpans(p: RetryPolicy, window: real, draw: real)
    requires 0.0 <= window
    ensures Jittered(p, window, 1.0) == window
    ensures Jittered(p, window, 0.0)
         == match p.jitter case NoJitter => window case FullJitter => 0.0 case EqualJitter => window / 2.0
    ensures Jittered(p, window, draw)
         == (1.0 - draw) * Jittered(p, window, 0.0) + draw * Jittered(p, window, 1.0)
  {
  }

  // ---------------------------------------------------------------- one retried call

  datatype Reply = Reply(content: string, inputTokens: nat, outputTokens: nat, cost: real)

  datatype CallResult = Replied(reply: Reply) | Faulted(fault: Fault)

  /**
   The environment: what each provider call in turn does, and each jitter draw. Runs are finite, so tapes of every
   length cover every provider; past the end of a tape a call fails terminally.
   */
  datatype Environment = Environment(tape: seq<CallResult>, draws: seq<real>) {
    function Call(n: nat): CallResult {
      if n < |tape| then tape[n] else Faulted(Fault("end_of_tape", false, None))
    }

    function Draw(n: nat): real {
      if n < |draws| then draws[n] else 0.0
    }
  }

  ghost predicate ValidEnvironment(env: Environment) {
    forall n :: 0 <= n < |env.draws| ==> 0.0 <= env.draws[n] <= 1.0
  }

  /** A pause between attempts, by what determines its length. */
  datatype Wait = Wait(attempt: nat, fault: Fault, draw: real)

  /** How a retry chain came out, the number of the next provider call, and the pauses made. */
  datatype Chain = Chain(result: CallResult, next: nat, waits: seq<Wait>)

  /** A retry chain from call number `k` as attempt number `attempt`, `waits` having been paused before. */
  function Retried(p: RetryPolicy, env: Environment, k: nat, attempt: nat, waits: seq<Wait>): Chain
    decreases p.maxAttempts - attempt
  {
    var result := env.Call(k);
    if result.Replied? || !ShouldRetry(p, attempt, result.fault) then Chain(result, k + 1, waits)
    else Retried(p, env, k + 1, attempt + 1, waits + [Wait(attempt, result.fault, env.Draw(k))])
  }

  function Length(p: RetryPolicy, w: Wait): real {
    Backoff(p, w.attempt, w.fault, w.draw)
  }

  /** Total time slept over the given pauses. */
  function Slept(p: RetryPolicy, waits: seq<Wait>): real {
    if waits == [] then 0.0 else Slept(p, waits[..|waits| - 1]) + Length(p, waits[|waits| - 1])
  }

  lemma SleptSnoc(p: RetryPolicy, waits: seq<Wait>, w: Wait)
    ensures Slept(p, waits + [w]) == Slept(p, waits) + Length(p, w)
  {
  }

  /** Whatever faults occur, a chain makes at most `maxAttempts` calls, and pauses exactly between them. */
  lemma {:induction false} ChainCalls(p: RetryPolicy, env: Environment, k: nat, attempt: nat, waits: seq<Wait>)
    requires 1 <= attempt <= p.maxAttempts
    ensures var c := Retried(p, env, k, attempt, waits);
            && k < c.next <= k + p.maxAttempts - attempt + 1
            && |c.waits| == |waits| + c.next - k - 1
            && c.result == env.Call(c.next - 1)
            && (forall j :: k <= j < c.next - 1 ==> env.Call(j).Faulted?)
    decreases p.maxAttempts - attempt
  {
    var result := env.Call(k);
    if result.Faulted? && ShouldRetry(p, attempt, result.fault) {
      ChainCalls(p, env, k + 1, attempt + 1, waits + [Wait(attempt, result.fault, env.Draw(k))]);
    }
  }

  /** What the policy says of a fault, attempts aside. */
  predicate Retryable(p: RetryPolicy, f: Fault) {
    f.code !in p.neverRetryOn && if p.retryOn == {} then f.retryable else f.code in p.retryOn
  }

  /**
   A chain goes on over retryable faults and over nothing else: it ends with a reply, with the first fault that is not
   to be retried, or with the last attempt. Between two calls it pauses for the attempt, fault and draw at hand.
   */
  lemma {:induction false} ChainEnds(p: RetryPolicy, env: Environment, k: nat, attempt: nat, waits: seq<Wait>)
    requires 1 <= attempt <= p.maxAttempts
    ensures var c := Retried(p, env, k, attempt, waits);
            && k < c.next
            && (forall j :: k <= j < c.next - 1 ==> env.Call(j).Faulted? && Retryable(p, env.Call(j).fault))
            && (c.result.Faulted? ==>
                  !Retryable(p, c.result.fault) || c.next - k == p.maxAttempts - attempt + 1)
            && |c.waits| == |waits| + (c.next - 1 - k) && waits <= c.waits
            && (forall i :: |waits| <= i < |c.waits| ==>
                  var n := i - |waits|; c.waits[i] == Wait(attempt + n, env.Call(k + n).fault, env.Draw(k + n)))
    decreases p.maxAttempts - attempt
  {
    var result := env.Call(k);
    if result.Faulted? && ShouldRetry(p, attempt, result.fault) {
      var w := Wait(attempt, result.fault, env.Draw(k));
      ChainEnds(p, env, k + 1, attempt + 1, waits + [w]);
    }
  }

  /** None of the next calls comes back with a hint that counts. */
  ghost predicate NoHints(p: RetryPolicy, env: Environment, k: nat, calls: nat) {
    forall j :: k <= j < k + calls && env.Call(j).Faulted? ==> !Hinted(p, env.Call(j).fault)
  }

  /** Up to rounding each delay at four decimals, a chain's sleeps fit the windows that remain when no hint is given. */
  lemma {:induction false} ChainSleepsNoHint(p: RetryPolicy, env: Environment, k: nat, attempt: nat, waits: seq<Wait>)
    requires ValidPolicy(p) && ValidEnvironment(env) && 1 <= attempt <= p.maxAttempts
    requires NoHints(p, env, k, p.maxAttempts - attempt + 1)
    ensures Slept(p, Retried(p, env, k, attempt, waits).waits)
         <= Slept(p, waits) + WindowsFrom(p, attempt) + (p.maxAttempts - attempt) as real * 0.00005
    decreases p.maxAttempts - attempt
  {
    hide Slept, Backoff, Round4, Window;
    WindowsNonnegative(p, attempt);
    var result := env.Call(k);
    if result.Faulted? && ShouldRetry(p, attempt, result.fault) {
      var w := Wait(attempt, result.fault, env.Draw(k));
      ChainSleepsNoHint(p, env, k + 1, attempt + 1, waits + [w]);
      BackoffBounds(p, attempt, result.fault, env.Draw(k));
      SleptSnoc(p, waits, w);
    }
  }

  lemma {:induction false} WindowsNonnegative(p: RetryPolicy, attempt: nat)
    requires ValidPolicy(p)
    ensures WindowsFrom(p, attempt) >= 0.0
    decreases p.maxAttempts - attempt
  {
    if attempt < p.maxAttempts {
      WindowBounds(p, attempt);
      WindowsNonnegative(p, attempt + 1);
    }
  }

  /** `n` delays of `r`. */
  function Times(n: nat, r: real): real {
    if n == 0 then 0.0 else r + Times(n - 1, r)
  }

  lemma {:induction false} TimesIsProduct(n: nat, r: real)
    ensures Times(n, r) == n as real * r
  {
    if n > 0 {
      TimesIsProduct(n - 1, r);
      assert n as real * r == r + (n - 1) as real * r;
    }
  }

  lemma {:induction false} TimesNonnegative(n: nat, r: real)
    requires r >= 0.0
    ensures Times(n, r) >= 0.0
  {
    if n > 0 {
      TimesNonnegative(n - 1, r);
    }
  }

  lemma CeilingNonnegative(p: RetryPolicy)
    requires ValidPolicy(p)
    ensures Round4(p.maxBackoff) >= 0.0
  {
    RoundMonotone(0.0, p.maxBackoff);
    NearestOfWhole(0);
  }

  /** With or without hints, however large, a chain sleeps at most the ceiling once per retry, up to rounding. */
  lemma {:induction false} ChainSleepsAtMostCeiling(
    p: RetryPolicy, env: Environment, k: nat, attempt: nat, waits: seq<Wait>)
    requires ValidPolicy(p) && ValidEnvironment(env) && 1 <= attempt <= p.maxAttempts
    ensures Slept(p, waits) <= Slept(p, Retried(p, env, k, attempt, waits).waits)
         <= Slept(p, waits) + Times(p.maxAttempts - attempt, Round4(p.maxBackoff))
    decreases p.maxAttempts - attempt
  {
    hide Slept, Backoff, Round4, Window;
    CeilingNonnegative(p);
    var result := env.Call(k);
    if result.Faulted? && ShouldRetry(p, attempt, result.fault) {
      var w := Wait(attempt, result.fault, env.Draw(k));
      ChainSleepsAtMostCeiling(p, env, k + 1, attempt + 1, waits + [w]);
      BackoffBounds(p, attempt, result.fault, env.Draw(k));
      SleptSnoc(p, waits, w);
    } else {
      TimesNonnegative(p.maxAttempts - attempt, Round4(p.maxBackoff));
    }
  }

  /** Without hints: at most the published worst case, up to half a last decimal per retry and one for the sum. */
  lemma SleepsWithinWorstCase(p: RetryPolicy, env: Environment, k: nat)
    requires ValidPolicy(p) && ValidEnvironment(env)
    requires NoHints(p, env, k, p.maxAttempts)
    ensures Slept(p, Retried(p, env, k, 1, []).waits) <= TotalWorstCaseDelay(p) + p.maxAttempts as real * 0.00005
  {
    ChainSleepsNoHint(p, env, k, 1, []);
    WorstCaseSlack(p);
  }

  /** A provider that only ever gives faults to retry, none with a hint that counts. */
  ghost predicate AlwaysFails(p: RetryPolicy, env: Environment, k: nat, calls: nat) {
    forall j :: k <= j < k + calls ==>
      env.Call(j).Faulted? && Retryable(p, env.Call(j).fault) && !Hinted(p, env.Call(j).fault)
  }

  lemma {:induction false} FailingChainSleeps(p: RetryPolicy, env: Environment, k: nat, attempt: nat,
      waits: seq<Wait>)
    requires ValidPolicy(p) && ValidEnvironment(env) && 1 <= attempt <= p.maxAttempts
    requires p.jitter == NoJitter && AlwaysFails(p, env, k, p.maxAttempts - attempt + 1)
    ensures Slept(p, Retried(p, env, k, attempt, waits).waits)
         >= Slept(p, waits) + WindowsFrom(p, attempt) - (p.maxAttempts - attempt) as real * 0.00005
    decreases p.maxAttempts - attempt
  {
    hide Slept, Backoff, Window, Round4;
    assert env.Call(k).Faulted? && Retryable(p, env.Call(k).fault);
    if attempt < p.maxAttempts {
      var w := Wait(attempt, env.Call(k).fault, env.Draw(k));
      FailingChainSleeps(p, env, k + 1, attempt + 1, waits + [w]);
      UnjitteredDelays(p, attempt, w.fault, w.fault, w.draw, w.draw);
      SleptSnoc(p, waits, w);
    }
  }

  /** The published worst case is reached: without jitter, a provider that always fails makes the chain sleep it. */
  lemma WorstCaseIsReached(p: RetryPolicy, env: Environment, k: nat)
    requires ValidPolicy(p) && ValidEnvironment(env)
    requires p.jitter == NoJitter && AlwaysFails(p, env, k, p.maxAttempts)
    ensures var c := Retried(p, env, k, 1, []);
            && c.next == k + p.maxAttempts
            && TotalWorstCaseDelay(p) - p.maxAttempts as real * 0.00005 <= Slept(p, c.waits)
            && Slept(p, c.waits) <= TotalWorstCaseDelay(p) + p.maxAttempts as real * 0.00005
  {
    hide Retried, WindowsFrom, Round4, Hinted, Retryable;
    ChainCalls(p, env, k, 1, []);
    ChainEnds(p, env, k, 1, []);
    FailingChainSleeps(p, env, k, 1, []);
    SleepsWithinWorstCase(p, env, k);
  }

  lemma WorstCaseSlack(p: RetryPolicy)
    requires p.maxAttempts >= 1
    ensures WindowsFrom(p, 1) + (p.maxAttempts - 1) as real * 0.00005
         <= TotalWorstCaseDelay(p) + p.maxAttempts as real * 0.00005
  {
  }

  // ---------------------------------------------------------------- the retrying provider as mutable state

  /** The sleeps actually made for the given pauses: a zero delay is not slept. */
  function Sleeps(p: RetryPolicy, waits: seq<Wait>): seq<real> {
    if waits == [] then []
    else
      var n := |waits| - 1;
      Sleeps(p, waits[..n]) + (if Length(p, waits[n]) > 0.0 then [Length(p, waits[n])] else [])
  }

  lemma SleepsSnoc(p: RetryPolicy, waits: seq<Wait>, w: Wait)
    ensures Sleeps(p, waits + [w]) == Sleeps(p, waits) + (if Length(p, w) > 0.0 then [Length(p, w)] else [])
  {
  }

  lemma {:induction false} SleepsConcat(p: RetryPolicy, a: seq<Wait>, b: seq<Wait>)
    ensures Sleeps(p, a + b) == Sleeps(p, a) + Sleeps(p, b)
    ensures Slept(p, a + b) == Slept(p, a) + Slept(p, b)
  {
    if b == [] {
      assert a + b == a;
    } else {
      var before, last := b[..|b| - 1], b[|b| - 1];
      assert a + b == (a + before) + [last];
      SleepsConcat(p, a, before);
      SleepsSnoc(p, a + before, last);
      SleptSnoc(p, a + before, last);
    }
  }

  function Total(xs: seq<real>): real {
    if xs == [] then 0.0 else Total(xs[..|xs| - 1]) + xs[|xs| - 1]
  }

  lemma {:induction false} TotalConcat(a: seq<real>, b: seq<real>)
    ensures Total(a + b) == Total(a) + Total(b)
  {
    if b == [] {
      assert a + b == a;
    } else {
      var n := |b| - 1;
      assert (a + b)[..|a| + n] == a + b[..n];
      TotalConcat(a, b[..n]);
    }
  }

  ghost predicate InRange(waits: seq<Wait>) {
    forall w :: w in waits ==> 0.0 <= w.draw <= 1.0
  }

  /** Leaving out the zero delays loses nothing: what is actually slept adds up to the length of the pauses. */
  lemma {:induction false} SleepsAddUp(p: RetryPolicy, waits: seq<Wait>)
    requires ValidPolicy(p) && InRange(waits)
    ensures Total(Sleeps(p, waits)) == Slept(p, waits)
  {
    if waits != [] {
      var before, last := waits[..|waits| - 1], waits[|waits| - 1];
      assert last in waits;
      SleepsAddUp(p, before);
      BackoffBounds(p, last.attempt, last.fault, last.draw);
      TotalConcat(Sleeps(p, before), if Length(p, last) > 0.0 then [Length(p, last)] else []);
      assert Total([]) == 0.0 && Total([Length(p, last)]) == Length(p, last) by {
        assert [Length(p, last)][..0] == [];
      }
    }
  }

  lemma {:induction false} ChainDrawsInRange(p: RetryPolicy, env: Environment, k: nat, attempt: nat, waits: seq<Wait>)
    requires ValidEnvironment(env) && InRange(waits)
    ensures InRange(Retried(p, env, k, attempt, waits).waits)
    decreases p.maxAttempts - attempt
  {
    var result := env.Call(k);
    if result.Faulted? && ShouldRetry(p, attempt, result.fault) {
      ChainDrawsInRange(p, env, k + 1, attempt + 1, waits + [Wait(attempt, result.fault, env.Draw(k))]);
    }
  }

  /** A provider counts the calls made of it; the retry wrapper records what it slept. */
  class RetryingProvider {
    const env: Environment
    const policy: RetryPolicy
    var calls: nat
    var slept: seq<real>

    constructor (env: Environment, policy: RetryPolicy)
      ensures this.env == env && this.policy == policy && calls == 0 && slept == []
    {
      this.env, this.policy, this.calls, this.slept := env, policy, 0, [];
    }

    method Invoke() returns (r: CallResult)
      modifies `calls
      ensures calls == old(calls) + 1 && r == env.Call(old(calls))
    {
      r := env.Call(calls);
      calls := calls + 1;
    }

    method Pause(w: Wait)
      modifies `slept
      ensures slept == old(slept) + (if Length(policy, w) > 0.0 then [Length(policy, w)] else [])
    {
      var delay := Backoff(policy, w.attempt, w.fault, w.draw);
      if delay > 0.0 {
        slept := slept + [delay];
      }
    }

    method Complete() returns (r: CallResult)
      modifies this
      ensures var c := Retried(policy, env, old(calls), 1, []);
              r == c.result && calls == c.next && slept == old(slept) + Sleeps(policy, c.waits)
    {
      var attempt: nat := 0;
      ghost var waits: seq<Wait> := [];
      while true
        invariant slept == old(slept) + Sleeps(policy, waits)
        invariant Retried(policy, env, calls, attempt + 1, waits) == Retried(policy, env, old(calls), 1, [])
        decreases policy.maxAttempts - attempt
      {
        var k := calls;
        attempt := attempt + 1;
        r := Invoke();
        if r.Replied? || !ShouldRetry(policy, attempt, r.fault) {
          return;
        }
        var w := Wait(attempt, r.fault, env.Draw(k));
        SleepsSnoc(policy, waits, w);
        waits := waits + [w];
        Pause(w);
      }
    }
  }
}
