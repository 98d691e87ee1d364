/** The withdrawal request validators `validateSplitRequests` and
    `tvlJokeValidate`, as far as their tests
    (features/withdrawals/request/request-form-context/__tests__/validators.test.ts)
    determine them. The validators' own source is not part of this model: the
    behaviour below is the general rule the tests illustrate, and every case
    the tests leave open is an explicit parameter rather than a guess. */
module WithdrawalValidators {
  import opened Wrappers

  /** The typed errors the validators throw, with the fields the tests read. */
  datatype ValidationError =
    | SplitRequest(field: string, requestCount: int)   // `ValidationSplitRequest`
    | TvlJoke(field: string, balanceDiffSteth: int)    // `ValidationTvlJoke`

  /** The outcomes the tests do not fix, supplied by the caller of the model. */
  datatype SplitChoices = SplitChoices(
    leftoverRequestCount: int,                          // payload of the error for a too-small last part
    unpinned: Result<seq<int>, ValidationError>)        // result for an amount below the minimum or a degenerate configuration

  // ---------------------------------------------------------------------
  // Splitting
  // ---------------------------------------------------------------------

  function Sum(s: seq<int>): int
    decreases |s|
  {
    if s == [] then 0 else s[0] + Sum(s[1..])
  }

  function Repeat(x: int, n: nat): (r: seq<int>)
    ensures |r| == n && forall i :: 0 <= i < n ==> r[i] == x
  {
    seq(n, _ => x)
  }

  lemma {:induction false} SumRepeat(x: int, n: nat)
    ensures Sum(Repeat(x, n)) == n * x
    decreases n
  {
    if n > 0 {
      assert Repeat(x, n)[1..] == Repeat(x, n - 1);
      SumRepeat(x, n - 1);
    }
  }

  lemma {:induction false} SumAppend(a: seq<int>, b: seq<int>)
    ensures Sum(a + b) == Sum(a) + Sum(b)
    decreases |a|
  {
    if a == [] {
      assert a + b == b;
    } else {
      assert (a + b)[1..] == a[1..] + b;
      SumAppend(a[1..], b);
    }
  }

  /** The configurations the tests exercise the splitter with: a positive
      per-request maximum at least as large as the positive minimum. */
  predicate Configured(maxPerRequest: int, minPerRequest: int) {
    0 < minPerRequest <= maxPerRequest
  }

  /** Number of full requests, size of the last partial one, and number of
      requests in all. */
  function FullRequests(amount: nat, maxPerRequest: int): nat
    requires maxPerRequest > 0
  {
    amount / maxPerRequest
  }

  function Leftover(amount: nat, maxPerRequest: int): nat
    requires maxPerRequest > 0
  {
    amount % maxPerRequest
  }

  function RequestCount(amount: nat, maxPerRequest: int): nat
    requires maxPerRequest > 0
  {
    FullRequests(amount, maxPerRequest) + if Leftover(amount, maxPerRequest) > 0 then 1 else 0
  }

  /** `parts` is a split of `amount`: full requests of `maxPerRequest` first,
      then at most one smaller last part that is still at least the minimum,
      all summing to the amount. */
  predicate IsSplit(parts: seq<int>, amount: int, maxPerRequest: int, minPerRequest: int) {
    && |parts| >= 1
    && (forall i :: 0 <= i < |parts| - 1 ==> parts[i] == maxPerRequest)
    && minPerRequest <= parts[|parts| - 1] <= maxPerRequest
    && Sum(parts) == amount
  }

  /** `validateSplitRequests(field, amount, max, min, maxRequestCount)`.
      For an amount of at least the minimum under a test configuration: too
      many requests fail with the request count as payload; a last part below
      the minimum fails with a split-request error; otherwise the amount is
      split into full requests and a remainder. */
  function ValidateSplitRequests(field: string, amount: int, maxPerRequest: int, minPerRequest: int,
                                 maxRequestCount: nat, choices: SplitChoices): (r: Result<seq<int>, ValidationError>)
    ensures Configured(maxPerRequest, minPerRequest) && amount >= minPerRequest ==>
              && (r.Success? <==> RequestCount(amount, maxPerRequest) <= maxRequestCount
                                  && (Leftover(amount, maxPerRequest) == 0 || Leftover(amount, maxPerRequest) >= minPerRequest))
              && (r.Success? ==> IsSplit(r.value, amount, maxPerRequest, minPerRequest)
                                 && |r.value| == RequestCount(amount, maxPerRequest))
              && (r.Failure? ==> r.error.SplitRequest? && r.error.field == field)
              && (RequestCount(amount, maxPerRequest) > maxRequestCount ==>
                    r == Failure(SplitRequest(field, RequestCount(amount, maxPerRequest))))
  {
    if !(Configured(maxPerRequest, minPerRequest) && amount >= minPerRequest) then
      choices.unpinned
    else
      var full := FullRequests(amount, maxPerRequest);
      var leftover := Leftover(amount, maxPerRequest);
      var count := RequestCount(amount, maxPerRequest);
      if count > maxRequestCount then
        Failure(SplitRequest(field, count))
      else if 0 < leftover < minPerRequest then
        Failure(SplitRequest(field, choices.leftoverRequestCount))
      else
        var parts := Repeat(maxPerRequest, full) + (if leftover > 0 then [leftover] else []);
        SplitSum(amount, maxPerRequest, minPerRequest, full, leftover);
        Success(parts)
  }

  /** Helper for `ValidateSplitRequests`: the constructed parts form a split. */
  lemma SplitSum(amount: nat, maxPerRequest: int, minPerRequest: int, full: nat, leftover: nat)
    requires Configured(maxPerRequest, minPerRequest) && amount >= minPerRequest
    requires full == amount / maxPerRequest && leftover == amount % maxPerRequest
    requires leftover == 0 || leftover >= minPerRequest
    ensures IsSplit(Repeat(maxPerRequest, full) + (if leftover > 0 then [leftover] else []),
                    amount, maxPerRequest, minPerRequest)
  {
    var tail := if leftover > 0 then [leftover] else [];
    var parts := Repeat(maxPerRequest, full) + tail;
    SumRepeat(maxPerRequest, full);
    SumAppend(Repeat(maxPerRequest, full), tail);
    assert Sum(tail) == leftover by {
      if leftover > 0 { assert tail[1..] == []; }
    }
    assert amount == full * maxPerRequest + leftover;
    assert full >= 1 || leftover > 0;
  }

  lemma {:induction false} MulAtLeast(k: int, d: int)
    requires k >= 1 && d > 0
    ensures k * d >= d
    decreases k
  {
    if k > 1 {
      MulAtLeast(k - 1, d);
      assert k * d == (k - 1) * d + d;
    }
  }

  /** Euclidean division is determined by quotient and remainder. */
  lemma DivModUnique(a: int, d: int, q: int, r: int)
    requires d > 0 && 0 <= r < d && a == q * d + r
    ensures a / d == q && a % d == r
  {
    var q', r' := a / d, a % d;
    assert a == q' * d + r';
    assert q' * d - q * d == r - r';
    assert (q' - q) * d == q' * d - q * d;
    if q' > q {
      MulAtLeast(q' - q, d);
    } else if q' < q {
      MulAtLeast(q - q', d);
    }
  }

  /** A split is determined by its length: full requests, then whatever the
      amount leaves for the last part. */
  lemma SplitDetermined(parts: seq<int>, amount: int, maxPerRequest: int, minPerRequest: int)
    requires IsSplit(parts, amount, maxPerRequest, minPerRequest)
    ensures parts == Repeat(maxPerRequest, |parts| - 1) + [amount - (|parts| - 1) * maxPerRequest]
  {
    var n := |parts| - 1;
    var last := parts[n];
    assert parts == Repeat(maxPerRequest, n) + [last];
    SumAppend(Repeat(maxPerRequest, n), [last]);
    SumRepeat(maxPerRequest, n);
    assert Sum([last]) == last by {
      assert [last][1..] == [];
    }
  }

  // One lemma per test of `validateSplitRequests`, each stated for every
  // configuration of the kind the test uses.

  /** "should split into 1 request": an amount between the minimum and the
      maximum is a single request of that amount. */
  lemma SplitIntoOneRequest(field: string, amount: int, maxPerRequest: int, minPerRequest: int,
                            maxRequestCount: nat, choices: SplitChoices)
    requires Configured(maxPerRequest, minPerRequest) && maxRequestCount >= 1
    requires minPerRequest <= amount <= maxPerRequest
    ensures ValidateSplitRequests(field, amount, maxPerRequest, minPerRequest, maxRequestCount, choices) == Success([amount])
  {
    if amount == maxPerRequest {
      DivModUnique(amount, maxPerRequest, 1, 0);
    } else {
      DivModUnique(amount, maxPerRequest, 0, amount);
    }
    var r := ValidateSplitRequests(field, amount, maxPerRequest, minPerRequest, maxRequestCount, choices);
    SplitDetermined(r.value, amount, maxPerRequest, minPerRequest);
    assert r.value == [amount];
  }

  /** "should split into 2 requests" (150 with maximum 100) and "should split
      into 2(max+min) requests": one full request, then the remainder. */
  lemma SplitIntoTwoRequests(field: string, remainder: int, maxPerRequest: int, minPerRequest: int,
                             maxRequestCount: nat, choices: SplitChoices)
    requires Configured(maxPerRequest, minPerRequest) && maxRequestCount >= 2
    requires minPerRequest <= remainder < maxPerRequest
    ensures ValidateSplitRequests(field, maxPerRequest + remainder, maxPerRequest, minPerRequest, maxRequestCount, choices)
            == Success([maxPerRequest, remainder])
  {
    var amount := maxPerRequest + remainder;
    DivModUnique(amount, maxPerRequest, 1, remainder);
    var r := ValidateSplitRequests(field, amount, maxPerRequest, minPerRequest, maxRequestCount, choices);
    SplitDetermined(r.value, amount, maxPerRequest, minPerRequest);
    assert r.value == [maxPerRequest, remainder];
  }

  /** "should split into max requests": `max * maxRequestCount` is exactly
      `maxRequestCount` full requests. */
  lemma SplitIntoMaxRequests(field: string, maxPerRequest: int, minPerRequest: int,
                             maxRequestCount: nat, choices: SplitChoices)
    requires Configured(maxPerRequest, minPerRequest) && maxRequestCount >= 1
    ensures ValidateSplitRequests(field, maxPerRequest * maxRequestCount, maxPerRequest, minPerRequest, maxRequestCount, choices)
            == Success(Repeat(maxPerRequest, maxRequestCount))
  {
    var amount := maxPerRequest * maxRequestCount;
    assert amount == (maxRequestCount - 1) * maxPerRequest + maxPerRequest;
    DivModUnique(amount, maxPerRequest, maxRequestCount, 0);
    var r := ValidateSplitRequests(field, amount, maxPerRequest, minPerRequest, maxRequestCount, choices);
    SplitDetermined(r.value, amount, maxPerRequest, minPerRequest);
    assert r.value == Repeat(maxPerRequest, maxRequestCount);
  }

  /** "should throw right error when more than max": one unit above
      `max * maxRequestCount` fails with `requestCount = maxRequestCount + 1`. */
  lemma SplitTooManyRequests(field: string, maxPerRequest: int, minPerRequest: int,
                             maxRequestCount: nat, choices: SplitChoices)
    requires Configured(maxPerRequest, minPerRequest) && maxRequestCount >= 1
    ensures ValidateSplitRequests(field, maxPerRequest * maxRequestCount + 1, maxPerRequest, minPerRequest, maxRequestCount, choices)
            == Failure(SplitRequest(field, maxRequestCount + 1))
  {
    var amount := maxPerRequest * maxRequestCount + 1;
    assert amount >= maxPerRequest + 1 >= minPerRequest;
    if maxPerRequest == 1 {
      DivModUnique(amount, maxPerRequest, maxRequestCount + 1, 0);
    } else {
      DivModUnique(amount, maxPerRequest, maxRequestCount, 1);
    }
    assert RequestCount(amount, maxPerRequest) == maxRequestCount + 1;
  }

  /** "should throw right error when cannot split because of left over":
      `max + min - 1` leaves a last part below the minimum. */
  lemma SplitLeftoverTooSmall(field: string, maxPerRequest: int, minPerRequest: int,
                              maxRequestCount: nat, choices: SplitChoices)
    requires Configured(maxPerRequest, minPerRequest) && minPerRequest >= 2 && maxRequestCount >= 2
    ensures ValidateSplitRequests(field, maxPerRequest + minPerRequest - 1, maxPerRequest, minPerRequest, maxRequestCount, choices).Failure?
    ensures ValidateSplitRequests(field, maxPerRequest + minPerRequest - 1, maxPerRequest, minPerRequest, maxRequestCount, choices).error.SplitRequest?
    ensures ValidateSplitRequests(field, maxPerRequest + minPerRequest - 1, maxPerRequest, minPerRequest, maxRequestCount, choices).error.field == field
  {
    var amount := maxPerRequest + minPerRequest - 1;
    DivModUnique(amount, maxPerRequest, 1, minPerRequest - 1);
  }

  // ---------------------------------------------------------------------
  // The TVL check
  // ---------------------------------------------------------------------

  /** `tvlJokeValidate(field, amount, tvl, balance)`: an amount below the bound
      passes, one above it fails with `balanceDiffSteth = amount - balance`;
      the outcome at the bound itself is a parameter. */
  function TvlJokeValidate(field: string, amount: int, tvl: int, balance: int,
                           atBound: Outcome<ValidationError>): (r: Outcome<ValidationError>)
    ensures amount < tvl ==> r == Pass
    ensures amount > tvl ==> r == Fail(TvlJoke(field, amount - balance))
  {
    if amount < tvl then Pass
    else if amount > tvl then Fail(TvlJoke(field, amount - balance))
    else atBound
  }

  /** "should work" and "should throw right error", with the tests' values. */
  lemma TvlJokeTests(atBound: Outcome<ValidationError>)
    ensures TvlJokeValidate("test_field", 10, 12, 5, atBound) == Pass
    ensures TvlJokeValidate("test_field", 20, 10, 5, atBound) == Fail(TvlJoke("test_field", 15))
  {
  }
}
