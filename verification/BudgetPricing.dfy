/** Pricing a model call before and after it is made, in micro-USD. */
module BudgetPricing {
  import opened Wrappers

  /** Rates in USD per million tokens; no cached rate means the input rate. */
  datatype Pricing = Pricing(input: real, cached: Option<real>, output: real)

  datatype BudgetError =
    | BudgetDisabled
    | ContextMissing
    | OutputLimitRequired
    | ModelNotBudgeted
    | BadSafetyMultiplier
    | ReferencesUnsupported
    | ReferenceInvalid
    | RunBudgetExceeded
    | WorkspaceBudgetExceeded
    | BadAmount
    | WindowUnavailable

  const REQUEST_OVERHEAD_TOKEN_RESERVE: int := 2048
  const SETTLED_COST_MARGIN: real := 1.25

  function Max(a: int, b: int): int { if a < b then b else a }

  function Min(a: int, b: int): int { if a < b then a else b }

  /** `Math.round`: halves go up. */
  function Round(x: real): int { (x + 0.5).Floor }

  /** `Math.ceil`. */
  function Ceil(x: real): (n: int)
    ensures x <= n as real < x + 1.0
  {
    -((-x).Floor)
  }

  predicate LegalRates(p: Pricing) {
    p.input >= 0.0 && p.output >= 0.0 && (p.cached.Some? ==> p.cached.value >= 0.0)
  }

  function CachedRate(p: Pricing): real {
    if p.cached.Some? then p.cached.value else p.input
  }

  function RawCost(inputTokens: int, cachedInputTokens: int, outputTokens: int, p: Pricing): real {
    var safeCached := Min(Max(0, cachedInputTokens), Max(0, inputTokens));
    var uncached := Max(0, inputTokens - safeCached);
    uncached as real * p.input + safeCached as real * CachedRate(p) + Max(0, outputTokens) as real * p.output
  }

  /** `calculateCostUsdMicros`. */
  function CostUsdMicros(inputTokens: int, cachedInputTokens: int, outputTokens: int, p: Pricing): (cost: int)
    ensures cost >= 0
  {
    Max(0, Round(RawCost(inputTokens, cachedInputTokens, outputTokens, p)))
  }

  /** `resolveMaxOutputTokens`: no request stands for undefined or not an integer. */
  function MaxOutputTokens(requested: Option<int>, outputLimit: Option<int>): Result<int, BudgetError> {
    if requested.None? || requested.value < 1 then Err(OutputLimitRequired)
    else if outputLimit.None? then Err(ModelNotBudgeted)
    else Ok(Min(requested.value, outputLimit.value))
  }

  /** What the two checks on a reference see, and the length of its decoded bytes. */
  datatype Reference = Reference(plainTextFile: bool, canonicalBase64: bool, validUtf8: bool, bytes: nat)

  datatype Request = Request(inputBytes: nat, instructionBytes: nat, references: seq<Reference>, maxOutputTokens: Option<int>)

  predicate Acceptable(r: Reference) {
    r.plainTextFile && r.canonicalBase64 && r.validUtf8
  }

  function TotalBytes(references: seq<Reference>): nat {
    if references == [] then 0 else references[0].bytes + TotalBytes(references[1..])
  }

  function FirstProblem(references: seq<Reference>): Option<BudgetError> {
    if references == [] then None
    else if !references[0].plainTextFile then Some(ReferencesUnsupported)
    else if !Acceptable(references[0]) then Some(ReferenceInvalid)
    else FirstProblem(references[1..])
  }

  function ReferenceBytes(references: seq<Reference>): Result<nat, BudgetError> {
    match FirstProblem(references)
    case Some(e) => Err(e)
    case None => Ok(TotalBytes(references))
  }

  /** The byte-summing loop, failing closed at the first reference it cannot bound. */
  method BoundedTextReferenceBytes(references: seq<Reference>) returns (r: Result<nat, BudgetError>)
    ensures r == ReferenceBytes(references)
    ensures r.Ok? <==> forall i :: 0 <= i < |references| ==> Acceptable(references[i])
  {
    var bytes := 0;
    for i := 0 to |references|
      invariant bytes + TotalBytes(references[i..]) == TotalBytes(references)
      invariant FirstProblem(references[i..]) == FirstProblem(references)
      invariant forall j :: 0 <= j < i ==> Acceptable(references[j])
    {
      var reference := references[i];
      assert references[i..][1..] == references[i + 1..];
      if !reference.plainTextFile {
        return Err(ReferencesUnsupported);
      }
      if !reference.canonicalBase64 {
        return Err(ReferenceInvalid);
      }
      if !reference.validUtf8 {
        return Err(ReferenceInvalid);
      }
      bytes := bytes + reference.bytes;
    }
    r := Ok(bytes);
  }

  /** The most input tokens the reservation allows for. */
  function InputTokenBound(request: Request): int {
    request.inputBytes + request.instructionBytes + TotalBytes(request.references) + REQUEST_OVERHEAD_TOKEN_RESERVE
  }

  /** `estimateTextRequestReservationUsdMicros`. */
  function Reservation(request: Request, pricing: Option<Pricing>, outputLimit: Option<int>, safety: real): Result<int, BudgetError> {
    match MaxOutputTokens(request.maxOutputTokens, outputLimit)
    case Err(e) => Err(e)
    case Ok(maxOutput) =>
      if pricing.None? then Err(ModelNotBudgeted)
      else if safety < 1.0 then Err(BadSafetyMultiplier)
      else
        match ReferenceBytes(request.references)
        case Err(e) => Err(e)
        case Ok(_) =>
          var raw := CostUsdMicros(InputTokenBound(request), 0, maxOutput, pricing.value);
          Ok(Max(1, Ceil(raw as real * safety)))
  }

  /** `reservationToRelease`: what a finished call gives back. */
  function ReservationToRelease(reservation: int, actual: Option<int>): int {
    if actual.None? || actual.value < 0 then 0
    else Max(0, reservation - Ceil(actual.value as real * SETTLED_COST_MARGIN))
  }

  // ---- Soundness of the two amounts ----

  lemma TimesMonotone(a: real, b: real, rate: real)
    requires a <= b && rate >= 0.0
    ensures a * rate <= b * rate
  {
  }

  /** Input at the dearer of the two rates bounds any split of it. */
  lemma SplitBound(u: real, c: real, m: real, inRate: real, cachedRate: real, dearer: real)
    requires 0.0 <= u && 0.0 <= c && u + c <= m
    requires 0.0 <= inRate <= dearer && 0.0 <= cachedRate <= dearer
    ensures 0.0 <= u * inRate + c * cachedRate <= m * dearer
  {
    TimesMonotone(u + c, m, dearer);
    assert u * inRate <= u * dearer && c * cachedRate <= c * dearer;
    assert u * dearer + c * dearer == (u + c) * dearer;
  }

  /** The dearest usage within the bounds: everything cached if that is the dearer rate, else nothing. */
  function WorstCost(maxInput: int, maxOutput: int, p: Pricing): int {
    CostUsdMicros(maxInput, if CachedRate(p) > p.input then maxInput else 0, maxOutput, p)
  }

  function DearerRate(p: Pricing): real {
    if CachedRate(p) > p.input then CachedRate(p) else p.input
  }

  lemma WorstRaw(maxInput: int, maxOutput: int, p: Pricing)
    requires 0 <= maxInput
    ensures RawCost(maxInput, if CachedRate(p) > p.input then maxInput else 0, maxOutput, p)
      == maxInput as real * DearerRate(p) + Max(0, maxOutput) as real * p.output
  {
    assert 0.0 * CachedRate(p) == 0.0 && 0.0 * p.input == 0.0;
  }

  lemma RawIsBounded(inputTokens: int, cachedInputTokens: int, outputTokens: int, maxInput: int, maxOutput: int, p: Pricing)
    requires LegalRates(p) && 0 <= maxInput && inputTokens <= maxInput && outputTokens <= maxOutput
    ensures RawCost(inputTokens, cachedInputTokens, outputTokens, p)
      <= maxInput as real * DearerRate(p) + Max(0, maxOutput) as real * p.output
  {
    var safeCached := Min(Max(0, cachedInputTokens), Max(0, inputTokens));
    var uncached := Max(0, inputTokens - safeCached);
    SplitBound(uncached as real, safeCached as real, maxInput as real, p.input, CachedRate(p), DearerRate(p));
    TimesMonotone(Max(0, outputTokens) as real, Max(0, maxOutput) as real, p.output);
  }

  lemma WorstCostIsWorst(inputTokens: int, cachedInputTokens: int, outputTokens: int, maxInput: int, maxOutput: int,
                         p: Pricing)
    requires LegalRates(p) && 0 <= maxInput && inputTokens <= maxInput && outputTokens <= maxOutput
    ensures CostUsdMicros(inputTokens, cachedInputTokens, outputTokens, p) <= WorstCost(maxInput, maxOutput, p)
  {
    RawIsBounded(inputTokens, cachedInputTokens, outputTokens, maxInput, maxOutput, p);
    WorstRaw(maxInput, maxOutput, p);
  }

  /**
   * The token counts the estimate assumes the provider keeps to: a token of input for every byte that
   * is sent and 2048 more, and output within what was asked for and within the limit of the model.
   */
  predicate WithinTokenBounds(request: Request, outputLimit: Option<int>, inputTokens: int, outputTokens: int)
    requires request.maxOutputTokens.Some? && outputLimit.Some?
  {
    && inputTokens <= request.inputBytes + request.instructionBytes + TotalBytes(request.references) + 2048
    && outputTokens <= request.maxOutputTokens.value && outputTokens <= outputLimit.value
  }

  /** Decidable before the call: the dearest usage within the bounds costs no more than the reservation. */
  predicate Covered(request: Request, p: Pricing, outputLimit: Option<int>, safety: real)
    requires Reservation(request, Some(p), outputLimit, safety).Ok?
  {
    WorstCost(InputTokenBound(request), MaxOutputTokens(request.maxOutputTokens, outputLimit).value, p)
    <= Reservation(request, Some(p), outputLimit, safety).value
  }

  predicate CostsAtMost(input: int, cached: int, output: int, p: Pricing, amount: int) {
    CostUsdMicros(input, cached, output, p) <= amount
  }

  /**
   * A call never costs more than what was reserved for it, whatever tokens within the bounds the
   * provider reports, if and only if the dearest usage within the bounds is covered.
   */
  lemma CostCoveredExactly(request: Request, p: Pricing, outputLimit: Option<int>, safety: real)
    requires LegalRates(p) && Reservation(request, Some(p), outputLimit, safety).Ok?
    ensures
      (forall input: int, cached: int, output: int :: WithinTokenBounds(request, outputLimit, input, output) ==>
         CostsAtMost(input, cached, output, p, Reservation(request, Some(p), outputLimit, safety).value))
      <==> Covered(request, p, outputLimit, safety)
  {
    var m, n := InputTokenBound(request), MaxOutputTokens(request.maxOutputTokens, outputLimit).value;
    var amount := Reservation(request, Some(p), outputLimit, safety).value;
    if Covered(request, p, outputLimit, safety) {
      forall input: int, cached: int, output: int | WithinTokenBounds(request, outputLimit, input, output)
        ensures CostsAtMost(input, cached, output, p, amount)
      {
        WorstCostIsWorst(input, cached, output, m, n, p);
      }
    } else {
      assert WithinTokenBounds(request, outputLimit, m, n);
      assert !CostsAtMost(m, if CachedRate(p) > p.input then m else 0, n, p, amount);
    }
  }

  /** Cached input no dearer than fresh input is enough for any safety multiplier the gateway accepts. */
  lemma CheapCacheIsCovered(request: Request, p: Pricing, outputLimit: Option<int>, safety: real)
    requires LegalRates(p) && Reservation(request, Some(p), outputLimit, safety).Ok? && CachedRate(p) <= p.input
    ensures Covered(request, p, outputLimit, safety)
  {
    var n := MaxOutputTokens(request.maxOutputTokens, outputLimit).value;
    var raw := CostUsdMicros(InputTokenBound(request), 0, n, p);
    TimesMonotone(1.0, safety, raw as real);
    assert raw as real * safety == safety * raw as real;
  }

  /**
   * If the provider reports no more tokens than the request's bytes plus overhead and
   * the clamped output limit, and cached input is no dearer than fresh input, then the
   * call costs no more than what was reserved for it.
   */
  lemma CostWithinReservation(request: Request, p: Pricing, outputLimit: Option<int>, safety: real,
                              inputTokens: int, cachedInputTokens: int, outputTokens: int)
    requires LegalRates(p) && Reservation(request, Some(p), outputLimit, safety).Ok? && CachedRate(p) <= p.input
    requires WithinTokenBounds(request, outputLimit, inputTokens, outputTokens)
    ensures CostUsdMicros(inputTokens, cachedInputTokens, outputTokens, p)
      <= Reservation(request, Some(p), outputLimit, safety).value
  {
    CheapCacheIsCovered(request, p, outputLimit, safety);
    CostCoveredExactly(request, p, outputLimit, safety);
    assert CostsAtMost(inputTokens, cachedInputTokens, outputTokens, p,
                       Reservation(request, Some(p), outputLimit, safety).value);
  }

  /** Legal rates do not suffice: with cached input dearer than fresh a call can cost more than was reserved. */
  lemma DearCachedRateBreaksBound()
    ensures exists request: Request, p: Pricing, input: int, cached: int, output: int ::
      && LegalRates(p) && Reservation(request, Some(p), Some(1), 1.0).Ok?
      && WithinTokenBounds(request, Some(1), input, output)
      && !CostsAtMost(input, cached, output, p, Reservation(request, Some(p), Some(1), 1.0).value)
  {
    var request, p := Request(0, 0, [], Some(1)), Pricing(1.0, Some(2.0), 0.0);
    assert RawCost(2048, 2048, 1, p) == 4096.0;
    assert RawCost(2048, 0, 1, p) == 2048.0;
    assert Reservation(request, Some(p), Some(1), 1.0) == Ok(2048);
    assert !Covered(request, p, Some(1), 1.0);
    CostCoveredExactly(request, p, Some(1), 1.0);
  }

  /**
   * What is kept of a reservation after settlement: all of it when no cost is known or the cost does
   * not make sense, else 1.25 times the cost rounded up, but never more than was reserved and never
   * less than the cost.
   */
  lemma KeptCoversCost(reservation: nat, actual: Option<int>)
    ensures var kept := reservation - ReservationToRelease(reservation, actual);
      && 0 <= kept <= reservation
      && (actual.None? || actual.value < 0 ==> kept == reservation)
      && (actual.Some? && actual.value >= 0 ==>
           && Min(actual.value, reservation) <= kept && 4 * (kept - 1) < 5 * actual.value
           && (kept < reservation ==> 5 * actual.value <= 4 * kept))
  {
    if actual.Some? {
      assert actual.value as real * SETTLED_COST_MARGIN == (5 * actual.value) as real / 4.0;
    }
  }

  // ---- The amounts, exactly ----

  /** A cost is the nearest whole number of micro-USD to the price of its tokens, halves rounded up. */
  lemma CostIsNearest(inputTokens: nat, cachedInputTokens: nat, outputTokens: nat, p: Pricing)
    requires LegalRates(p) && cachedInputTokens <= inputTokens
    ensures var price := (inputTokens - cachedInputTokens) as real * p.input
                         + cachedInputTokens as real * CachedRate(p) + outputTokens as real * p.output;
            var cost := CostUsdMicros(inputTokens, cachedInputTokens, outputTokens, p) as real;
            cost - 0.5 <= price < cost + 0.5
  {
    SensibleRaw(inputTokens, cachedInputTokens, outputTokens, p);
    RoundIsNearest(RawCost(inputTokens, cachedInputTokens, outputTokens, p));
  }

  lemma SensibleRaw(inputTokens: nat, cachedInputTokens: nat, outputTokens: nat, p: Pricing)
    requires LegalRates(p) && cachedInputTokens <= inputTokens
    ensures RawCost(inputTokens, cachedInputTokens, outputTokens, p)
         == (inputTokens - cachedInputTokens) as real * p.input + cachedInputTokens as real * CachedRate(p)
            + outputTokens as real * p.output
         >= 0.0
  {
    TimesMonotone(0.0, (inputTokens - cachedInputTokens) as real, p.input);
    TimesMonotone(0.0, cachedInputTokens as real, CachedRate(p));
    TimesMonotone(0.0, outputTokens as real, p.output);
  }

  lemma RoundIsNearest(x: real)
    requires x >= 0.0
    ensures Round(x) >= 0 && Round(x) as real - 0.5 <= x < Round(x) as real + 0.5
  {
  }

  /** Counts that make no sense cost what the nearest sensible counts cost. */
  lemma OddCountsAreClamped(inputTokens: int, cachedInputTokens: int, outputTokens: int, p: Pricing)
    ensures CostUsdMicros(inputTokens, cachedInputTokens, outputTokens, p)
         == CostUsdMicros(Max(0, inputTokens), Min(Max(0, cachedInputTokens), Max(0, inputTokens)), Max(0, outputTokens), p)
  {
  }

  /**
   * A reservation is made exactly for a request with a positive output limit, a model with a price
   * and a limit, a multiplier of at least 1 and references that can be bounded. It is the least whole
   * number of micro-USD, and at least 1, that covers the multiplied cost of the largest usage without
   * cached input.
   */
  lemma ReservationExactly(request: Request, pricing: Option<Pricing>, outputLimit: Option<int>, safety: real)
    ensures var r := Reservation(request, pricing, outputLimit, safety);
      && (r.Ok? <==>
           && request.maxOutputTokens.Some? && request.maxOutputTokens.value >= 1 && outputLimit.Some?
           && pricing.Some? && safety >= 1.0
           && forall i :: 0 <= i < |request.references| ==> Acceptable(request.references[i]))
      && (r.Ok? ==>
           var input := request.inputBytes + request.instructionBytes + TotalBytes(request.references) + 2048;
           var output := Min(request.maxOutputTokens.value, outputLimit.value);
           var cost := CostUsdMicros(input, 0, output, pricing.value) as real * safety;
           && r.value >= 1 && r.value as real >= cost
           && (r.value > 1 ==> (r.value - 1) as real < cost))
  {
    NoProblemMeansAcceptable(request.references);
  }

  /** Every reference counts: what one is longer by, the bound is longer by. */
  lemma {:induction false} EveryReferenceCounts(references: seq<Reference>, i: nat, longer: Reference)
    requires i < |references|
    ensures TotalBytes(references[i := longer]) - longer.bytes == TotalBytes(references) - references[i].bytes
    decreases i
  {
    if i > 0 {
      EveryReferenceCounts(references[1..], i - 1, longer);
      assert references[i := longer][1..] == references[1..][i - 1 := longer];
    } else {
      assert references[0 := longer][1..] == references[1..];
    }
  }

  lemma {:induction false} NoProblemMeansAcceptable(references: seq<Reference>)
    ensures FirstProblem(references).None? <==> forall i :: 0 <= i < |references| ==> Acceptable(references[i])
  {
    if references != [] {
      NoProblemMeansAcceptable(references[1..]);
      assert forall i :: 0 < i < |references| ==> references[i] == references[1..][i - 1];
    }
  }
}
