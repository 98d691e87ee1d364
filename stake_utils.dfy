/** Helpers of the stake form (features/stake/stake-form/utils.ts): the
    gas-limit padding applied before submitting, the referral resolver, and
    the two error classes the stake flow raises. */
module StakeUtils {
  import opened Wrappers

  // ---------------------------------------------------------------------
  // Gas-limit padding
  // ---------------------------------------------------------------------

  /** `applyGasLimitRatio(gasLimit)`: `gasLimit.mul(RATIO * PRECISION).div(PRECISION)`
      on BigNumbers, with `scaledRatio` the integer `RATIO * PRECISION`.
      BigNumber division truncates, which on these non-negative values is the
      floor; a zero `PRECISION` makes the division throw. */
  function ApplyGasLimitRatio(gasLimit: nat, scaledRatio: nat, precision: nat): (r: Option<nat>)
    ensures r.Some? <==> precision > 0
    ensures r.Some? ==> r.value * precision <= gasLimit * scaledRatio < (r.value + 1) * precision
  {
    if precision == 0 then None else Some(gasLimit * scaledRatio / precision)
  }

  lemma GasLimitRatioOfZero(scaledRatio: nat, precision: nat)
    requires precision > 0
    ensures ApplyGasLimitRatio(0, scaledRatio, precision) == Some(0)
  {
  }

  /** A larger estimate never yields a smaller padded limit. */
  lemma GasLimitRatioMonotone(g1: nat, g2: nat, scaledRatio: nat, precision: nat)
    requires precision > 0 && g1 <= g2
    ensures ApplyGasLimitRatio(g1, scaledRatio, precision).value <= ApplyGasLimitRatio(g2, scaledRatio, precision).value
  {
    var r1 := ApplyGasLimitRatio(g1, scaledRatio, precision).value;
    var r2 := ApplyGasLimitRatio(g2, scaledRatio, precision).value;
    MulMonotone(g1, g2, scaledRatio);
    if r1 > r2 {
      MulMonotone(r2 + 1, r1, precision);
      assert false;
    }
  }

  /** With a ratio of at least one the padded limit is at least the estimate. */
  lemma GasLimitRatioPads(gasLimit: nat, scaledRatio: nat, precision: nat)
    requires precision > 0 && scaledRatio >= precision
    ensures ApplyGasLimitRatio(gasLimit, scaledRatio, precision).value >= gasLimit
  {
    var r := ApplyGasLimitRatio(gasLimit, scaledRatio, precision).value;
    MulMonotone(precision, scaledRatio, gasLimit);
    assert gasLimit * precision <= gasLimit * scaledRatio;
    if r < gasLimit {
      MulMonotone(r + 1, gasLimit, precision);
      assert false;
    }
  }

  /** With a ratio of exactly one the estimate is used unchanged. */
  lemma GasLimitRatioIdentity(gasLimit: nat, precision: nat)
    requires precision > 0
    ensures ApplyGasLimitRatio(gasLimit, precision, precision) == Some(gasLimit)
  {
    var r := ApplyGasLimitRatio(gasLimit, precision, precision).value;
    GasLimitRatioPads(gasLimit, precision, precision);
    if r > gasLimit {
      MulMonotone(gasLimit + 1, r, precision);
      assert false;
    }
  }

  lemma MulMonotone(a: nat, b: nat, c: nat)
    requires a <= b
    ensures a * c <= b * c
  {
  }

  // ---------------------------------------------------------------------
  // Errors
  // ---------------------------------------------------------------------

  /** `ReferralAddressError` and `MockLimitReachedError(message)`. */
  datatype StakeError = ReferralAddressError | MockLimitReachedError(text: string)

  const INVALID_REFERRAL: string := "execution reverted: INVALID_REFERRAL"
  const STAKE_LIMIT: string := "execution reverted: STAKE_LIMIT"

  /** The `message` an error was constructed with. */
  function Message(e: StakeError): (m: string)
    ensures e.ReferralAddressError? ==> m == INVALID_REFERRAL
    ensures e.MockLimitReachedError? ==> m == e.text
  {
    match e
    case ReferralAddressError => INVALID_REFERRAL
    case MockLimitReachedError(text) => text
  }

  /** The `reason` field, which the transaction modal shows. */
  function Reason(e: StakeError): (r: string)
    ensures e.ReferralAddressError? ==> r == Message(e)
    ensures e.MockLimitReachedError? ==> r == STAKE_LIMIT
  {
    match e
    case ReferralAddressError => INVALID_REFERRAL
    case MockLimitReachedError(_) => STAKE_LIMIT
  }

  /** The two reasons differ, so the modal can tell the errors apart whatever
      message the stake-limit error carries. */
  lemma ReasonsDistinguishErrors(text: string)
    ensures Reason(ReferralAddressError) != Reason(MockLimitReachedError(text))
  {
    assert INVALID_REFERRAL[20] != STAKE_LIMIT[20];
  }

  // ---------------------------------------------------------------------
  // Referral resolution
  // ---------------------------------------------------------------------

  /** What `providerRpc.resolveName(input)` did: resolved to an address or to
      `null`, or threw. */
  datatype ResolveOutcome = Resolved(address: Option<string>) | ResolveThrew

  /** JavaScript truthiness of the resolved value. */
  predicate ResolvedToAddress(res: ResolveOutcome) {
    res.Resolved? && res.address.Some? && res.address.value != ""
  }

  /** `getAddress(input, providerRpc)`: an input that is already an address is
      returned as it is and the resolver is not consulted; otherwise a
      non-empty resolved name is returned; anything else, including a throwing
      resolver, ends in `ReferralAddressError`. */
  function GetAddress(input: string, isAddress: string -> bool, resolution: ResolveOutcome): (r: Result<string, StakeError>)
    ensures isAddress(input) ==> r == Success(input)
    ensures !isAddress(input) && ResolvedToAddress(resolution) ==> r == Success(resolution.address.value)
    ensures r.Failure? <==> !isAddress(input) && !ResolvedToAddress(resolution)
    ensures r.Failure? ==> r.error == ReferralAddressError
  {
    if isAddress(input) then Success(input)
    else
      match resolution
      case ResolveThrew => Failure(ReferralAddressError)
      case Resolved(address) =>
        if address.Some? && address.value != "" then Success(address.value)
        else Failure(ReferralAddressError)
  }

  /** For a literal address the resolver's behaviour does not matter. */
  lemma GetAddressIgnoresResolver(input: string, isAddress: string -> bool, res1: ResolveOutcome, res2: ResolveOutcome)
    requires isAddress(input)
    ensures GetAddress(input, isAddress, res1) == GetAddress(input, isAddress, res2)
  {
  }
}
