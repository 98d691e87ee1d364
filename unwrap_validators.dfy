/** The unwrap form's validation resolver
    (features/wsteth/unwrap/unwrap-form-context/unwrap-form-validators.tsx).
    The two shared validators, `formatEther`, the token display name and the
    awaited validation context are inputs: each validator is given as the
    outcome it has (passing, or the error it throws), and the context as what
    the promise settled to. */
module UnwrapValidators {
  import opened Wrappers

  /** An error thrown inside the resolver's `try` block. */
  datatype Thrown =
    | InvariantFailed(message: string)             // tiny-invariant
    | ValidationFailed(field: string, message: string)  // a validator's ValidationError
    | Other(description: string)                   // a rejected or timed-out context promise

  /** What the awaited context promise settled to. `maxAmount` is a BigNumber
      or missing; a BigNumber is truthy even when zero. */
  datatype ContextOutcome =
    | Resolved(isWalletActive: bool, maxAmount: Option<nat>)
    | Rejected(error: Thrown)

  /** The form's values; only `amount` is read, and it is passed through. */
  datatype UnwrapFormInput = UnwrapFormInput(amount: Option<nat>)

  /** What the resolver returns: the values with a map of field errors, or
      what `handleResolverValidationError(error, 'UnwrapForm',
      'dummyErrorField')` builds from a caught error. */
  datatype ResolverResult =
    | Values(values: UnwrapFormInput, errors: map<string, string>)
    | Handled(error: Thrown, formName: string, fieldName: string)

  const CONTEXT_MISSING: string := "validation context must be presented as context promise"
  const MAX_AMOUNT_MISSING: string := "maxAmount must be presented"
  const WALLET_NOT_CONNECTED: string := "wallet is not connected"
  const FORM_NAME: string := "UnwrapForm"
  const DUMMY_FIELD: string := "dummyErrorField"

  const MAX_PREFIX: string := "Entered "
  const MAX_MIDDLE: string := " amount exceeds your available balance of "

  /** `messageMaxAmount(max)`, with the wstETH display name and `formatEther`
      as inputs. */
  function MessageMaxAmount(max: nat, displayName: string, formatEther: nat -> string): (m: string)
    ensures |m| == |MAX_PREFIX| + |displayName| + |MAX_MIDDLE| + |formatEther(max)|
    ensures m[..|MAX_PREFIX|] == MAX_PREFIX
    ensures m[|MAX_PREFIX|..|MAX_PREFIX| + |displayName|] == displayName
    ensures m[|MAX_PREFIX| + |displayName|..|m| - |formatEther(max)|] == MAX_MIDDLE
    ensures m[|m| - |formatEther(max)|..] == formatEther(max)
  {
    MAX_PREFIX + displayName + MAX_MIDDLE + formatEther(max)
  }

  /** The message determines the formatted balance it embeds: two maxima
      whose messages agree format alike. */
  lemma MessageMaxAmountDeterminesBalance(a: nat, b: nat, displayName: string, formatEther: nat -> string)
    requires MessageMaxAmount(a, displayName, formatEther) == MessageMaxAmount(b, displayName, formatEther)
    ensures formatEther(a) == formatEther(b)
  {
    var m := MessageMaxAmount(a, displayName, formatEther);
    var k := |MAX_PREFIX| + |displayName| + |MAX_MIDDLE|;
    assert m[k..] == formatEther(a);
    assert MessageMaxAmount(b, displayName, formatEther)[k..] == formatEther(b);
  }

  /** `UnwrapFormValidationResolver(values, validationContextPromise)`. The
      checks run in the source's order: the context promise must exist, the
      amount format is checked before the context is awaited, and only then
      does the wallet state decide. */
  function Resolve(
    values: UnwrapFormInput,
    contextPromise: Option<ContextOutcome>,
    amountCheck: Outcome<Thrown>,
    maxCheck: (nat, string) -> Outcome<Thrown>,
    displayName: string,
    formatEther: nat -> string): (r: ResolverResult)
    ensures r.Handled? ==> r.formName == FORM_NAME && r.fieldName == DUMMY_FIELD
    ensures r.Values? ==> r.values == values
  {
    var handle := (e: Thrown) => Handled(e, FORM_NAME, DUMMY_FIELD);
    if contextPromise.None? then handle(InvariantFailed(CONTEXT_MISSING))
    else if amountCheck.Fail? then handle(amountCheck.error)
    else
      match contextPromise.value
      case Rejected(error) => handle(error)
      case Resolved(active, maxAmount) =>
        if !active then Values(values, map[DUMMY_FIELD := WALLET_NOT_CONNECTED])
        else if maxAmount.None? then handle(InvariantFailed(MAX_AMOUNT_MISSING))
        else
          var check := maxCheck(maxAmount.value, MessageMaxAmount(maxAmount.value, displayName, formatEther));
          if check.Fail? then handle(check.error) else Values(values, map[])
  }

  /** A missing context promise goes to the error handler, through the first
      invariant, whatever else holds. */
  lemma MissingContextHandled(values: UnwrapFormInput, amountCheck: Outcome<Thrown>, maxCheck: (nat, string) -> Outcome<Thrown>,
                              displayName: string, formatEther: nat -> string)
    ensures Resolve(values, None, amountCheck, maxCheck, displayName, formatEther) ==
              Handled(InvariantFailed(CONTEXT_MISSING), FORM_NAME, DUMMY_FIELD)
  {
  }

  /** The amount check runs before the context is awaited: its error is
      reported whatever the context settles to. */
  lemma AmountCheckComesFirst(values: UnwrapFormInput, context: ContextOutcome, amountError: Thrown,
                              maxCheck: (nat, string) -> Outcome<Thrown>, displayName: string, formatEther: nat -> string)
    ensures Resolve(values, Some(context), Fail(amountError), maxCheck, displayName, formatEther) ==
              Handled(amountError, FORM_NAME, DUMMY_FIELD)
  {
  }

  /** The outcome once the context promise exists and the amount check
      passed: an inactive wallet yields the "not connected" error on the dummy
      field; an active wallet without `maxAmount` fails the second invariant;
      otherwise the max check decides, and it is given the message naming the
      formatted maximum. */
  lemma WalletStateDecides(values: UnwrapFormInput, context: ContextOutcome, maxCheck: (nat, string) -> Outcome<Thrown>,
                           displayName: string, formatEther: nat -> string)
    ensures var r := Resolve(values, Some(context), Pass, maxCheck, displayName, formatEther);
      && (context.Rejected? ==> r == Handled(context.error, FORM_NAME, DUMMY_FIELD))
      && (context.Resolved? && !context.isWalletActive ==>
            r == Values(values, map[DUMMY_FIELD := WALLET_NOT_CONNECTED]))
      && (context.Resolved? && context.isWalletActive && context.maxAmount.None? ==>
            r == Handled(InvariantFailed(MAX_AMOUNT_MISSING), FORM_NAME, DUMMY_FIELD))
      && (context.Resolved? && context.isWalletActive && context.maxAmount.Some? ==>
            var check := maxCheck(context.maxAmount.value, MessageMaxAmount(context.maxAmount.value, displayName, formatEther));
            r == if check.Pass? then Values(values, map[]) else Handled(check.error, FORM_NAME, DUMMY_FIELD))
  {
  }

  /** The values come back with no errors exactly when the context promise
      exists and resolved to an active wallet with a maximum, and both checks
      passed. */
  lemma CleanExactlyWhenChecksPass(values: UnwrapFormInput, contextPromise: Option<ContextOutcome>, amountCheck: Outcome<Thrown>,
                                   maxCheck: (nat, string) -> Outcome<Thrown>, displayName: string, formatEther: nat -> string)
    ensures Resolve(values, contextPromise, amountCheck, maxCheck, displayName, formatEther) == Values(values, map[])
            <==>
            && contextPromise.Some? && contextPromise.value.Resolved?
            && contextPromise.value.isWalletActive && contextPromise.value.maxAmount.Some?
            && amountCheck.Pass?
            && maxCheck(contextPromise.value.maxAmount.value,
                        MessageMaxAmount(contextPromise.value.maxAmount.value, displayName, formatEther)).Pass?
  {
    var notConnected: map<string, string> := map[DUMMY_FIELD := WALLET_NOT_CONNECTED];
    assert DUMMY_FIELD in notConnected;
    assert notConnected != map[];
  }
}
