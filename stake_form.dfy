/** The stake form's data and provider
    (features/stake/stake-form/stake-form-context/stake-form-context.tsx):
    the derived network values (`gasCost`, `stakeableEther`, the multisig
    flags), the form's default values, and the effect that consumes the
    `ref` and `amount` URL query parameters. */
module StakeForm {
  import opened Wrappers

  // ---------------------------------------------------------------------
  // Derived network data
  // ---------------------------------------------------------------------

  /** `gasCost`: the submit gas limit times the maximum gas price once both
      are loaded. A loaded BigNumber is truthy even when it is zero. */
  function GasCost(gasLimit: Option<nat>, maxGasPrice: Option<nat>): (r: Option<nat>)
    ensures r.Some? <==> gasLimit.Some? && maxGasPrice.Some?
    ensures r.Some? ==> r.value == gasLimit.value * maxGasPrice.value
  {
    if gasLimit.Some? && maxGasPrice.Some? then Some(gasLimit.value * maxGasPrice.value) else None
  }

  datatype StakingLimitInfo = StakingLimitInfo(isStakingLimitSet: bool, currentStakeLimit: nat)

  /** `stakeableEther`: the ether balance, capped by the current stake limit
      when a limit is set. */
  function StakeableEther(etherBalance: Option<nat>, info: Option<StakingLimitInfo>): (r: Option<nat>)
    ensures r.Some? <==> etherBalance.Some?
    ensures r.Some? ==> r.value <= etherBalance.value
    ensures r.Some? && info.Some? && info.value.isStakingLimitSet ==>
              r.value <= info.value.currentStakeLimit
              && (r.value == etherBalance.value || r.value == info.value.currentStakeLimit)
    ensures !(info.Some? && info.value.isStakingLimitSet) ==> r == etherBalance
  {
    if etherBalance.Some? && info.Some? && info.value.isStakingLimitSet then
      Some(if etherBalance.value < info.value.currentStakeLimit then etherBalance.value else info.value.currentStakeLimit)
    else
      etherBalance
  }

  /** What the data context reports about the multisig check, and how it
      configures the max-amount hook. */
  datatype MultisigView = MultisigView(isMultisig: Option<bool>, isPadded: bool, maxAmountLoading: bool)

  /** `isMultisig` is hidden while its check loads; the max amount is padded
      for gas only for an ordinary account, and waits for the check. */
  function Multisig(isMultisig: bool, isMultisigLoading: bool): (v: MultisigView)
    ensures v.isMultisig.None? <==> isMultisigLoading
    ensures v.isMultisig.Some? ==> v.isMultisig.value == isMultisig
    ensures v.isPadded <==> !isMultisig
    ensures v.maxAmountLoading <==> isMultisigLoading
  {
    MultisigView(if isMultisigLoading then None else Some(isMultisig), !isMultisig, isMultisigLoading)
  }

  // ---------------------------------------------------------------------
  // The form and its URL query
  // ---------------------------------------------------------------------

  /** `StakeFormInput`. Ether amounts can parse to negative values, so the
      amount is an `int`. */
  datatype StakeFormInput = StakeFormInput(amount: Option<int>, referral: Option<string>)

  /** `defaultValues` of the form. */
  function DefaultValues(): (v: StakeFormInput)
    ensures v.amount.None? && v.referral.None?
  {
    StakeFormInput(None, None)
  }

  /** A Next.js query value: a single string or a repeated parameter. */
  datatype QueryValue = Single(text: string) | Multiple(items: seq<string>)

  type Query = map<string, QueryValue>

  datatype Router = Router(isReady: bool, pathname: string, query: Query)

  /** The side effects of the query-consuming effect, in the order issued. */
  datatype Effect =
    | SetReferral(referral: string)                 // setValue('referral', ref)
    | ReplaceRoute(pathname: string, query: Query)  // router.replace({pathname, query: rest})
    | SetAmount(amount: int)                        // setValue('amount', parseEther(amount))

  /** A query parameter given exactly once, as `typeof p === 'string'`. */
  function StringParam(query: Query, name: string): Option<string> {
    if name in query && query[name].Single? then Some(query[name].text) else None
  }

  /** `rest`: the query without `amount` and `ref`, whatever their shape. */
  function Rest(query: Query): (r: Query)
    ensures "amount" !in r && "ref" !in r
    ensures forall k :: k in query && k != "amount" && k != "ref" ==> k in r && r[k] == query[k]
    ensures r.Keys <= query.Keys
  {
    query - {"amount", "ref"}
  }

  /** The effects the query-consuming effect issues. Nothing happens before
      the router is ready. A string `ref` sets the referral first. A string
      `amount` then replaces the route with one whose query lacks `amount`
      and `ref`, and finally sets the parsed amount; when `parseEther` throws
      the error is swallowed and the earlier effects stand. */
  function QueryEffects(router: Router, parseEther: string -> Option<int>): (r: seq<Effect>)
    ensures !router.isReady ==> r == []
    ensures router.isReady && StringParam(router.query, "ref").Some? ==>
              |r| >= 1 && r[0] == SetReferral(StringParam(router.query, "ref").value)
    ensures forall i :: 0 <= i < |r| && r[i].SetReferral? ==>
              i == 0 && router.isReady && StringParam(router.query, "ref") == Some(r[i].referral)
    ensures router.isReady && StringParam(router.query, "amount").Some? ==>
              ReplaceRoute(router.pathname, Rest(router.query)) in r
    ensures forall i :: 0 <= i < |r| && r[i].ReplaceRoute? ==>
              r[i] == ReplaceRoute(router.pathname, Rest(router.query))
              && router.isReady && StringParam(router.query, "amount").Some?
    ensures router.isReady && StringParam(router.query, "amount").Some?
            && parseEther(StringParam(router.query, "amount").value).Some? ==>
              r[|r| - 1] == SetAmount(parseEther(StringParam(router.query, "amount").value).value)
    ensures forall i :: 0 <= i < |r| && r[i].SetAmount? ==>
              i == |r| - 1 && i >= 1 && r[i - 1].ReplaceRoute?
              && parseEther(StringParam(router.query, "amount").value) == Some(r[i].amount)
  {
    if !router.isReady then []
    else
      var ref := StringParam(router.query, "ref");
      var amount := StringParam(router.query, "amount");
      var referralPart := if ref.Some? then [SetReferral(ref.value)] else [];
      var amountPart :=
        if amount.None? then []
        else
          var parsed := parseEther(amount.value);
          [ReplaceRoute(router.pathname, Rest(router.query))] + (if parsed.Some? then [SetAmount(parsed.value)] else []);
      referralPart + amountPart
  }

  /** The form values after `effects` ran; route replacements do not touch
      the form. */
  function ApplyEffects(form: StakeFormInput, effects: seq<Effect>): StakeFormInput
    decreases |effects|
  {
    if effects == [] then form
    else
      var next := match effects[0]
        case SetReferral(r) => form.(referral := Some(r))
        case ReplaceRoute(_, _) => form
        case SetAmount(a) => form.(amount := Some(a));
      ApplyEffects(next, effects[1..])
  }

  /** Running two batches of effects is running them one after the other. */
  lemma {:induction false} ApplyEffectsAppend(form: StakeFormInput, a: seq<Effect>, b: seq<Effect>)
    ensures ApplyEffects(form, a + b) == ApplyEffects(ApplyEffects(form, a), b)
    decreases |a|
  {
    if a == [] {
      assert a + b == b;
    } else {
      assert (a + b)[0] == a[0];
      assert (a + b)[1..] == a[1..] + b;
      var next := match a[0]
        case SetReferral(r) => form.(referral := Some(r))
        case ReplaceRoute(_, _) => form
        case SetAmount(x) => form.(amount := Some(x));
      ApplyEffectsAppend(next, a[1..], b);
    }
  }

  /** Starting from the defaults, the form ends up holding the `ref` string
      and the parsed `amount` string, each only if present (and, for the
      amount, parseable) and only once the router is ready. */
  lemma ConsumedFromDefaults(router: Router, parseEther: string -> Option<int>)
    ensures ApplyEffects(DefaultValues(), QueryEffects(router, parseEther)) ==
              StakeFormInput(
                if router.isReady && StringParam(router.query, "amount").Some? then
                  parseEther(StringParam(router.query, "amount").value)
                else None,
                if router.isReady then StringParam(router.query, "ref") else None)
  {
    var effects := QueryEffects(router, parseEther);
    if router.isReady {
      var ref := StringParam(router.query, "ref");
      var amount := StringParam(router.query, "amount");
      var afterRef := if ref.Some? then DefaultValues().(referral := ref) else DefaultValues();
      var referralPart := if ref.Some? then [SetReferral(ref.value)] else [];
      var amountPart := effects[|referralPart|..];
      assert effects == referralPart + amountPart;
      ApplyEffectsAppend(DefaultValues(), referralPart, amountPart);
      if ref.Some? {
        assert referralPart[1..] == [];
      }
      assert ApplyEffects(DefaultValues(), referralPart) == afterRef;
      if amount.Some? {
        var parsed := parseEther(amount.value);
        var tail := if parsed.Some? then [SetAmount(parsed.value)] else [];
        assert amountPart == [ReplaceRoute(router.pathname, Rest(router.query))] + tail;
        assert amountPart[1..] == tail;
        assert ApplyEffects(afterRef, amountPart) == ApplyEffects(afterRef, tail);
        if parsed.Some? {
          assert tail[1..] == [];
          assert ApplyEffects(afterRef, tail) == afterRef.(amount := parsed);
        }
      }
    }
  }

  /** A failing parse leaves the referral set and the route already replaced. */
  lemma ParseFailureKeepsEarlierEffects(router: Router, parseEther: string -> Option<int>)
    requires router.isReady
    requires StringParam(router.query, "ref").Some? && StringParam(router.query, "amount").Some?
    requires parseEther(StringParam(router.query, "amount").value).None?
    ensures QueryEffects(router, parseEther) ==
              [SetReferral(StringParam(router.query, "ref").value), ReplaceRoute(router.pathname, Rest(router.query))]
  {
  }

  /** The effect itself: it issues the same effects step by step, returning
      early when the router is not ready and when the amount does not parse
      (the `catch` that swallows the error). */
  method ConsumeQuery(router: Router, parseEther: string -> Option<int>) returns (effects: seq<Effect>)
    ensures effects == QueryEffects(router, parseEther)
  {
    effects := [];
    if !router.isReady {
      return;
    }
    var query := router.query;
    var rest := query - {"amount", "ref"};
    if "ref" in query && query["ref"].Single? {
      effects := effects + [SetReferral(query["ref"].text)];
    }
    if "amount" in query && query["amount"].Single? {
      effects := effects + [ReplaceRoute(router.pathname, rest)];
      var parsed := parseEther(query["amount"].text);
      if parsed.None? {
        return;
      }
      effects := effects + [SetAmount(parsed.value)];
    }
  }
}
