/** The stake submit callback of `useStake` (features/stake/stake-form/use-stake.ts).
    The wallet, the RPC provider, the contract and the transaction logger are
    not modelled: every call into them is an oracle whose outcome (a value,
    or a throw) is an input. The callback is a method that records, in order,
    each `dispatchModalState` event and each call that matters for ordering,
    and returns the callback's boolean result. */
module UseStake {
  import opened Wrappers
  import StakeUtils

  /** The outcome of an awaited call into the wallet or provider. */
  datatype Call<+T> = Returns(value: T) | Throws

  /** What the hook read from the wallet context. */
  datatype Wallet = Wallet(chainId: Option<nat>, account: Option<string>, hasProviderWeb3: bool, hasStethContract: bool)

  /** `SUBMIT_EXTRA_GAS_TRANSACTION_RATIO * PRECISION` and `PRECISION`. */
  datatype GasConfig = GasConfig(scaledRatio: nat, precision: nat)

  datatype FeeData = FeeData(maxFeePerGas: nat, maxPriorityFeePerGas: nat)

  /** What the signing callback resolved to: a transaction object (with its
      hash) or a bare hash string. */
  datatype TxResult = TxObject(hash: string) | TxHash(hash: string)

  /** The outcomes of the calls the callback makes, fixed in advance. */
  datatype Oracles = Oracles(
    mockLimitReached: bool,                    // QA helpers on and the localStorage flag set
    isContract: Call<bool>,                    // isContract(account, providerRpc)
    isAddress: string -> bool,                 // ethers' isAddress
    resolveName: StakeUtils.ResolveOutcome,    // providerRpc.resolveName(referral)
    multisigSend: Call<string>,                // populateTransaction.submit, then sendUncheckedTransaction
    feeData: Call<FeeData>,                    // getFeeData(staticRpcProvider)
    estimateGas: Call<nat>,                    // estimateGas.submit(referral, overrides)
    submit: Call<TxResult>,                    // submit(referral, overrides with gasLimit)
    wait: Call<()>,                            // transaction.wait()
    onConfirm: Option<Call<()>>)               // the optional onConfirm callback

  datatype TxOperation = Contract

  /** Which part of the callback threw. */
  datatype Thrower = IsContract | MultisigSend | GetFeeData | EstimateGas | GasLimitRatio | Submit | Wait | OnConfirm

  /** The error the catch-all reports. */
  datatype Failure =
    | InvariantFailed(message: string)
    | Raised(error: StakeUtils.StakeError)
    | CallFailed(thrower: Thrower)

  datatype ModalEvent =
    | Start(operation: TxOperation, token: string, amount: int)
    | Signing(operation: TxOperation)
    | Block(txHash: string)
    | SucceededMultisig   // 'success_multisig'
    | Succeeded           // 'success'
    | Error(cause: Failure)

  datatype Overrides = Overrides(value: int, maxPriorityFeePerGas: nat, maxFeePerGas: nat, gasLimit: nat)

  /** One recorded step: a modal event, or a call whose place in the order
      matters. */
  datatype Step =
    | Dispatch(event: ModalEvent)
    | SendUnchecked(referral: string, value: int)
    | SubmitTx(referral: string, overrides: Overrides)
    | Waited
    | Confirmed

  const ETH_TOKEN: string := "ETH"

  /** The first of the callback's `invariant` checks that fails, as its
      message. A BigNumber amount is truthy even when zero; a zero chain id
      and an empty account are not. */
  function MissingInput(amount: Option<int>, wallet: Wallet): (r: Option<string>)
    ensures r.None? <==>
              amount.Some? && wallet.chainId.Some? && wallet.chainId.value != 0
              && wallet.account.Some? && wallet.account.value != ""
              && wallet.hasProviderWeb3 && wallet.hasStethContract
    ensures amount.None? ==> r == Some("amount is null")
  {
    if amount.None? then Some("amount is null")
    else if wallet.chainId.None? || wallet.chainId.value == 0 then Some("chainId is not defined")
    else if wallet.account.None? || wallet.account.value == "" then Some("account is not defined")
    else if !wallet.hasProviderWeb3 then Some("providerWeb3 not defined")
    else if !wallet.hasStethContract then Some("steth is not defined")
    else None
  }

  /** The referral the stake is submitted with: a non-empty referral goes
      through `getAddress`, a null or empty one is replaced by the fallback
      address. */
  function ReferralAddress(referral: Option<string>, fallback: string, o: Oracles): (r: Result<string, StakeUtils.StakeError>)
    ensures referral.None? || referral.value == "" ==> r == Success(fallback)
    ensures referral.Some? && referral.value != "" ==>
              r == StakeUtils.GetAddress(referral.value, o.isAddress, o.resolveName)
    ensures r.Failure? ==> r.error == StakeUtils.ReferralAddressError
  {
    if referral.Some? && referral.value != "" then StakeUtils.GetAddress(referral.value, o.isAddress, o.resolveName)
    else Success(fallback)
  }

  predicate IsError(s: Step) {
    s.Dispatch? && s.event.Error?
  }

  predicate IsSuccess(s: Step) {
    s.Dispatch? && (s.event.Succeeded? || s.event.SucceededMultisig?)
  }

  predicate IsBlock(s: Step) {
    s.Dispatch? && s.event.Block?
  }

  /** No outcome has been reported yet. */
  predicate Open(t: seq<Step>) {
    forall i :: 0 <= i < |t| ==> !IsError(t[i]) && !IsSuccess(t[i])
  }

  /** What the callback produced: the recorded steps and its boolean result. */
  datatype Run = Run(trace: seq<Step>, ok: bool)

  /** The callback has reported exactly once, at the end: success when it
      returns true, an error when it returns false. */
  predicate Terminated(r: Run) {
    && |r.trace| >= 1
    && Open(r.trace[..|r.trace| - 1])
    && (r.ok <==> IsSuccess(r.trace[|r.trace| - 1]))
    && (!r.ok <==> IsError(r.trace[|r.trace| - 1]))
  }

  /** Everything before `signing` succeeded. */
  predicate ReachesSigning(amount: Option<int>, referral: Option<string>, wallet: Wallet, fallback: string, o: Oracles) {
    MissingInput(amount, wallet).None? && !o.mockLimitReached && o.isContract.Returns?
    && ReferralAddress(referral, fallback, o).Success?
  }

  /** The catch-all: whatever was recorded, then the error event. */
  function Fail(prefix: seq<Step>, cause: Failure): (r: Run)
    requires Open(prefix)
    ensures Terminated(r) && !r.ok && r.trace == prefix + [Dispatch(Error(cause))]
  {
    var r := Run(prefix + [Dispatch(Error(cause))], false);
    assert r.trace[..|r.trace| - 1] == prefix;
    r
  }

  /** What may come first: neither a wait nor, when an `onConfirm` is
      given, `success`. */
  predicate CanStart(s: Step, o: Oracles) {
    s != Waited && (o.onConfirm.Some? ==> s != Dispatch(Succeeded))
  }

  /** What may follow `prev`: a wait only right after `block`, and, when an
      `onConfirm` is given, `success` only right after it. */
  predicate CanFollow(prev: Step, s: Step, o: Oracles) {
    && (s == Waited ==> IsBlock(prev))
    && (s == Dispatch(Succeeded) && o.onConfirm.Some? ==> prev == Confirmed)
  }

  /** The wait facts every run keeps, step by step. */
  predicate Ordered(t: seq<Step>, o: Oracles) {
    && (|t| >= 1 ==> CanStart(t[0], o))
    && (forall i, j {:trigger t[i], t[j]} :: 0 <= i < |t| && 0 <= j < |t| && j == i + 1 ==> CanFollow(t[i], t[j], o))
  }

  /** Appending a step that may come where it is put keeps `Ordered`. */
  lemma OrderedSnoc(t: seq<Step>, s: Step, o: Oracles)
    requires Ordered(t, o)
    requires if t == [] then CanStart(s, o) else CanFollow(t[|t| - 1], s, o)
    ensures Ordered(t + [s], o)
  {
    var u := t + [s];
    assert u[0] == if t == [] then s else t[0];
    forall i, j | 0 <= i < j < |u| && j == i + 1 ensures CanFollow(u[i], u[j], o) {
      if j < |t| {
        assert u[i] == t[i] && u[j] == t[j];
      } else {
        assert u[i] == t[|t| - 1] && u[j] == s;
      }
    }
  }

  /** Appending a step other than a wait or a success keeps `Ordered`. */
  lemma OrderedAppend(t: seq<Step>, s: Step, o: Oracles)
    requires Ordered(t, o) && s != Waited && s != Dispatch(Succeeded)
    ensures Ordered(t + [s], o)
  {
    OrderedSnoc(t, s, o);
  }

  /** Appending a step that reports nothing keeps the trace open. */
  lemma OpenAppend(t: seq<Step>, s: Step)
    requires Open(t) && !IsError(s) && !IsSuccess(s)
    ensures Open(t + [s])
  {
    var u := t + [s];
    forall i | 0 <= i < |u| ensures !IsError(u[i]) && !IsSuccess(u[i]) {
      if i < |t| { assert u[i] == t[i]; }
    }
  }

  /** No multisig send, submission, multisig success or `signing` among
      `t[from..]`. */
  predicate NoSend(t: seq<Step>, from: nat) {
    forall i :: from <= i < |t| ==>
      !t[i].SendUnchecked? && !t[i].SubmitTx? && t[i] != Dispatch(SucceededMultisig) && t[i] != Dispatch(Signing(Contract))
  }

  /** A trace that continues `t` with `s` continues `t`; when `s` sends
      nothing, neither does the part from `|t|` on. */
  lemma Extend(t: seq<Step>, s: Step, u: seq<Step>)
    requires |u| > |t| + 1 && u[..|t| + 1] == t + [s] && NoSend(u, |t| + 1) && NoSend([s], 0)
    ensures u[..|t|] == t && u[|t|] == s && NoSend(u, |t|)
  {
    assert u[..|t|] == u[..|t| + 1][..|t|];
    assert u[|t|] == u[..|t| + 1][|t|];
    assert [s][0] == s;
  }

  /** The catch-all after an open, ordered trace keeps it ordered and adds
      nothing but the error. */
  lemma FailFacts(t: seq<Step>, cause: Failure, o: Oracles)
    requires Open(t) && Ordered(t, o)
    ensures var r := Fail(t, cause);
      Ordered(r.trace, o) && |r.trace| > |t| && r.trace[..|t|] == t && NoSend(r.trace, |t|)
  {
    var u := Fail(t, cause).trace;
    assert u == t + [Dispatch(Error(cause))];
    OrderedAppend(t, Dispatch(Error(cause)), o);
    assert u[..|t|] == t;
    forall i | |t| <= i < |u|
      ensures !u[i].SendUnchecked? && !u[i].SubmitTx? && u[i] != Dispatch(SucceededMultisig) && u[i] != Dispatch(Signing(Contract))
    {
      assert u[i] == Dispatch(Error(cause));
    }
  }

  /** `success` after an open, ordered trace (right after `onConfirm` when
      one is given) ends a terminated, ordered run. */
  lemma SucceedFacts(t: seq<Step>, o: Oracles)
    requires Open(t) && Ordered(t, o)
    requires o.onConfirm.Some? ==> |t| >= 1 && t[|t| - 1] == Confirmed
    ensures var r := Run(t + [Dispatch(Succeeded)], true);
      Terminated(r) && Ordered(r.trace, o) && |r.trace| > |t| && r.trace[..|t|] == t && NoSend(r.trace, |t|)
  {
    var u := t + [Dispatch(Succeeded)];
    assert u[..|u| - 1] == t;
    assert u[|t|] == Dispatch(Succeeded);
    OrderedSnoc(t, Dispatch(Succeeded), o);
  }

  /** The awaited `onConfirm`, if one is given, returned. */
  predicate OnConfirmPasses(o: Oracles) {
    o.onConfirm.Some? ==> o.onConfirm.value.Returns?
  }

  /** Everything after the signing callback returned `tx` succeeds: the wait
      of a transaction object and `onConfirm`. */
  predicate ConfirmPasses(tx: TxResult, o: Oracles) {
    (tx.TxObject? ==> o.wait.Returns?) && OnConfirmPasses(o)
  }

  /** `onConfirm`, if given, then `success`; a throwing `onConfirm` ends in
      the catch-all. */
  function Finish(t: seq<Step>, o: Oracles): (r: Run)
    requires Open(t) && Ordered(t, o)
    ensures Terminated(r) && Ordered(r.trace, o) && |r.trace| > |t| && r.trace[..|t|] == t
    ensures NoSend(r.trace, |t|)
    ensures !OnConfirmPasses(o) ==> r == Fail(t, CallFailed(OnConfirm))
    ensures OnConfirmPasses(o) ==>
              r == Run(t + (if o.onConfirm.Some? then [Confirmed] else []) + [Dispatch(Succeeded)], true)
  {
    if !OnConfirmPasses(o) then
      FailFacts(t, CallFailed(OnConfirm), o);
      Fail(t, CallFailed(OnConfirm))
    else
      SucceedAfterConfirm(t, o);
      Run(t + (if o.onConfirm.Some? then [Confirmed] else []) + [Dispatch(Succeeded)], true)
  }

  /** `onConfirm`, when given and returning, then `success`: the run
      reports once and stays ordered, and nothing is sent. */
  lemma SucceedAfterConfirm(t: seq<Step>, o: Oracles)
    requires Open(t) && Ordered(t, o) && OnConfirmPasses(o)
    ensures var r := Run(t + (if o.onConfirm.Some? then [Confirmed] else []) + [Dispatch(Succeeded)], true);
      Terminated(r) && Ordered(r.trace, o) && |r.trace| > |t| && r.trace[..|t|] == t && NoSend(r.trace, |t|)
  {
    if o.onConfirm.Some? {
      var t1 := t + [Confirmed];
      OrderedAppend(t, Confirmed, o);
      OpenAppend(t, Confirmed);
      SucceedFacts(t1, o);
      Extend(t, Confirmed, t1 + [Dispatch(Succeeded)]);
    } else {
      SucceedFacts(t, o);
      assert t + [] == t;
    }
  }

  /** The steps after the signing callback resolved for an ordinary account:
      for a transaction object, `block` with its hash and `WaitThenFinish`;
      a bare hash skips the wait and goes to `Finish`. */
  function Confirm(t: seq<Step>, tx: TxResult, o: Oracles): (r: Run)
    requires Open(t) && Ordered(t, o)
    ensures Terminated(r) && Ordered(r.trace, o) && |r.trace| > |t| && r.trace[..|t|] == t
    ensures NoSend(r.trace, |t|)
    ensures r.ok <==> ConfirmPasses(tx, o)
    ensures tx.TxHash? ==> r == Finish(t, o)
    ensures tx.TxObject? ==> r.trace[|t|] == Dispatch(Block(tx.hash))
    ensures tx.TxObject? && o.wait.Throws? ==>
              r.trace == t + [Dispatch(Block(tx.hash)), Dispatch(Error(CallFailed(Wait)))]
  {
    if tx.TxHash? then Finish(t, o)
    else
      var t1 := t + [Dispatch(Block(tx.hash))];
      OrderedAppend(t, Dispatch(Block(tx.hash)), o);
      OpenAppend(t, Dispatch(Block(tx.hash)));
      var r := WaitThenFinish(t1, o);
      Extend(t, Dispatch(Block(tx.hash)), r.trace);
      assert t1 + [Dispatch(Error(CallFailed(Wait)))] == t + [Dispatch(Block(tx.hash)), Dispatch(Error(CallFailed(Wait)))];
      r
  }

  /** Right after `block`: the wait, then `Finish`, unless the wait threw. */
  function WaitThenFinish(t: seq<Step>, o: Oracles): (r: Run)
    requires Open(t) && Ordered(t, o) && |t| >= 1 && IsBlock(t[|t| - 1])
    ensures Terminated(r) && Ordered(r.trace, o) && |r.trace| > |t| && r.trace[..|t|] == t
    ensures NoSend(r.trace, |t|)
    ensures o.wait.Throws? ==> r == Fail(t, CallFailed(Wait))
    ensures o.wait.Returns? ==> r.trace[|t|] == Waited
    ensures r.ok <==> o.wait.Returns? && OnConfirmPasses(o)
  {
    if o.wait.Throws? then
      FailFacts(t, CallFailed(Wait), o);
      Fail(t, CallFailed(Wait))
    else
      var t1 := t + [Waited];
      OrderedSnoc(t, Waited, o);
      OpenAppend(t, Waited);
      var r := Finish(t1, o);
      Extend(t, Waited, r.trace);
      r
  }

  /** Every submission among `t[from..]` goes to `referralAddress` with the
      amount, the fetched fee data and the padded gas estimate. */
  predicate SubmitsPadded(t: seq<Step>, from: nat, referralAddress: string, value: int, gas: GasConfig, o: Oracles) {
    forall i :: from <= i < |t| && t[i].SubmitTx? ==>
      && t[i].referral == referralAddress
      && o.feeData.Returns? && o.estimateGas.Returns?
      && t[i].overrides.value == value
      && t[i].overrides.maxPriorityFeePerGas == o.feeData.value.maxPriorityFeePerGas
      && t[i].overrides.maxFeePerGas == o.feeData.value.maxFeePerGas
      && StakeUtils.ApplyGasLimitRatio(o.estimateGas.value, gas.scaledRatio, gas.precision) == Some(t[i].overrides.gasLimit)
  }

  /** No multisig send, multisig success or `signing` among `t[from..]`. */
  predicate OnlyOrdinary(t: seq<Step>, from: nat) {
    forall i :: from <= i < |t| ==>
      !t[i].SendUnchecked? && t[i] != Dispatch(SucceededMultisig) && t[i] != Dispatch(Signing(Contract))
  }

  /** The multisig branch of the signing callback: the transaction is sent
      unchecked, and `success_multisig` follows unless the send threw. */
  function SendMultisig(t: seq<Step>, referralAddress: string, value: int, o: Oracles): (r: Run)
    requires Open(t) && Ordered(t, o)
    ensures Terminated(r) && Ordered(r.trace, o)
    ensures r.trace == t + [SendUnchecked(referralAddress, value)]
                         + [if o.multisigSend.Throws? then Dispatch(Error(CallFailed(MultisigSend))) else Dispatch(SucceededMultisig)]
    ensures r.ok <==> o.multisigSend.Returns?
  {
    var t1 := t + [SendUnchecked(referralAddress, value)];
    OrderedAppend(t, SendUnchecked(referralAddress, value), o);
    OpenAppend(t, SendUnchecked(referralAddress, value));
    if o.multisigSend.Throws? then
      FailFacts(t1, CallFailed(MultisigSend), o);
      Fail(t1, CallFailed(MultisigSend))
    else
      OrderedAppend(t1, Dispatch(SucceededMultisig), o);
      var r := Run(t1 + [Dispatch(SucceededMultisig)], true);
      assert r.trace[..|r.trace| - 1] == t1;
      r
  }

  /** The ordinary-account branch: fee data, the gas estimate and its padding,
      then `SubmitAndConfirm`. */
  function SubmitOrdinary(t: seq<Step>, referralAddress: string, value: int, gas: GasConfig, o: Oracles): (r: Run)
    requires Open(t) && Ordered(t, o)
    ensures Terminated(r) && Ordered(r.trace, o) && |r.trace| > |t| && r.trace[..|t|] == t
    ensures SubmitsPadded(r.trace, |t|, referralAddress, value, gas, o)
    ensures OnlyOrdinary(r.trace, |t|)
    ensures o.feeData.Throws? ==> r == Fail(t, CallFailed(GetFeeData))
    ensures o.feeData.Returns? && o.estimateGas.Throws? ==> r == Fail(t, CallFailed(EstimateGas))
    ensures o.feeData.Returns? && o.estimateGas.Returns? && gas.precision == 0 ==> r == Fail(t, CallFailed(GasLimitRatio))
    ensures r.ok <==> o.feeData.Returns? && o.estimateGas.Returns? && gas.precision > 0
                      && o.submit.Returns? && ConfirmPasses(o.submit.value, o)
  {
    if o.feeData.Throws? then
      FailOrdinary(t, CallFailed(GetFeeData), referralAddress, value, gas, o);
      Fail(t, CallFailed(GetFeeData))
    else if o.estimateGas.Throws? then
      FailOrdinary(t, CallFailed(EstimateGas), referralAddress, value, gas, o);
      Fail(t, CallFailed(EstimateGas))
    else
      var fees := o.feeData.value;
      var gasLimit := StakeUtils.ApplyGasLimitRatio(o.estimateGas.value, gas.scaledRatio, gas.precision);
      if gasLimit.None? then
        FailOrdinary(t, CallFailed(GasLimitRatio), referralAddress, value, gas, o);
        Fail(t, CallFailed(GasLimitRatio))
      else
        var submitted := SubmitTx(referralAddress, Overrides(value, fees.maxPriorityFeePerGas, fees.maxFeePerGas, gasLimit.value));
        assert SubmitsPadded([submitted], 0, referralAddress, value, gas, o);
        SubmitAndConfirm(t, submitted, referralAddress, value, gas, o)
  }

  /** A failure before the submission meets the ordinary branch's promises. */
  lemma FailOrdinary(t: seq<Step>, cause: Failure, referralAddress: string, value: int, gas: GasConfig, o: Oracles)
    requires Open(t) && Ordered(t, o)
    ensures var r := Fail(t, cause);
      && Ordered(r.trace, o) && |r.trace| > |t| && r.trace[..|t|] == t
      && SubmitsPadded(r.trace, |t|, referralAddress, value, gas, o) && OnlyOrdinary(r.trace, |t|)
  {
    FailFacts(t, cause, o);
  }

  /** The submission itself, then `Confirm` unless it threw. */
  function SubmitAndConfirm(t: seq<Step>, submitted: Step, referralAddress: string, value: int, gas: GasConfig, o: Oracles): (r: Run)
    requires Open(t) && Ordered(t, o)
    requires submitted.SubmitTx? && SubmitsPadded([submitted], 0, referralAddress, value, gas, o)
    ensures Terminated(r) && Ordered(r.trace, o) && |r.trace| > |t| && r.trace[..|t|] == t
    ensures SubmitsPadded(r.trace, |t|, referralAddress, value, gas, o)
    ensures OnlyOrdinary(r.trace, |t|)
    ensures r.trace[|t|] == submitted
    ensures o.submit.Throws? ==> r.trace == t + [submitted, Dispatch(Error(CallFailed(Submit)))] && !r.ok
    ensures r.ok <==> o.submit.Returns? && ConfirmPasses(o.submit.value, o)
  {
    var t1 := t + [submitted];
    OrderedAppend(t, submitted, o);
    OpenAppend(t, submitted);
    if o.submit.Throws? then
      FailFacts(t1, CallFailed(Submit), o);
      var r := Fail(t1, CallFailed(Submit));
      SubmittedOnce(t, submitted, r.trace, referralAddress, value, gas, o);
      assert t1 + [Dispatch(Error(CallFailed(Submit)))] == t + [submitted, Dispatch(Error(CallFailed(Submit)))];
      r
    else
      var r := Confirm(t1, o.submit.value, o);
      SubmittedOnce(t, submitted, r.trace, referralAddress, value, gas, o);
      r
  }

  /** A trace that continues `t` with one padded submission and then neither
      sends nor submits again satisfies the submission facts from `|t|` on. */
  lemma SubmittedOnce(t: seq<Step>, submitted: Step, u: seq<Step>, referralAddress: string, value: int, gas: GasConfig, o: Oracles)
    requires |u| > |t| + 1 && u[..|t| + 1] == t + [submitted] && NoSend(u, |t| + 1)
    requires submitted.SubmitTx? && SubmitsPadded([submitted], 0, referralAddress, value, gas, o)
    ensures u[..|t|] == t && u[|t|] == submitted
    ensures SubmitsPadded(u, |t|, referralAddress, value, gas, o)
    ensures OnlyOrdinary(u, |t|)
  {
    assert u[..|t|] == u[..|t| + 1][..|t|];
    assert u[|t|] == u[..|t| + 1][|t|] == submitted;
    assert [submitted][0] == submitted;
  }

  /** The signing callback and what follows it, once `signing` was dispatched:
      a multisig account sends the transaction unchecked and reports
      `success_multisig`; an ordinary account submits with the padded gas
      estimate and goes on to `Confirm`. */
  function SignAndConfirm(t: seq<Step>, isMultisig: bool, referralAddress: string, value: int, gas: GasConfig, o: Oracles): (r: Run)
    requires Open(t) && Ordered(t, o)
    ensures Terminated(r) && Ordered(r.trace, o) && |r.trace| > |t| && r.trace[..|t|] == t
    ensures isMultisig ==> r == SendMultisig(t, referralAddress, value, o)
    ensures !isMultisig ==> r == SubmitOrdinary(t, referralAddress, value, gas, o)
  {
    if isMultisig then
      var r := SendMultisig(t, referralAddress, value, o);
      assert r.trace[..|t|] == t;
      r
    else SubmitOrdinary(t, referralAddress, value, gas, o)
  }

  /** The stake callback as a function of its inputs and of the oracles. */
  function StakeRun(amount: Option<int>, referral: Option<string>, wallet: Wallet, fallback: string, gas: GasConfig, o: Oracles): (r: Run)
    ensures Terminated(r) && Ordered(r.trace, o)
  {
    var missing := MissingInput(amount, wallet);
    if missing.Some? then
      FailFacts([], InvariantFailed(missing.value), o);
      Fail([], InvariantFailed(missing.value))
    else
      var t0 := [Dispatch(Start(Contract, ETH_TOKEN, amount.value))];
      OrderedAppend([], t0[0], o);
      OpenAppend([], t0[0]);
      assert [] + [t0[0]] == t0;
      if o.mockLimitReached then
        FailFacts(t0, Raised(StakeUtils.MockLimitReachedError("Stake limit reached")), o);
        Fail(t0, Raised(StakeUtils.MockLimitReachedError("Stake limit reached")))
      else if o.isContract.Throws? then
        FailFacts(t0, CallFailed(IsContract), o);
        Fail(t0, CallFailed(IsContract))
      else
        var resolved := ReferralAddress(referral, fallback, o);
        if resolved.Failure? then
          FailFacts(t0, Raised(resolved.error), o);
          Fail(t0, Raised(resolved.error))
        else
          OrderedAppend(t0, Dispatch(Signing(Contract)), o);
          OpenAppend(t0, Dispatch(Signing(Contract)));
          SignAndConfirm(t0 + [Dispatch(Signing(Contract))], o.isContract.value, resolved.value, amount.value, gas, o)
  }

  // ---------------------------------------------------------------------
  // Properties of the callback
  // ---------------------------------------------------------------------

  /** Missing inputs: no `start`, a single error naming the first missing
      input, result false. Otherwise `start` comes first, with operation
      CONTRACT, token ETH and the amount. */
  lemma StartComesFirst(amount: Option<int>, referral: Option<string>, wallet: Wallet, fallback: string, gas: GasConfig, o: Oracles)
    ensures MissingInput(amount, wallet).Some? ==>
              StakeRun(amount, referral, wallet, fallback, gas, o) ==
                Run([Dispatch(Error(InvariantFailed(MissingInput(amount, wallet).value)))], false)
    ensures MissingInput(amount, wallet).None? ==>
              StakeRun(amount, referral, wallet, fallback, gas, o).trace[0] == Dispatch(Start(Contract, ETH_TOKEN, amount.value))
  {
    var r := StakeRun(amount, referral, wallet, fallback, gas, o);
    if MissingInput(amount, wallet).Some? {
      assert r == Fail([], InvariantFailed(MissingInput(amount, wallet).value));
    } else if ReachesSigning(amount, referral, wallet, fallback, o) {
      ReachedSigning(amount, referral, wallet, fallback, gas, o);
    } else {
      StoppedBeforeSigning(amount, referral, wallet, fallback, gas, o);
      var cause :=
        if o.mockLimitReached then Raised(StakeUtils.MockLimitReachedError("Stake limit reached"))
        else if o.isContract.Throws? then CallFailed(IsContract)
        else Raised(ReferralAddress(referral, fallback, o).error);
      assert r == Fail([Dispatch(Start(Contract, ETH_TOKEN, amount.value))], cause);
    }
  }

  /** A run that fails a check before `signing` holds only `start` (when
      the inputs were present) and the error. */
  lemma StoppedBeforeSigning(amount: Option<int>, referral: Option<string>, wallet: Wallet, fallback: string, gas: GasConfig, o: Oracles)
    requires !ReachesSigning(amount, referral, wallet, fallback, o)
    ensures var t := StakeRun(amount, referral, wallet, fallback, gas, o).trace;
      && 1 <= |t| <= 2
      && (forall i :: 0 <= i < |t| ==> t[i].Dispatch? && (t[i].event.Start? || t[i].event.Error?))
  {
    var r := StakeRun(amount, referral, wallet, fallback, gas, o);
    if MissingInput(amount, wallet).None? {
      var t0 := [Dispatch(Start(Contract, ETH_TOKEN, amount.value))];
      var cause :=
        if o.mockLimitReached then Raised(StakeUtils.MockLimitReachedError("Stake limit reached"))
        else if o.isContract.Throws? then CallFailed(IsContract)
        else Raised(ReferralAddress(referral, fallback, o).error);
      assert r == Fail(t0, cause);
      assert r.trace == [Dispatch(Start(Contract, ETH_TOKEN, amount.value)), Dispatch(Error(cause))];
    }
  }

  /** A run that passed the checks before `signing` is `start`, `signing`
      and the signing callback with the resolved referral. */
  lemma ReachedSigning(amount: Option<int>, referral: Option<string>, wallet: Wallet, fallback: string, gas: GasConfig, o: Oracles)
    requires ReachesSigning(amount, referral, wallet, fallback, o)
    ensures var t1 := [Dispatch(Start(Contract, ETH_TOKEN, amount.value)), Dispatch(Signing(Contract))];
      StakeRun(amount, referral, wallet, fallback, gas, o) ==
        SignAndConfirm(t1, o.isContract.value, ReferralAddress(referral, fallback, o).value, amount.value, gas, o)
  {
    var t1 := [Dispatch(Start(Contract, ETH_TOKEN, amount.value))] + [Dispatch(Signing(Contract))];
    assert t1 == [Dispatch(Start(Contract, ETH_TOKEN, amount.value)), Dispatch(Signing(Contract))];
  }

  /** Once `signing` is dispatched, the run reports success exactly when
      every later call returns: the multisig send for a contract wallet;
      otherwise the fee data, the estimate, its padding, the submission, the
      wait for a transaction object and the `onConfirm` callback when given. */
  lemma SignedOutcome(amount: Option<int>, referral: Option<string>, wallet: Wallet, fallback: string, gas: GasConfig, o: Oracles)
    requires ReachesSigning(amount, referral, wallet, fallback, o)
    ensures var r := StakeRun(amount, referral, wallet, fallback, gas, o);
      if o.isContract.value then r.ok <==> o.multisigSend.Returns?
      else r.ok <==> o.feeData.Returns? && o.estimateGas.Returns? && gas.precision > 0 && o.submit.Returns?
                     && (o.submit.value.TxObject? ==> o.wait.Returns?)
                     && (o.onConfirm.Some? ==> o.onConfirm.value.Returns?)
  {
    ReachedSigning(amount, referral, wallet, fallback, gas, o);
  }

  /** `signing` is dispatched exactly when the mock-limit check, the
      multisig check and the referral resolution all passed, and then it is
      the second step. */
  lemma SigningAfterChecks(amount: Option<int>, referral: Option<string>, wallet: Wallet, fallback: string, gas: GasConfig, o: Oracles)
    ensures var t := StakeRun(amount, referral, wallet, fallback, gas, o).trace;
      && (forall i :: 0 <= i < |t| && t[i] == Dispatch(Signing(Contract)) ==>
            i == 1 && ReachesSigning(amount, referral, wallet, fallback, o))
      && (ReachesSigning(amount, referral, wallet, fallback, o) ==> |t| >= 3 && t[1] == Dispatch(Signing(Contract)))
  {
    var r := StakeRun(amount, referral, wallet, fallback, gas, o);
    if ReachesSigning(amount, referral, wallet, fallback, o) {
      var t1 := [Dispatch(Start(Contract, ETH_TOKEN, amount.value)), Dispatch(Signing(Contract))];
      ReachedSigning(amount, referral, wallet, fallback, gas, o);
      assert r.trace[..|t1|] == t1;
      assert r.trace[0] == t1[0] && r.trace[1] == t1[1];
    } else {
      StoppedBeforeSigning(amount, referral, wallet, fallback, gas, o);
    }
  }

  /** The stake-limit mock ends the run right after `start` with
      `MockLimitReachedError`, and a failed referral with
      `ReferralAddressError`. */
  lemma EarlyFailures(amount: Option<int>, referral: Option<string>, wallet: Wallet, fallback: string, gas: GasConfig, o: Oracles)
    requires MissingInput(amount, wallet).None?
    ensures o.mockLimitReached ==>
              StakeRun(amount, referral, wallet, fallback, gas, o) ==
                Run([Dispatch(Start(Contract, ETH_TOKEN, amount.value)),
                     Dispatch(Error(Raised(StakeUtils.MockLimitReachedError("Stake limit reached"))))], false)
    ensures !o.mockLimitReached && o.isContract.Returns? && ReferralAddress(referral, fallback, o).Failure? ==>
              StakeRun(amount, referral, wallet, fallback, gas, o) ==
                Run([Dispatch(Start(Contract, ETH_TOKEN, amount.value)), Dispatch(Error(Raised(StakeUtils.ReferralAddressError)))], false)
  {
  }

  /** A multisig account: the transaction is sent unchecked with the resolved
      referral and the amount, and `success_multisig` ends the run with
      result true; there is no `block`, no wait and no `onConfirm`. */
  lemma MultisigTrace(amount: Option<int>, referral: Option<string>, wallet: Wallet, fallback: string, gas: GasConfig, o: Oracles)
    requires ReachesSigning(amount, referral, wallet, fallback, o) && o.isContract.value
    requires o.multisigSend.Returns?
    ensures StakeRun(amount, referral, wallet, fallback, gas, o) ==
              Run([Dispatch(Start(Contract, ETH_TOKEN, amount.value)), Dispatch(Signing(Contract)),
                   SendUnchecked(ReferralAddress(referral, fallback, o).value, amount.value),
                   Dispatch(SucceededMultisig)], true)
  {
  }

  /** An ordinary account whose calls all succeed with a transaction object:
      `block` with its hash, the wait, `onConfirm`, then `success`. The
      submitted gas limit is the estimate padded by `applyGasLimitRatio`. */
  lemma OrdinaryAccountTrace(amount: Option<int>, referral: Option<string>, wallet: Wallet, fallback: string, gas: GasConfig, o: Oracles, hash: string)
    requires ReachesSigning(amount, referral, wallet, fallback, o) && !o.isContract.value
    requires o.feeData.Returns? && o.estimateGas.Returns? && gas.precision > 0
    requires o.submit == Returns(TxObject(hash)) && o.wait.Returns? && o.onConfirm == Some(Returns(()))
    ensures StakeRun(amount, referral, wallet, fallback, gas, o) ==
              Run([Dispatch(Start(Contract, ETH_TOKEN, amount.value)), Dispatch(Signing(Contract)),
                   SubmitTx(ReferralAddress(referral, fallback, o).value,
                            Overrides(amount.value, o.feeData.value.maxPriorityFeePerGas, o.feeData.value.maxFeePerGas,
                                      StakeUtils.ApplyGasLimitRatio(o.estimateGas.value, gas.scaledRatio, gas.precision).value)),
                   Dispatch(Block(hash)), Waited, Confirmed, Dispatch(Succeeded)], true)
  {
  }

  /** Every submission goes to the resolved referral with the amount, the
      fetched fee data and the estimate padded by `applyGasLimitRatio`. */
  lemma SubmissionsPadded(amount: Option<int>, referral: Option<string>, wallet: Wallet, fallback: string, gas: GasConfig, o: Oracles)
    ensures var t := StakeRun(amount, referral, wallet, fallback, gas, o).trace;
      forall i :: 0 <= i < |t| && t[i].SubmitTx? ==>
        && ReachesSigning(amount, referral, wallet, fallback, o) && o.isContract == Returns(false)
        && SubmitsPadded(t, i, ReferralAddress(referral, fallback, o).value, amount.value, gas, o)
  {
    var r := StakeRun(amount, referral, wallet, fallback, gas, o);
    if ReachesSigning(amount, referral, wallet, fallback, o) {
      var t1 := [Dispatch(Start(Contract, ETH_TOKEN, amount.value)), Dispatch(Signing(Contract))];
      ReachedSigning(amount, referral, wallet, fallback, gas, o);
      assert r.trace[..|t1|] == t1;
      assert r.trace[0] == t1[0] && r.trace[1] == t1[1];
    } else {
      StoppedBeforeSigning(amount, referral, wallet, fallback, gas, o);
    }
  }

  /** `success_multisig` is reported only for an account the multisig check
      found to be a contract. */
  lemma MultisigSuccessOnlyForContracts(amount: Option<int>, referral: Option<string>, wallet: Wallet, fallback: string, gas: GasConfig, o: Oracles)
    ensures var t := StakeRun(amount, referral, wallet, fallback, gas, o).trace;
      forall i :: 0 <= i < |t| && t[i] == Dispatch(SucceededMultisig) ==> o.isContract == Returns(true)
  {
    var r := StakeRun(amount, referral, wallet, fallback, gas, o);
    if ReachesSigning(amount, referral, wallet, fallback, o) {
      if !o.isContract.value {
        var t1 := [Dispatch(Start(Contract, ETH_TOKEN, amount.value)), Dispatch(Signing(Contract))];
        var referralAddress := ReferralAddress(referral, fallback, o).value;
        ReachedSigning(amount, referral, wallet, fallback, gas, o);
        assert r == SubmitOrdinary(t1, referralAddress, amount.value, gas, o);
        forall i | 0 <= i < |r.trace| ensures r.trace[i] != Dispatch(SucceededMultisig) {
          if i < 2 { assert r.trace[i] == r.trace[..2][i] == t1[i]; }
        }
      }
    } else {
      StoppedBeforeSigning(amount, referral, wallet, fallback, gas, o);
    }
  }

  // ---------------------------------------------------------------------
  // The callback
  // ---------------------------------------------------------------------

  /** The stake callback, step by step: each dispatch and call is appended
      to the trace as it happens, and each throw jumps to the catch-all. */
  method Stake(amount: Option<int>, referral: Option<string>, wallet: Wallet, fallback: string, gas: GasConfig, o: Oracles)
    returns (trace: seq<Step>, ok: bool)
    ensures Run(trace, ok) == StakeRun(amount, referral, wallet, fallback, gas, o)
  {
    var missing := MissingInput(amount, wallet);
    if missing.Some? {
      trace, ok := [Dispatch(Error(InvariantFailed(missing.value)))], false;
      return;
    }
    var value := amount.value;
    trace := [Dispatch(Start(Contract, ETH_TOKEN, value))];

    if o.mockLimitReached {
      trace, ok := trace + [Dispatch(Error(Raised(StakeUtils.MockLimitReachedError("Stake limit reached"))))], false;
      return;
    }

    // Promise.all over the multisig check and the referral resolution
    if o.isContract.Throws? {
      trace, ok := trace + [Dispatch(Error(CallFailed(IsContract)))], false;
      return;
    }
    var isMultisig := o.isContract.value;
    var resolved := ReferralAddress(referral, fallback, o);
    if resolved.Failure? {
      trace, ok := trace + [Dispatch(Error(Raised(resolved.error)))], false;
      return;
    }
    var referralAddress := resolved.value;

    trace := trace + [Dispatch(Signing(Contract))];

    // the signing callback
    var transaction: TxResult;
    if isMultisig {
      trace := trace + [SendUnchecked(referralAddress, value)];
      if o.multisigSend.Throws? {
        trace, ok := trace + [Dispatch(Error(CallFailed(MultisigSend)))], false;
        return;
      }
      transaction := TxHash(o.multisigSend.value);
    } else {
      if o.feeData.Throws? {
        trace, ok := trace + [Dispatch(Error(CallFailed(GetFeeData)))], false;
        return;
      }
      var fees := o.feeData.value;
      if o.estimateGas.Throws? {
        trace, ok := trace + [Dispatch(Error(CallFailed(EstimateGas)))], false;
        return;
      }
      var gasLimit := StakeUtils.ApplyGasLimitRatio(o.estimateGas.value, gas.scaledRatio, gas.precision);
      if gasLimit.None? {
        trace, ok := trace + [Dispatch(Error(CallFailed(GasLimitRatio)))], false;
        return;
      }
      trace := trace + [SubmitTx(referralAddress, Overrides(value, fees.maxPriorityFeePerGas, fees.maxFeePerGas, gasLimit.value))];
      if o.submit.Throws? {
        trace, ok := trace + [Dispatch(Error(CallFailed(Submit)))], false;
        return;
      }
      transaction := o.submit.value;
    }

    if isMultisig {
      trace, ok := trace + [Dispatch(SucceededMultisig)], true;
      return;
    }

    if transaction.TxObject? {
      trace := trace + [Dispatch(Block(transaction.hash))];
      if o.wait.Throws? {
        trace, ok := trace + [Dispatch(Error(CallFailed(Wait)))], false;
        return;
      }
      trace := trace + [Waited];
    }

    if o.onConfirm.Some? {
      if o.onConfirm.value.Throws? {
        trace, ok := trace + [Dispatch(Error(CallFailed(OnConfirm)))], false;
        return;
      }
      trace := trace + [Confirmed];
    }

    trace, ok := trace + [Dispatch(Succeeded)], true;
  }
}
