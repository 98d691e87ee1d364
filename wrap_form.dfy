/** The wrap form component (features/wrap/features/wrap-form/wrap-form.tsx):
    its state, the memoised input amount, `willWrapSteth`, and the
    `approveWrapper` callback that drives the transaction modal. React's
    `useState` setters become methods of a class that update one field each;
    a ghost history records every setter call, in order, so the order of the
    updates can be stated alongside the final state. */
module WrapForm {
  import opened Wrappers

  datatype Token = STETH | ETH

  /** The transaction stages this component sets. */
  datatype TxStage = SIGN | BLOCK | SUCCESS | FAIL | IDLE

  /** The transaction operations: the initial one, and the others the form
      sets, which this model does not distinguish. */
  datatype TxOperation = STAKING | OtherOperation(name: string)

  /** The component's state, field by field. */
  datatype FormState = FormState(
    selectedToken: Token,
    inputValue: string,
    wrappingAmountValue: string,
    txModalOpen: bool,
    txStage: TxStage,
    txOperation: TxOperation,
    txHash: Option<string>,
    txModalFailedText: string)

  /** One call of a state setter made by `approveWrapper`, or the awaited
      `transaction.wait()`. */
  datatype Change =
    | SetStage(stage: TxStage)
    | SetModalOpen(open: bool)
    | SetHash(hash: string)
    | SetFailedText(text: string)
    | Waited

  /** What the approve callback resolved to: a transaction object with its
      hash, or a bare hash string (a multisig wallet's result). */
  datatype TxResult = TxObject(hash: string) | TxString(hash: string)

  /** How the approve callback ended; a throw carries the message
      `getErrorMessage` produces for it. */
  datatype CallbackOutcome = Returned(tx: TxResult) | Threw(message: string)

  /** The state before the first render: stETH selected, stage SUCCESS,
      operation STAKING, modal closed, empty input, no hash. */
  function InitialState(): (s: FormState)
    ensures s.selectedToken == STETH && s.inputValue == "" && s.wrappingAmountValue == ""
    ensures !s.txModalOpen && s.txStage == SUCCESS && s.txOperation == STAKING
    ensures s.txHash.None? && s.txModalFailedText == ""
  {
    FormState(STETH, "", "", false, SUCCESS, STAKING, None, "")
  }

  // ---------------------------------------------------------------------
  // Memoised values
  // ---------------------------------------------------------------------

  /** `inputValueAsBigNumber`: the input parsed as ether; an empty input is
      parsed as "0", and an input `parseEther` rejects falls back to zero.
      `parseEther` must be ethers', which parses "0" to zero. */
  function InputValueAsBigNumber(inputValue: string, parseEther: string -> Option<int>): (r: int)
    requires parseEther("0") == Some(0)
    ensures inputValue == "" ==> r == 0
    ensures parseEther(inputValue).None? ==> r == 0
    ensures inputValue != "" && parseEther(inputValue).Some? ==> r == parseEther(inputValue).value
  {
    var parsed := parseEther(if inputValue != "" then inputValue else "0");
    if parsed.Some? then parsed.value else 0
  }

  /** `willWrapSteth`: nothing is wrapped while stETH still needs approval;
      otherwise the input amount. */
  function WillWrapSteth(selectedToken: Token, needsApprove: bool, amount: int): (r: int)
    ensures selectedToken == STETH && needsApprove ==> r == 0
    ensures !(selectedToken == STETH && needsApprove) ==> r == amount
  {
    if selectedToken == STETH && needsApprove then 0 else amount
  }

  // ---------------------------------------------------------------------
  // approveWrapper, as a specification
  // ---------------------------------------------------------------------

  /** The updates of the `catch` block. */
  function Failed(message: string): seq<Change> {
    [SetFailedText(message), SetStage(FAIL), SetModalOpen(true)]
  }

  /** The setter calls `approveWrapper` makes, in order. */
  function ApproveChanges(isMultisig: bool, callback: CallbackOutcome, wait: Outcome<string>): (r: seq<Change>)
    ensures |r| >= 4 && r[..2] == [SetStage(SIGN), SetModalOpen(true)]
  {
    var signing := [SetStage(SIGN), SetModalOpen(true)];
    match callback
    case Threw(message) => signing + Failed(message)
    case Returned(tx) =>
      if isMultisig then signing + [SetStage(IDLE), SetModalOpen(false)]
      else if tx.TxObject? then
        var blocked := signing + [SetHash(tx.hash), SetStage(BLOCK), SetModalOpen(true)];
        if wait.Fail? then blocked + Failed(wait.error)
        else blocked + [Waited, SetStage(SUCCESS), SetModalOpen(true)]
      else signing + [SetStage(SUCCESS), SetModalOpen(true)]
  }

  /** SIGN is set first and never again, and FAIL is set exactly when the
      callback or the wait threw. */
  lemma ApproveSignsOnceFailsOnThrow(isMultisig: bool, callback: CallbackOutcome, wait: Outcome<string>)
    ensures var r := ApproveChanges(isMultisig, callback, wait);
      && (forall i :: 2 <= i < |r| ==> r[i] != SetStage(SIGN))
      && (SetStage(FAIL) in r <==> callback.Threw? || (!isMultisig && callback.tx.TxObject? && wait.Fail?))
  {
    var r := ApproveChanges(isMultisig, callback, wait);
    match callback
    case Threw(message) =>
      assert r == [SetStage(SIGN), SetModalOpen(true), SetFailedText(message), SetStage(FAIL), SetModalOpen(true)];
    case Returned(tx) =>
      if isMultisig {
        assert r == [SetStage(SIGN), SetModalOpen(true), SetStage(IDLE), SetModalOpen(false)];
      } else if tx.TxObject? && wait.Fail? {
        assert r == [SetStage(SIGN), SetModalOpen(true), SetHash(tx.hash), SetStage(BLOCK), SetModalOpen(true),
                     SetFailedText(wait.error), SetStage(FAIL), SetModalOpen(true)];
      } else if tx.TxObject? {
        assert r == [SetStage(SIGN), SetModalOpen(true), SetHash(tx.hash), SetStage(BLOCK), SetModalOpen(true),
                     Waited, SetStage(SUCCESS), SetModalOpen(true)];
      } else {
        assert r == [SetStage(SIGN), SetModalOpen(true), SetStage(SUCCESS), SetModalOpen(true)];
      }
  }

  /** BLOCK is set exactly for a transaction object from a non-multisig
      wallet; the wait happens exactly when it also succeeds, and it comes
      right after the hash, BLOCK and the opened modal. */
  lemma ApproveBlocksBeforeWait(isMultisig: bool, callback: CallbackOutcome, wait: Outcome<string>)
    ensures var r := ApproveChanges(isMultisig, callback, wait);
      && (SetStage(BLOCK) in r <==> !isMultisig && callback.Returned? && callback.tx.TxObject?)
      && (Waited in r <==> !isMultisig && callback.Returned? && callback.tx.TxObject? && wait.Pass?)
      && (forall i :: 0 <= i < |r| && r[i] == Waited ==>
            i >= 4 && r[i - 3] == SetHash(callback.tx.hash) && r[i - 2] == SetStage(BLOCK) && r[i - 1] == SetModalOpen(true))
  {
    var r := ApproveChanges(isMultisig, callback, wait);
    match callback
    case Threw(message) =>
      assert r == [SetStage(SIGN), SetModalOpen(true), SetFailedText(message), SetStage(FAIL), SetModalOpen(true)];
    case Returned(tx) =>
      if isMultisig {
        assert r == [SetStage(SIGN), SetModalOpen(true), SetStage(IDLE), SetModalOpen(false)];
      } else if tx.TxObject? && wait.Fail? {
        assert r == [SetStage(SIGN), SetModalOpen(true), SetHash(tx.hash), SetStage(BLOCK), SetModalOpen(true),
                     SetFailedText(wait.error), SetStage(FAIL), SetModalOpen(true)];
      } else if tx.TxObject? {
        assert r == [SetStage(SIGN), SetModalOpen(true), SetHash(tx.hash), SetStage(BLOCK), SetModalOpen(true),
                     Waited, SetStage(SUCCESS), SetModalOpen(true)];
      } else {
        assert r == [SetStage(SIGN), SetModalOpen(true), SetStage(SUCCESS), SetModalOpen(true)];
      }
  }

  /** A multisig wallet never reaches SUCCESS: the updates end by going
      idle and closing the modal. */
  lemma ApproveMultisigEndsIdle(callback: CallbackOutcome, wait: Outcome<string>)
    requires callback.Returned?
    ensures var r := ApproveChanges(true, callback, wait);
      SetStage(SUCCESS) !in r && r[|r| - 2..] == [SetStage(IDLE), SetModalOpen(false)]
  {
    var r := ApproveChanges(true, callback, wait);
    assert r == [SetStage(SIGN), SetModalOpen(true), SetStage(IDLE), SetModalOpen(false)];
  }

  /** The state after one update. */
  function Step(s: FormState, c: Change): FormState {
    match c
    case SetStage(stage) => s.(txStage := stage)
    case SetModalOpen(open) => s.(txModalOpen := open)
    case SetHash(hash) => s.(txHash := Some(hash))
    case SetFailedText(text) => s.(txModalFailedText := text)
    case Waited => s
  }

  /** The state after a sequence of updates. */
  function Replay(s: FormState, cs: seq<Change>): FormState
    decreases |cs|
  {
    if cs == [] then s else Replay(Step(s, cs[0]), cs[1..])
  }

  lemma {:induction false} ReplayAppend(s: FormState, a: seq<Change>, b: seq<Change>)
    ensures Replay(s, a + b) == Replay(Replay(s, a), b)
    decreases |a|
  {
    if a == [] {
      assert a + b == b;
    } else {
      assert (a + b)[0] == a[0];
      assert (a + b)[1..] == a[1..] + b;
      ReplayAppend(Step(s, a[0]), a[1..], b);
    }
  }

  lemma ReplayTwo(s: FormState, c1: Change, c2: Change)
    ensures Replay(s, [c1, c2]) == Step(Step(s, c1), c2)
  {
    assert [c1, c2][1..] == [c2];
    assert [c2][1..] == [];
    assert Replay(s, [c1, c2]) == Replay(Step(s, c1), [c2]);
    assert Replay(Step(s, c1), [c2]) == Replay(Step(Step(s, c1), c2), []);
  }

  lemma ReplayThree(s: FormState, c1: Change, c2: Change, c3: Change)
    ensures Replay(s, [c1, c2, c3]) == Step(Step(Step(s, c1), c2), c3)
  {
    assert [c1, c2, c3][1..] == [c2, c3];
    assert Replay(s, [c1, c2, c3]) == Replay(Step(s, c1), [c2, c3]);
    ReplayTwo(Step(s, c1), c2, c3);
  }

  /** What `approveWrapper` promises about the state it leaves: a multisig
      wallet ends at IDLE with the modal closed; a transaction object records
      its hash; a completed approval ends at SUCCESS and a throw at FAIL with
      its message, both with the modal open. Nothing else is touched. */
  function ApproveFinal(s: FormState, isMultisig: bool, callback: CallbackOutcome, wait: Outcome<string>): (f: FormState)
    ensures f.selectedToken == s.selectedToken && f.inputValue == s.inputValue
    ensures f.wrappingAmountValue == s.wrappingAmountValue && f.txOperation == s.txOperation
  {
    match callback
    case Threw(message) => s.(txStage := FAIL, txModalOpen := true, txModalFailedText := message)
    case Returned(tx) =>
      if isMultisig then s.(txStage := IDLE, txModalOpen := false)
      else if tx.TxString? then s.(txStage := SUCCESS, txModalOpen := true)
      else if wait.Fail? then s.(txHash := Some(tx.hash), txStage := FAIL, txModalOpen := true, txModalFailedText := wait.error)
      else s.(txHash := Some(tx.hash), txStage := SUCCESS, txModalOpen := true)
  }

  /** Replaying the setter calls in order yields the promised final state. */
  lemma ApproveReplayed(s: FormState, isMultisig: bool, callback: CallbackOutcome, wait: Outcome<string>)
    ensures Replay(s, ApproveChanges(isMultisig, callback, wait)) == ApproveFinal(s, isMultisig, callback, wait)
  {
    var signing := [SetStage(SIGN), SetModalOpen(true)];
    ReplayTwo(s, SetStage(SIGN), SetModalOpen(true));
    var s1 := Replay(s, signing);
    match callback
    case Threw(message) =>
      ReplayAppend(s, signing, Failed(message));
      ReplayThree(s1, SetFailedText(message), SetStage(FAIL), SetModalOpen(true));
    case Returned(tx) =>
      if isMultisig {
        ReplayAppend(s, signing, [SetStage(IDLE), SetModalOpen(false)]);
        ReplayTwo(s1, SetStage(IDLE), SetModalOpen(false));
      } else if tx.TxString? {
        ReplayAppend(s, signing, [SetStage(SUCCESS), SetModalOpen(true)]);
        ReplayTwo(s1, SetStage(SUCCESS), SetModalOpen(true));
      } else {
        var block := [SetHash(tx.hash), SetStage(BLOCK), SetModalOpen(true)];
        var blocked := signing + block;
        ReplayAppend(s, signing, block);
        ReplayThree(s1, SetHash(tx.hash), SetStage(BLOCK), SetModalOpen(true));
        var s2 := Replay(s, blocked);
        if wait.Fail? {
          ReplayAppend(s, blocked, Failed(wait.error));
          ReplayThree(s2, SetFailedText(wait.error), SetStage(FAIL), SetModalOpen(true));
        } else {
          ReplayAppend(s, blocked, [Waited, SetStage(SUCCESS), SetModalOpen(true)]);
          ReplayThree(s2, Waited, SetStage(SUCCESS), SetModalOpen(true));
        }
      }
  }

  // ---------------------------------------------------------------------
  // The component
  // ---------------------------------------------------------------------

  class WrapFormComponent {
    var selectedToken: Token
    var inputValue: string
    var wrappingAmountValue: string
    var txModalOpen: bool
    var txStage: TxStage
    var txOperation: TxOperation
    var txHash: Option<string>
    var txModalFailedText: string
    /** Every update `approveWrapper` made, oldest first. */
    ghost var history: seq<Change>

    function State(): FormState
      reads this
    {
      FormState(selectedToken, inputValue, wrappingAmountValue, txModalOpen, txStage, txOperation, txHash, txModalFailedText)
    }

    constructor ()
      ensures State() == InitialState() && history == []
    {
      selectedToken := STETH;
      inputValue := "";
      wrappingAmountValue := "";
      txModalOpen := false;
      txStage := SUCCESS;
      txOperation := STAKING;
      txHash := None;
      txModalFailedText := "";
      history := [];
    }

    /** `setTxStage`. */
    method SetTxStage(stage: TxStage)
      modifies this
      ensures State() == Step(old(State()), SetStage(stage)) && history == old(history) + [SetStage(stage)]
    {
      txStage := stage;
      history := history + [SetStage(stage)];
    }

    /** `openTxModal`. */
    method OpenTxModal()
      modifies this
      ensures State() == Step(old(State()), SetModalOpen(true)) && history == old(history) + [SetModalOpen(true)]
    {
      txModalOpen := true;
      history := history + [SetModalOpen(true)];
    }

    /** `closeTxModal`. */
    method CloseTxModal()
      modifies this
      ensures State() == Step(old(State()), SetModalOpen(false)) && history == old(history) + [SetModalOpen(false)]
    {
      txModalOpen := false;
      history := history + [SetModalOpen(false)];
    }

    /** `setTxHash`. */
    method SetTxHash(hash: string)
      modifies this
      ensures State() == Step(old(State()), SetHash(hash)) && history == old(history) + [SetHash(hash)]
    {
      txHash := Some(hash);
      history := history + [SetHash(hash)];
    }

    /** `setTxModalFailedText`. */
    method SetTxModalFailedText(text: string)
      modifies this
      ensures State() == Step(old(State()), SetFailedText(text)) && history == old(history) + [SetFailedText(text)]
    {
      txModalFailedText := text;
      history := history + [SetFailedText(text)];
    }

    /** The `catch` block. */
    method Fail(message: string)
      modifies this
      ensures State() == old(State()).(txModalFailedText := message, txStage := FAIL, txModalOpen := true)
      ensures history == old(history) + Failed(message)
    {
      SetTxModalFailedText(message);
      SetTxStage(FAIL);
      OpenTxModal();
    }

    /** `approveWrapper(callback)`: the outcome of the callback and of the
        wait are inputs. The updates it makes are `ApproveChanges`, and the
        state it leaves is `ApproveFinal`. */
    method ApproveWrapper(isMultisig: bool, callback: CallbackOutcome, wait: Outcome<string>)
      modifies this
      ensures history == old(history) + ApproveChanges(isMultisig, callback, wait)
      ensures State() == ApproveFinal(old(State()), isMultisig, callback, wait)
    {
      ghost var h0 := history;
      SetTxStage(SIGN);
      OpenTxModal();
      ghost var signing := [SetStage(SIGN), SetModalOpen(true)];
      assert history == h0 + signing;

      if callback.Threw? {
        Fail(callback.message);
        assert history == h0 + (signing + Failed(callback.message));
        return;
      }
      var transaction := callback.tx;

      if isMultisig {
        SetTxStage(IDLE);
        CloseTxModal();
        assert history == h0 + (signing + [SetStage(IDLE), SetModalOpen(false)]);
        return;
      }

      if transaction.TxObject? {
        SetTxHash(transaction.hash);
        SetTxStage(BLOCK);
        OpenTxModal();
        ghost var blocked := signing + [SetHash(transaction.hash), SetStage(BLOCK), SetModalOpen(true)];
        assert history == h0 + blocked;
        if wait.Fail? {
          Fail(wait.error);
          assert history == h0 + (blocked + Failed(wait.error));
          return;
        }
        history := history + [Waited];
        SetTxStage(SUCCESS);
        OpenTxModal();
        assert history == h0 + (blocked + [Waited, SetStage(SUCCESS), SetModalOpen(true)]);
      } else {
        SetTxStage(SUCCESS);
        OpenTxModal();
        assert history == h0 + (signing + [SetStage(SUCCESS), SetModalOpen(true)]);
      }
    }
  }
}
