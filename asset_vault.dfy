/**
 The bookkeeping of the `asset_vault` program as values: the `Vault` account
 record, what one `add_funds` or `remove_funds` instruction does to it, and what a
 sequence of such instructions does to it.

 An instruction either commits or aborts as a whole. Every step function below
 therefore returns the instruction's result together with the record as it stands
 after the instruction; on any error that is the record as it was before.

 The SPL Token transfer each instruction performs is not modelled; only its outcome
 is, as a `TransferOutcome` parameter.
 */
module AssetVault {
  import opened Checked

  /** A Solana public key: 32 bytes. */
  type Pubkey = k: seq<bv8> | |k| == 32 witness seq(32, _ => 0 as bv8)

  /** The `Vault` account's data. */
  datatype VaultRecord = VaultRecord(admin: Pubkey, name: string, totalBalance: U64)

  /** The program's one declared error. */
  datatype VaultError = InsufficientBalance

  /** An error returned by the token program; its cause is opaque here. */
  datatype TokenError = TokenError(code: nat)

  /** What the token program answered to one transfer. */
  datatype TransferOutcome = TransferOk | TransferFailed(error: TokenError)

  /** Why an instruction did not commit. */
  datatype InstructionError =
    | Custom(vaultError: VaultError)   // returned by `require!`
    | TokenProgram(tokenError: TokenError)   // a failed transfer, propagated by `?`
    | Panic   // `unwrap()` on `None`: the runtime aborts the instruction

  /** The instruction's `Result<()>`. */
  datatype ProgramResult = Ok | Err(error: InstructionError)

  /** An instruction's result and the record it leaves behind. */
  datatype Step = Step(result: ProgramResult, post: VaultRecord)

  /** `initialize_vault`: a fresh record owned by the signing admin. */
  function InitializeVault(admin: Pubkey, vaultName: string): (v: VaultRecord)
    ensures v.admin == admin && v.name == vaultName
    ensures v.totalBalance == 0
  {
    VaultRecord(admin, vaultName, 0)
  }

  /**
   `add_funds`: the transfer into the vault comes first; its error is returned
   unchanged. Only then is the balance credited, and an overflow panics.
   */
  function AddFundsStep(v: VaultRecord, amount: U64, transfer: TransferOutcome): (s: Step)
    ensures s.post.admin == v.admin && s.post.name == v.name
    ensures s.result.Ok? <==> transfer.TransferOk? && v.totalBalance + amount <= U64_MAX
    ensures s.result.Ok? ==> s.post.totalBalance == v.totalBalance + amount
    ensures s.result.Err? ==> s.post == v
    ensures transfer.TransferFailed? ==> s.result == Err(TokenProgram(transfer.error))
    ensures transfer.TransferOk? && v.totalBalance + amount > U64_MAX ==> s.result == Err(Panic)
  {
    match transfer
    case TransferFailed(e) => Step(Err(TokenProgram(e)), v)
    case TransferOk =>
      match CheckedAdd(v.totalBalance, amount)
      case None => Step(Err(Panic), v)
      case Some(balance) => Step(Ok, v.(totalBalance := balance))
  }

  /**
   `remove_funds`: the balance is checked before anything else, so an excessive
   amount is refused whatever the transfer would have done. Then comes the transfer
   out of the vault, then the debit, whose `unwrap()` the check makes unreachable.
   */
  function RemoveFundsStep(v: VaultRecord, amount: U64, transfer: TransferOutcome): (s: Step)
    ensures s.post.admin == v.admin && s.post.name == v.name
    ensures s.result.Ok? <==> amount <= v.totalBalance && transfer.TransferOk?
    ensures s.result.Ok? ==> s.post.totalBalance == v.totalBalance - amount
    ensures s.result.Err? ==> s.post == v
    ensures amount > v.totalBalance ==> s.result == Err(Custom(InsufficientBalance))
    ensures amount <= v.totalBalance && transfer.TransferFailed? ==>
              s.result == Err(TokenProgram(transfer.error))
    ensures s.result != Err(Panic)
  {
    if !(v.totalBalance >= amount) then
      Step(Err(Custom(InsufficientBalance)), v)
    else
      match transfer
      case TransferFailed(e) => Step(Err(TokenProgram(e)), v)
      case TransferOk =>
        match CheckedSub(v.totalBalance, amount)
        case None => Step(Err(Panic), v)
        case Some(balance) => Step(Ok, v.(totalBalance := balance))
  }

  /** A successful deposit followed by a withdrawal of the same amount, whose transfer
      also succeeds, commits both and restores the record exactly. */
  lemma AddThenRemoveRestores(v: VaultRecord, amount: U64)
    requires AddFundsStep(v, amount, TransferOk).result.Ok?
    ensures RemoveFundsStep(AddFundsStep(v, amount, TransferOk).post, amount, TransferOk) == Step(Ok, v)
  {
  }

  /** One instruction against the vault, with the outcome of the transfer it would issue. */
  datatype Call =
    | AddFunds(amount: U64, transfer: TransferOutcome)
    | RemoveFunds(amount: U64, transfer: TransferOutcome)

  /** The instruction handler a call reaches. */
  function Execute(v: VaultRecord, c: Call): Step
  {
    match c
    case AddFunds(amount, transfer) => AddFundsStep(v, amount, transfer)
    case RemoveFunds(amount, transfer) => RemoveFundsStep(v, amount, transfer)
  }

  /** The record after running the calls in order, each against the previous one's record. */
  function Replay(v: VaultRecord, trace: seq<Call>): VaultRecord
    decreases |trace|
  {
    if trace == [] then v else Replay(Execute(v, trace[0]).post, trace[1..])
  }

  /** `sub` is `s` with some of its elements dropped and the rest kept in order. */
  predicate Subsequence(sub: seq<Call>, s: seq<Call>)
    decreases |sub| + |s|
  {
    if sub == [] then true
    else if s == [] then false
    else (sub[0] == s[0] && Subsequence(sub[1..], s[1..])) || Subsequence(sub, s[1..])
  }

  /** The calls of the trace that committed, in order. Each of them had its transfer succeed. */
  function Committed(v: VaultRecord, trace: seq<Call>): (ok: seq<Call>)
    ensures |ok| <= |trace|
    ensures Subsequence(ok, trace)
    ensures forall i :: 0 <= i < |ok| ==> ok[i].transfer.TransferOk?
    decreases |trace|
  {
    if trace == [] then []
    else
      var s := Execute(v, trace[0]);
      var rest := Committed(s.post, trace[1..]);
      if s.result.Ok? then
        assert ([trace[0]] + rest)[1..] == rest;
        [trace[0]] + rest
      else
        rest
  }

  /** What one call moves into the vault's token account (negative when it moves tokens out). */
  function Delta(c: Call): int
  {
    match c
    case AddFunds(amount, _) => amount
    case RemoveFunds(amount, _) => -(amount as int)
  }

  /** The net amount a sequence of calls moves into the vault's token account. */
  function Net(calls: seq<Call>): int
    decreases |calls|
  {
    if calls == [] then 0 else Delta(calls[0]) + Net(calls[1..])
  }

  /**
   The balance keeps step with the token transfers: after any trace it equals the
   starting balance plus the net amount of the committed calls, each of which was a
   successful transfer of exactly that amount.
   */
  lemma {:induction false} ReplayTracksNetTransfers(v: VaultRecord, trace: seq<Call>)
    ensures Replay(v, trace).totalBalance == v.totalBalance + Net(Committed(v, trace))
    decreases |trace|
  {
    if trace != [] {
      var c := trace[0];
      var s := Execute(v, c);
      var rest := Committed(s.post, trace[1..]);
      ReplayTracksNetTransfers(s.post, trace[1..]);
      if s.result.Ok? {
        assert ([c] + rest)[0] == c && ([c] + rest)[1..] == rest;
        assert s.post.totalBalance == v.totalBalance + Delta(c);
      } else {
        assert [] + rest == rest;
      }
    }
  }

  /** From a freshly initialised vault, the balance is exactly the net of the committed calls. */
  lemma BalanceIsNetSinceInitialization(admin: Pubkey, vaultName: string, trace: seq<Call>)
    ensures Replay(InitializeVault(admin, vaultName), trace).totalBalance
            == Net(Committed(InitializeVault(admin, vaultName), trace))
  {
    ReplayTracksNetTransfers(InitializeVault(admin, vaultName), trace);
  }

  /** No sequence of instructions changes the admin or the name. */
  lemma {:induction false} ReplayKeepsAdminAndName(v: VaultRecord, trace: seq<Call>)
    ensures Replay(v, trace).admin == v.admin
    ensures Replay(v, trace).name == v.name
    decreases |trace|
  {
    if trace != [] {
      ReplayKeepsAdminAndName(Execute(v, trace[0]).post, trace[1..]);
    }
  }

  /** The same call, `n` times. */
  function Repeat(c: Call, n: nat): seq<Call>
  {
    if n == 0 then [] else [c] + Repeat(c, n - 1)
  }

  /**
   `n` deposits of `amount` whose transfers succeed all commit and raise the balance
   by `n * amount`, as long as that stays within `u64`.
   */
  lemma {:induction false} RepeatedDeposits(v: VaultRecord, amount: U64, n: nat)
    requires v.totalBalance + n * amount <= U64_MAX
    ensures Replay(v, Repeat(AddFunds(amount, TransferOk), n)).totalBalance
            == v.totalBalance + n * amount
    ensures Committed(v, Repeat(AddFunds(amount, TransferOk), n)) == Repeat(AddFunds(amount, TransferOk), n)
    decreases n
  {
    var c := AddFunds(amount, TransferOk);
    if n > 0 {
      var tail := Repeat(c, n - 1);
      assert Repeat(c, n)[0] == c && Repeat(c, n)[1..] == tail;
      assert n * amount == amount + (n - 1) * amount;
      var s := Execute(v, c);
      assert s.result.Ok? && s.post.totalBalance == v.totalBalance + amount;
      RepeatedDeposits(s.post, amount, n - 1);
    }
  }

  /** Conversely, if `n` deposits of `amount` all commit, their total stayed within `u64`. */
  lemma {:induction false} AllDepositsCommitOnlyIfTheyFit(v: VaultRecord, amount: U64, n: nat)
    requires Committed(v, Repeat(AddFunds(amount, TransferOk), n)) == Repeat(AddFunds(amount, TransferOk), n)
    ensures v.totalBalance + n * amount <= U64_MAX
    decreases n
  {
    var c := AddFunds(amount, TransferOk);
    if n > 0 {
      var tail := Repeat(c, n - 1);
      assert Repeat(c, n)[0] == c && Repeat(c, n)[1..] == tail;
      var s := Execute(v, c);
      var rest := Committed(s.post, tail);
      assert s.result.Ok?;
      assert ([c] + rest)[1..] == rest;
      assert rest == tail;
      AllDepositsCommitOnlyIfTheyFit(s.post, amount, n - 1);
      assert n * amount == amount + (n - 1) * amount;
    }
  }

  /** A deposit that would take the balance past `u64::MAX` panics and leaves the record as it was. */
  lemma OverflowingDepositAborts(v: VaultRecord, amount: U64)
    requires v.totalBalance + amount > U64_MAX
    ensures Replay(v, [AddFunds(amount, TransferOk)]) == v
    ensures Execute(v, AddFunds(amount, TransferOk)).result == Err(Panic)
  {
  }
}
