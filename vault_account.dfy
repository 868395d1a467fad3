/**
 The `Vault` account as the program sees it inside one instruction: an object
 whose fields the instruction handlers assign in place.

 Each handler takes the token program as a total function from the transfer
 request it issues to the outcome (the state of the token accounts is not
 modelled), and returns the request it actually issued, if any, beside its result.
 What each handler does to the record is stated by the step functions of
 `AssetVault`, whose properties are proved there.
 */
module VaultAccount {
  import opened Checked
  import opened AssetVault

  /** A `token::Transfer` cross-program invocation: move `amount` tokens from one
      token account to another on the signature of `authority`. */
  datatype TokenTransfer = TokenTransfer(from: Pubkey, to: Pubkey, authority: Pubkey, amount: U64)

  class Vault {
    /** The account's own address, assigned when the runtime creates it. */
    const address: Pubkey

    var admin: Pubkey
    var name: string
    var totalBalance: nat

    /** `total_balance` is a `u64`. */
    ghost predicate Valid()
      reads this
    {
      totalBalance <= U64_MAX
    }

    /** The account data as a value. */
    function Record(): (v: VaultRecord)
      reads this
      requires Valid()
    {
      VaultRecord(admin, name, totalBalance)
    }

    /** `initialize_vault`, on the account the runtime has just created at `address`. */
    constructor InitializeVault(address: Pubkey, admin: Pubkey, vaultName: string)
      ensures Valid()
      ensures this.address == address
      ensures Record() == AssetVault.InitializeVault(admin, vaultName)
    {
      this.address := address;
      this.admin := admin;
      this.name := vaultName;
      this.totalBalance := 0;
    }

    /**
     `add_funds`: transfer `amount` from the user's token account to the vault's,
     signed by the user, and credit the balance. The transfer is always issued.
     */
    method AddFunds(user: Pubkey, userTokenAccount: Pubkey, vaultTokenAccount: Pubkey, amount: U64,
                    tokenProgram: TokenTransfer -> TransferOutcome)
      returns (result: ProgramResult, issued: Option<TokenTransfer>)
      requires Valid()
      modifies this`totalBalance
      ensures Valid()
      ensures issued == Some(TokenTransfer(userTokenAccount, vaultTokenAccount, user, amount))
      ensures var s := AddFundsStep(old(Record()), amount, tokenProgram(issued.value));
              result == s.result && Record() == s.post
      ensures result.Ok? ==> totalBalance == old(totalBalance) + amount
      ensures result.Err? ==> totalBalance == old(totalBalance)
    {
      var request := TokenTransfer(userTokenAccount, vaultTokenAccount, user, amount);
      issued := Some(request);
      var outcome := tokenProgram(request);
      if outcome.TransferFailed? {
        return Err(TokenProgram(outcome.error)), issued;
      }
      var credited := CheckedAdd(totalBalance, amount);
      if credited.None? {
        // `unwrap()` panics: the instruction, transfer included, is rolled back.
        return Err(Panic), issued;
      }
      totalBalance := credited.value;
      result := Ok;
    }

    /**
     `remove_funds`: refuse an amount above the balance before issuing anything;
     otherwise transfer `amount` from the vault's token account to the user's, with
     the vault account as authority, and debit the balance. Nothing compares `user`
     with `admin`. When nothing is issued the step function's transfer outcome is
     irrelevant: `RemoveFundsStep` refuses before looking at it.
     */
    method RemoveFunds(user: Pubkey, vaultTokenAccount: Pubkey, userTokenAccount: Pubkey, amount: U64,
                       tokenProgram: TokenTransfer -> TransferOutcome)
      returns (result: ProgramResult, issued: Option<TokenTransfer>)
      requires Valid()
      modifies this`totalBalance
      ensures Valid()
      ensures issued == if amount <= old(totalBalance)
                        then Some(TokenTransfer(vaultTokenAccount, userTokenAccount, address, amount))
                        else None
      ensures var s := RemoveFundsStep(old(Record()), amount,
                                       if issued.Some? then tokenProgram(issued.value) else TransferOk);
              result == s.result && Record() == s.post
      ensures result.Ok? ==> totalBalance == old(totalBalance) - amount
      ensures result.Err? ==> totalBalance == old(totalBalance)
    {
      if !(totalBalance >= amount) {
        return Err(Custom(InsufficientBalance)), None;
      }
      var request := TokenTransfer(vaultTokenAccount, userTokenAccount, address, amount);
      issued := Some(request);
      var outcome := tokenProgram(request);
      if outcome.TransferFailed? {
        return Err(TokenProgram(outcome.error)), issued;
      }
      var debited := CheckedSub(totalBalance, amount);
      if debited.None? {
        return Err(Panic), issued;
      }
      totalBalance := debited.value;
      result := Ok;
    }
  }

  /** A token program that accepts every transfer. */
  function AcceptAll(t: TokenTransfer): TransferOutcome
  {
    TransferOk
  }

  /**
   A client: a vault named "treasury" takes 1000, gives back 400, refuses 700, is
   filled to `u64::MAX`, and then panics on one more token. Every step follows from
   the handlers' contracts alone.
   */
  method TreasuryScenario(address: Pubkey, admin: Pubkey, vaultToken: Pubkey, userToken: Pubkey)
  {
    var vault := new Vault.InitializeVault(address, admin, "treasury");
    assert vault.totalBalance == 0;
    var r, t := vault.AddFunds(admin, userToken, vaultToken, 1000, AcceptAll);
    assert r == Ok && vault.totalBalance == 1000;
    r, t := vault.RemoveFunds(admin, vaultToken, userToken, 400, AcceptAll);
    assert r == Ok && vault.totalBalance == 600;
    r, t := vault.RemoveFunds(admin, vaultToken, userToken, 700, AcceptAll);
    assert r == Err(Custom(InsufficientBalance)) && t == None && vault.totalBalance == 600;
    r, t := vault.AddFunds(admin, userToken, vaultToken, U64_MAX - 600, AcceptAll);
    assert r == Ok && vault.totalBalance == U64_MAX;
    r, t := vault.AddFunds(admin, userToken, vaultToken, 1, AcceptAll);
    assert r == Err(Panic) && vault.totalBalance == U64_MAX;
    assert vault.admin == admin && vault.name == "treasury";
  }
}
