# asset_vault bookkeeping, in Dafny

A model of the `asset_vault` Anchor program for Solana. The program keeps one
`Vault` account with an `admin` key, a `name` and a `u64` `total_balance`, and
offers three instructions:

- `initialize_vault` fills a freshly created account with the signer as admin,
  the given name and a zero balance;
- `add_funds` transfers SPL tokens from the user into the vault's token account
  and then credits the balance with `checked_add(..).unwrap()`;
- `remove_funds` refuses with `InsufficientBalance` when the amount exceeds the
  balance, otherwise transfers tokens out of the vault's token account and debits
  the balance with `checked_sub(..).unwrap()`.

A Solana instruction is atomic: an error returned with `?` or `require!`, and a
panic from `unwrap()`, both roll back everything the instruction did, the token
transfer included. The model therefore gives each instruction a result
(`Ok`, `Err(Custom(InsufficientBalance))`, `Err(TokenProgram(e))` or `Err(Panic)`)
and leaves the record unchanged on every error.

Files:

- `checked.dfy` (module `Checked`): `u64`, and `checked_add` / `checked_sub`
  built on wrapping arithmetic with their carry and borrow, proved to return
  `Some` exactly when the true result fits in 64 bits.
- `asset_vault.dfy` (module `AssetVault`): the record as a value, one step
  function per instruction, traces of instructions, and the lemmas about them.
- `vault_account.dfy` (module `VaultAccount`): the account as a class whose
  instruction handlers assign `total_balance` in place, mirroring the Rust
  statement by statement, each specified by the matching step function; and a
  client method that walks a "treasury" vault through deposits, withdrawals, a
  refused withdrawal and an overflowing deposit.

The token program is a parameter: a total function from the transfer request a
handler issues to its outcome. Each handler returns the request it issued, so the
contract shows that `add_funds` always transfers (user as authority) and that
`remove_funds` transfers (vault account as authority) only after its balance
check has passed.

Three facts about the code that the model keeps as they are:

- The program declares one error, `InsufficientBalance`. There is no overflow or
  underflow error: an overflowing credit is a panic of `unwrap()`, modelled as
  `Panic`, and the debit can never fail (`RemoveFundsStep` proves `Panic`
  unreachable).
- `add_funds` transfers before it credits, and panics on overflow only after the
  transfer; the runtime's rollback of the whole instruction covers the transfer.
- `remove_funds` never compares the signing `user` with `admin`, so any signer
  reaches the transfer once the balance check passes.

## Model

| member | source | states |
|---|---|---|
| `Checked.CheckedAdd` | programs/lib.rs:38 | `checked_add` on `u64`: `Some` exactly when the sum is at most `u64::MAX`, and then the exact sum |
| `Checked.CheckedSub` | programs/lib.rs:61 | `checked_sub` on `u64`: `Some` exactly when the subtrahend is at most the minuend, and then the exact difference |
| `Checked.CheckedSubUndoesCheckedAdd` | programs/lib.rs:61 | a checked subtraction of what a successful checked addition added returns the original value |
| `AssetVault.InitializeVault` | programs/lib.rs:13-19 | the new record has the signer as admin, the given name and balance 0 |
| `AssetVault.AddFundsStep` | programs/lib.rs:21-40 | commits iff the transfer succeeds and old balance + amount fits in `u64`, then balance is old + amount; a failed transfer returns its error unchanged; a successful transfer with overflow panics; every error leaves the record unchanged; admin and name never change; never `InsufficientBalance` |
| `AssetVault.RemoveFundsStep` | programs/lib.rs:42-63 | commits iff amount <= balance and the transfer succeeds, then balance is old - amount; amount > balance gives `InsufficientBalance` whatever the transfer outcome; a failed transfer's error is returned; never panics; errors leave the record unchanged; admin and name never change |
| `AssetVault.AddThenRemoveRestores` | programs/lib.rs:21-63 | after a committed `add_funds(a)`, a `remove_funds(a)` whose transfer succeeds commits and restores the record exactly |
| `AssetVault.Committed` | programs/lib.rs:21-63 | the committed calls of a trace form a subsequence of it (same order, nothing added) and each one had a successful transfer |
| `AssetVault.ReplayTracksNetTransfers` | programs/lib.rs:21-63 | after any sequence of instructions the balance equals the starting balance plus the net amount of the committed transfers |
| `AssetVault.BalanceIsNetSinceInitialization` | programs/lib.rs:13-63 | from a freshly initialised vault the balance is exactly the net of all committed transfers |
| `AssetVault.ReplayKeepsAdminAndName` | programs/lib.rs:21-63 | no sequence of instructions changes admin or name |
| `AssetVault.RepeatedDeposits` | programs/lib.rs:38 | `n` deposits of `a` with successful transfers all commit and add `n * a`, provided the result fits in `u64` |
| `AssetVault.AllDepositsCommitOnlyIfTheyFit` | programs/lib.rs:38 | conversely, if `n` deposits of `a` all commit, the starting balance plus `n * a` is at most `u64::MAX` |
| `AssetVault.OverflowingDepositAborts` | programs/lib.rs:38 | a deposit that would pass `u64::MAX` panics and leaves the record unchanged |
| `VaultAccount.Vault.InitializeVault` | programs/lib.rs:13-19 | the account's fields become the record of `AssetVault.InitializeVault`: signer as admin, given name, balance 0 |
| `VaultAccount.Vault.AddFunds` | programs/lib.rs:21-40 | always issues the user-signed transfer of `amount` from the user's token account to the vault's; result and new record are those of `AddFundsStep` for that transfer's outcome; only `total_balance` may be written |
| `VaultAccount.Vault.RemoveFunds` | programs/lib.rs:42-63 | issues the vault-signed transfer of `amount` to the user's token account only when amount <= balance, and nothing otherwise; result and new record are those of `RemoveFundsStep`; only `total_balance` may be written |

## Left out

- The SPL Token transfer itself (`token::transfer`, `CpiContext`): a foreign
  cross-program call; only the request and its success or failure are modelled.
- Whether the vault account can actually sign the outbound transfer in
  `remove_funds` (it is passed as authority without signer seeds); the model
  takes the token program's answer as given.
- The `#[derive(Accounts)]` constraint structs (`init`, `init_if_needed`,
  associated-token derivation, rent payer, signer and `mut` checks): the Anchor
  runtime enforces them before the handlers run.
- The account size `8 + 32 + 32 + 8` and the Borsh encoding of `name`: storage
  layout, so no bound on the name's length is modelled.
- `declare_id!`, the program id and the system program.
- Concurrency between transactions: the Solana runtime serialises access to an
  account.
- Rollback of the token transfer on an error after it was issued: the token
  accounts are not modelled, so the model states only that the vault record is
  left unchanged.
