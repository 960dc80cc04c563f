# transaction-processor, modelled in Dafny

This project models the core of `transaction-processor`, a payments engine.
The engine reads a CSV file of client transactions and applies each one to
that client's account. It then reports every account as
`client,available,held,total,locked`.

Five record kinds are modelled:

- `deposit`: credits `available`.
- `withdrawal`: debits `available`.
- `dispute`: moves the amount of an earlier record from `available` to `held`.
- `resolve`: moves it back.
- `chargeback`: removes it from `held` and locks the account.

The model has three modules:

- `Transactions` (`transactions.dfy`, from `src/transaction/mod.rs`):
  - the record kinds and the keyword mapping `Type::from`;
  - the `Transaction` record and its three dispute flags;
  - `Transaction::from` over the fields of one CSV line, including Rust's
    exact `u16`/`u32` decimal parsing;
  - the stream of records the router receives;
  - `TransactionIterator` as a class with a position in its input.
- `Accounts` (`accounts.dfy`, from `src/account/mod.rs`):
  - `Step`: `AccountAdmin::handle` as a transition function on an account
    and its history. It keeps every error reason and the order of the
    checks: lookup and flag checks come before the lock check.
  - the `Account` class, whose guarded balance methods update fields in
    place;
  - the `AccountAdmin` class, whose `Handle` method is proved to perform
    `Step`.
- `Router` (`router.dfy`, from `drill` in `src/transaction/mod.rs`):
  - the worker loop, which runs until the first terminal `Handle` error;
  - the routing of records to one queue per client, in first-seen order;
  - the awaited report.
  - Every account is owned by exactly one worker, so the concurrent run is
    modelled as one sequential run per client. `OtherClientsDoNotInterfere`
    proves that one client's snapshot does not depend on how other
    clients' records are interleaved with it.

`Wrappers` (`wrappers.dfy`) holds the `Option` type.

Amounts are `real`. Parsing the fourth field as `f64` is a parameter
`parseAmount: string -> Option<real>`. A CSV line arrives already split into
fields: `None` stands for a line the CSV reader yields no record for.

The model follows the code, including these behaviours a reader may not
expect:

- The fourth field must parse as a number for every kind, dispute and
  resolve included, and it then becomes the record's amount. So the line
  `resolve,2,3,` of the sample input in `src/main.rs:22` is rejected: its
  empty fourth field is not a number.
- A record with three fields, or with more than four, has no amount
  whatever its kind. So `deposit,1,1` is accepted and reaches the worker
  without an amount.
- A second resolve fails because `held` is below the amount, not because of
  the flag.
- Resolve and chargeback accept an entry with any flag set, not only a
  disputed one.

## Model

| member | source | states |
|---|---|---|
| Transactions.TypeFrom | src/transaction/mod.rs:34-45 | each of the five lower-case keywords, and only it, maps to its kind; every other string maps to `Unknown` |
| Transactions.Keyword | src/transaction/mod.rs:34-45 | every known kind has a keyword that `TypeFrom` maps back to it |
| Transactions.Transaction.IsEmptyFlags | src/transaction/mod.rs:89-92 | for a record with at most one flag, the flags are empty exactly when no flag is set |
| Transactions.Transaction.MarkDisputed | src/transaction/mod.rs:71-75 | the record is otherwise the same; exactly `disputed` is set and the flags are no longer empty |
| Transactions.Transaction.MarkResolved | src/transaction/mod.rs:77-81 | the record is otherwise the same; exactly `resolved` is set |
| Transactions.Transaction.MarkChargedBack | src/transaction/mod.rs:83-87 | the record is otherwise the same; exactly `charged_back` is set |
| Transactions.NewWithAmount | src/transaction/mod.rs:60-64 | the given kind, client and id, `Some(amount)`, all flags clear |
| Transactions.New | src/transaction/mod.rs:66-69 | the given kind, client and id, no amount, all flags clear |
| Transactions.ParseUnsigned | src/transaction/mod.rs:136-142 | a parsed client or tx id is below the type's bound and comes from a non-empty field |
| Transactions.ParseU16 | src/transaction/mod.rs:136-138 | `parse::<u16>` succeeds exactly when the field is an unsigned decimal below 2^16, and yields that value |
| Transactions.ParseU32 | src/transaction/mod.rs:140-142 | `parse::<u32>` succeeds exactly when the field is an unsigned decimal below 2^32, and yields that value |
| Transactions.ToDecimal | src/transaction/mod.rs:136-142 | the decimal writing of an id is a non-empty digit string |
| Transactions.DigitsValueOfDecimal | src/transaction/mod.rs:136-142 | reading back the decimal writing of `n` gives `n` |
| Transactions.ParseUnsignedRoundTrip | src/transaction/mod.rs:136-142 | every value below the bound, written in decimal, parses back to itself |
| Transactions.ParseU16RoundTrip | src/transaction/mod.rs:136-138 | every client id, written in decimal, parses back to itself |
| Transactions.ParseU32RoundTrip | src/transaction/mod.rs:140-142 | every tx id, written in decimal, parses back to itself |
| Transactions.FromFields | src/transaction/mod.rs:116-161 | a parsed record has a known kind and no flags set |
| Transactions.FromFieldsRejects | src/transaction/mod.rs:116-161 | `InvalidRecord` exactly when there is no record, fewer than three fields, an unknown kind, a bad client or tx id, or a fourth field (of exactly four) that is not a number; an if-and-only-if |
| Transactions.FromFieldsAccepts | src/transaction/mod.rs:126-155 | an accepted record takes its kind, client and id from the first three fields; it has an amount exactly when there are four fields, whatever its kind |
| Transactions.FromFieldsRoundTrip | src/transaction/mod.rs:116-161 | writing a flag-free record out as fields and parsing it gives the record back |
| Transactions.FromFieldsExamples | src/transaction/mod.rs:357-366 | the parser's unit-test cases, plus `deposit,1,1` accepted without an amount |
| Transactions.Accepted | src/transaction/mod.rs:194-202 | the records delivered are the parses of a prefix of the lines, and the line after that prefix is malformed |
| Transactions.MalformedLineEndsStream | src/transaction/mod.rs:217 | nothing after the first malformed line is ever delivered |
| Transactions.IteratorExample | src/transaction/mod.rs:369-385 | the iterator test: three records, then `error,0,0` ends the stream |
| Transactions.TransactionIterator.constructor | src/transaction/mod.rs:185-189 | a new iterator wraps the given lines and amount parser and starts at the first line |
| Transactions.TransactionIterator.Next | src/transaction/mod.rs:194-202 | yields the parse of the next line and advances by one, or yields None at the end |
| Accounts.NewLedger | src/account/mod.rs:96-102 | a fresh account has a well-formed empty history and non-negative balances |
| Accounts.Step | src/account/mod.rs:110-205 | defined for every record on a locked account, and for a deposit or withdrawal on an unlocked one only when it has an amount; the history stays well formed and only grows; the client id never changes; non-negative amounts keep balances non-negative; a lock freezes account and history; a closed queue is terminal; an error changes no balance, and changes the history only for a stored withdrawal; only a successful chargeback locks |
| Accounts.DepositCredits | src/account/mod.rs:116-126 | an unlocked deposit is stored under its id, replacing any entry, and raises `available` and `total` by its amount |
| Accounts.WithdrawalStoredFirst | src/account/mod.rs:127-137 | an unlocked withdrawal is stored even when it fails; it debits exactly when `available` covers it, and otherwise fails with `DepositTooLow` |
| Accounts.DisputeHoldsFunds | src/account/mod.rs:138-157 | disputing a flag-free entry moves its amount from `available` to `held`, keeps `total` and sets only `disputed`; without the funds nothing changes |
| Accounts.ResolveReleasesFunds | src/account/mod.rs:158-177 | resolving an entry with any flag moves its amount back to `available`, keeps `total` and marks it resolved, keeping its kind, client, id and amount; if `held` is short nothing changes |
| Accounts.ChargebackLocks | src/account/mod.rs:178-197 | charging back an entry with any flag removes its amount from `held`, lowers `total` by it, locks the account and marks the entry, keeping its kind, client, id and amount; if `held` is short nothing changes |
| Accounts.LookupFailuresAreNotTerminal | src/account/mod.rs:138-185 | an unknown id, disputing a flagged entry, and resolving or charging back a flag-free entry fail with no change and are not terminal, locked or not |
| Accounts.LockedAccountTerminates | src/account/mod.rs:116-203 | on a locked account, any record that gets past its lookup checks, and a closed queue, give `Handle` with the unchanged account |
| Accounts.ResolveTwiceFailsOnHeld | src/account/mod.rs:351-368 | the resolve test: the first resolve restores `available`; the second fails with `DepositTooLow` and changes nothing |
| Accounts.ChargebackTwiceTerminates | src/account/mod.rs:377-396 | the chargeback test: the first locks the account with zero balances; the second returns `Handle` |
| Accounts.Account.constructor | src/account/mod.rs:28-30 | the fields are the given values |
| Accounts.Account.Unlocked | src/account/mod.rs:32-34 | the fields are the given values, unlocked |
| Accounts.Account.Total | src/account/mod.rs:48-50 | total is `available + held` of the current fields |
| Accounts.Account.AddAvailable | src/account/mod.rs:52-55 | always succeeds and adds exactly `amount` to `available`, nothing else |
| Accounts.Account.SubAvailable | src/account/mod.rs:57-64 | `DepositTooLow` and no change when `available < amount`, otherwise subtracts exactly `amount` |
| Accounts.Account.AddHeld | src/account/mod.rs:66-69 | always succeeds and adds exactly `amount` to `held`, nothing else |
| Accounts.Account.SubHeld | src/account/mod.rs:71-78 | `DepositTooLow` and no change when `held < amount`, otherwise subtracts exactly `amount` |
| Accounts.Account.Clone | src/account/mod.rs:19 | the derived `clone` (used for `Error::Handle` at line 118) copies all four fields, so the copy's total is the account's |
| Accounts.Account.SetLocked | src/account/mod.rs:84-86 | only `locked` changes |
| Accounts.AccountAdmin.constructor | src/account/mod.rs:96-102 | the given client id, zero balances, unlocked, empty history |
| Accounts.AccountAdmin.Id | src/account/mod.rs:104 | the id is the account's client id |
| Accounts.AccountAdmin.Handle | src/account/mod.rs:110-205 | the new account, history and reply are exactly those of `Step`; a locked account needs no amount on the record |
| Router.Run | src/transaction/mod.rs:238-254 | a worker's snapshot keeps its client id, is the account itself once locked, and has non-negative balances when all amounts are non-negative |
| Router.RunWorker | src/transaction/mod.rs:238-254 | the worker loop yields `Run` of the starting account over its queue |
| Router.SpawnWorker | src/transaction/mod.rs:235-254 | a worker spawned for a client yields `Run` from a fresh account |
| Router.DropAfterTerminate | src/transaction/mod.rs:222-230 | records sent after the worker has stopped do not change its snapshot |
| Router.ChargebackIsFinal | src/transaction/mod.rs:238-254 | after a successful chargeback the snapshot is the locked account, whatever follows |
| Router.CashOnlyRun | src/account/mod.rs:116-137 | covered deposits and withdrawals alone change `available` by their net flow and nothing else |
| Router.FirstSeen | src/transaction/mod.rs:218-237 | one worker per client: the spawned clients are distinct and include the client of every record |
| Router.FirstSeenFromInput | src/transaction/mod.rs:218-237 | no worker is spawned for a client without a record |
| Router.FirstSeenPrefix | src/transaction/mod.rs:232-235 | workers spawned earlier keep their place as more records arrive |
| Router.FirstSeenSlot | src/transaction/mod.rs:232-235 | a client first seen at position `k` is spawned right after the clients seen before `k` |
| Router.ForClient | src/transaction/mod.rs:218-230 | a client's queue holds only that client's records |
| Router.ForClientFromInput | src/transaction/mod.rs:218-230 | a client's queue takes records only from the input, and holds every record of that client |
| Router.NotSeenHasNoQueue | src/transaction/mod.rs:220-232 | a client not yet seen has nothing queued |
| Router.ForClientAppend | src/transaction/mod.rs:218-230 | routing the concatenation of two inputs concatenates the queues |
| Router.OtherClientsDoNotInterfere | src/transaction/mod.rs:218-254 | inserting another client's record anywhere leaves a client's snapshot unchanged |
| Router.ClientSnapshot | src/transaction/mod.rs:238-254 | the snapshot of a client's worker carries that client's id |
| Router.Report | src/transaction/mod.rs:268-275 | one snapshot per spawned worker, in first-seen client order |
| Router.Dispatch | src/transaction/mod.rs:218-237 | sending a record to its client's pipe, or creating the pipe and spawning a worker for a new client, keeps every pipe equal to that client's records in input order and the spawned clients in first-seen order |
| Router.AcceptedAdvance | src/transaction/mod.rs:217 | a parsed line extends the records routed so far |
| Router.AcceptedDone | src/transaction/mod.rs:217 | the loop stops with every accepted record routed |
| Router.RouteAll | src/transaction/mod.rs:217-237 | the routing loop routes exactly the accepted records, one pipe per client |
| Router.AwaitWorkers | src/transaction/mod.rs:268-275 | entry `j` of the report is what the `j`-th spawned worker yields on its pipe |
| Router.RoutedReport | src/transaction/mod.rs:258-275 | once the records are routed, the awaited snapshots are the report |
| Router.Drill | src/transaction/mod.rs:206-278 | the snapshots `drill` reports are `Report` of its input |
| Router.ExampleAccepted | src/transaction/mod.rs:194-202 | both lines of a deposit-then-withdrawal input are delivered |
| Router.ExampleRouting | src/transaction/mod.rs:218-237 | a deposit-then-withdrawal input spawns one worker, whose pipe gets both records |
| Router.ExampleRun | src/account/mod.rs:116-137 | that worker ends with 0.5 available, nothing held, unlocked |
| Router.DepositThenWithdraw | src/transaction/mod.rs:206-278 | a deposit of 1.0 then a withdrawal of 0.5 report one account with 0.5 available |

## Left out

- The tokio runtime, the channels and their capacity of 32, the optional
  sleep between records, and the choice of single- or multi-threaded
  runtime are not modelled. Each account is owned by exactly one worker,
  so the model runs the workers one after another. Each worker's queue is
  the sequence of records routed to it. Back-pressure and interleaving are
  not modelled.
- Router.Drill: `drill` spawns a worker when a client is first seen and
  sends records to it while routing continues. The model routes every
  record first and runs each worker when it is awaited. Every worker reads
  only its own queue, so the snapshots are the same.
- `f64` arithmetic is not modelled: amounts are exact `real`s. The same goes
  for the `{:.4}` formatting and `println!` of the report, and for
  `dump_accounts`.
- CSV tokenising (`csv::ReaderBuilder`) and `str::parse::<f64>` are not
  modelled: a line arrives split into fields, and the float parse is the
  parameter `parseAmount`.
- `src/input/mod.rs` is not part of this model: it covers reading the file
  line by line and the header check that panics. `src/main.rs` and the
  benchmark are not part of this model either.
- Accounts.Step: `handle` unwraps the amount of a deposit or withdrawal
  only after the lock check, so only on an unlocked account. The resulting
  panic is not modelled: `Step` and `AccountAdmin.Handle` require an amount
  (`Admissible`) only there. The parser does not guarantee one, since
  `deposit,1,1` is accepted without an amount.
- Router.Run: `Run`, `Report` and `Drill` require an amount on every
  deposit and withdrawal of a queue (`HasAmounts`). This includes records
  the source never unwraps: those reaching a locked account, and those
  dropped after the worker has stopped. So an input such as `deposit,1,1,1.0`,
  `dispute,1,1`, `chargeback,1,1`, `deposit,1,2`, which reports a locked
  account with zero balances, is outside their precondition. The panic of a
  worker, and of `drill` when it awaits that worker, is not modelled.
- `Error::Send` and `Error::Client` of the transaction module are not
  modelled: nothing returns them.
- `FundsExceeded` and `AccountLocked` are declared but never returned. They
  appear in `HandleError` only.
- `mark_disputed`, `mark_resolved` and `mark_charged_back` mutate the stored
  record in place. They are modelled as functions returning the updated
  record, which `Step` writes back into the history map.
- The test-only helper `clear_flags` and the test-only getters are not
  modelled.
- Account getters (`client_id`, `available`, `held`, `is_locked`,
  `AccountAdmin::account`) are plain field reads of the classes.
