# Splitwise: the update state machine and its store, in Dafny

Splitwise is a small desktop application that records what a user's friends owe them.

- The user types a friend's name, an amount and a description, and presses Split. Half of the amount is recorded against the friend.
- The user can open a settle-up view for a friend and confirm a repayment. The negated amount is recorded against that friend.
- Two lists are shown: every payment, and each friend's balance.

This project models the core of the application:

- **The store** (`src/db.rs`): a `users` table and a `payments` table.
  - Three writers: `add_user`, `add_payment` and `settle_payment`.
  - Three queries: `get_user_by_name`, `get_all_payments` and `get_balances_with_users`.
- **The application record** (`src/app.rs`): `Tab`, `App`, `App::new` and the two `Sandbox` entry points.
- **The dispatcher** (`src/update.rs`): `update`, which handles each of the nine messages.

Modules:

- `Options`: the `Option` type.
- `Amount`: reading an amount typed into a text box.
- `Messages`: the nine messages.
- `Store`: the tables as values, the queries as functions, each write as a function from tables to tables, and the class `Database`, which performs the writes in place.
- `Application`: `Tab`, the state value `AppState`, its invariant, and the class `App`.
- `Update`:
  - `Step`, the update as a function of the state and the message;
  - the method `Update`, which performs it in place on an `App` and is proved to agree with `Step`;
  - the lemmas about each message.
- `Sandbox`: the framework entry points.

Modelling choices:

- Amounts are `real`, so halving and summing are exact.
- An amount that does not parse counts as `0.0`. This substitution is written at the two places that read an amount: a split and a confirmed settle-up.
- Users are held in insertion order, as a sequence. A lookup by name is a real search, and the join is a real join.
  - Well-formedness states that ids increase from 1 below a counter and that no user repeats an earlier user's name.
  - Together these give unique names and unique ids (`UsersDistinct`).
- Balances are a map from name to total. The grouping query fixes no row order.
- The application's invariant has three parts:
  - the store is well formed;
  - a settle-up tab always names the user being settled with;
  - both cached lists equal what the store's queries return now.

  `Update.ReachableStatesAreValid` proves it holds in every state reachable from the initial state.

## Model

| member | source | states |
|---|---|---|
| Amount.ParseAmount | src/update.rs:20 | Parsing an amount fails on empty text and on a lone sign. Both call sites rule out empty text first (src/update.rs:15, src/update.rs:46), so of these only a lone sign reaches the fallback to zero. |
| Amount.ParseWholeNumeral | src/update.rs:20 | Typing a whole number in decimal parses to exactly that number. |
| Amount.ParseSigned | src/update.rs:47 | A leading `-` negates the parsed amount; a leading `+` leaves it unchanged. |
| Store.FindByName | src/db.rs:58-69 | The user-by-name query returns a user of the table with that name, and returns nothing exactly when no user has that name. |
| Store.FindById | src/db.rs:102-104 | The join side `payee_id = users.id` finds a user with that id, and finds none exactly when no user has it. |
| Store.FindByNameAppend | src/db.rs:58-69 | Inserting a user changes the name lookup only for a name that previously found no one. |
| Store.FindByIdAppend | src/db.rs:102-104 | Inserting a user changes the id lookup only for an id that previously found no one. |
| Store.UserIdsBelow | src/db.rs:30 | AUTOINCREMENT ids are positive and below the counter. |
| Store.UserLookups | src/db.rs:29-32 | In well-formed tables, looking up any user by name or by id returns that same user. |
| Store.UsersDistinct | src/db.rs:29-32 | No two users share a name (UNIQUE) or an id (PRIMARY KEY). |
| Store.Tables.AddUser | src/db.rs:49-55 | After `add_user`, the name resolves to the returned id. The payments are unchanged. The users table only grows, by at most one user. |
| Store.AddUserExisting | src/db.rs:49-52 | `add_user` of a name already present returns that user's id and writes nothing. |
| Store.AddUserNew | src/db.rs:53-54 | `add_user` of a new name appends exactly one user, whose id is positive and differs from every existing id. |
| Store.AddUserIdempotent | src/db.rs:49-55 | A second `add_user` with the same name returns the same id and writes nothing. |
| Store.AddUserWellFormed | src/db.rs:49-55 | `add_user` keeps the tables well formed. |
| Store.AppendRowWellFormed | src/db.rs:35-44 | Inserting a row with the next id and an existing payee keeps the tables well formed. |
| Store.AddPaymentWellFormed | src/db.rs:71-78 | `add_payment` keeps the tables well formed. |
| Store.SettlePaymentWellFormed | src/db.rs:81-95 | `settle_payment` keeps the tables well formed, whether or not the user exists. |
| Store.JoinNames | src/db.rs:100-120 | Every payment returned carries the name of the user whose id is its payee id. |
| Store.JoinComplete | src/db.rs:100-120 | When every payee exists, `get_all_payments` returns one entry per row, in row order, each with its payee's name. |
| Store.JoinAddUser | src/db.rs:100-120 | A new user whom no row names does not change `get_all_payments`. |
| Store.JoinAddRow | src/db.rs:100-120 | A new row whose payee exists appends its joined payment to `get_all_payments`. |
| Store.AddUserKeepsViews | src/db.rs:49-55 | Creating a user changes neither query result. |
| Store.AddPaymentJoin | src/db.rs:71-78 | `add_payment` appends one unsettled payment to `get_all_payments`. It has the given description, amount and payee, and carries the payee's name. |
| Store.GroupByNameSums | src/db.rs:123-138 | The grouping has an entry for exactly the names that have a payment, and each entry is the total of that name's amounts. |
| Store.GroupByNameAppend | src/db.rs:123-138 | One more payment adds its amount to its payee's entry, creating the entry if missing, and leaves the other entries alone. |
| Store.BalanceIsSum | src/db.rs:123-138 | A name's balance is the sum of the amounts of its payments, as in the independent definition `SumFor`. |
| Store.AddPaymentBalances | src/db.rs:71-78 | `add_payment` raises its payee's balance by the amount and leaves every other balance unchanged. |
| Store.SettleUnknownUser | src/db.rs:82-94 | `settle_payment` with a name no user has writes nothing. |
| Store.LookupsFindUser | src/db.rs:82-86 | In a well-formed store, both lookups of a stored user return that user. |
| Store.SettleKnownUser | src/db.rs:88-92 | `settle_payment` with a user's name appends one row. The row has the amount negated, the description "Settlement with " + name, and that user as payee. The user's balance drops by the amount; the other balances are unchanged. |
| Store.BalanceEntryHasPayment | src/db.rs:125-128 | A balance entry exists only for a name that some user has and that user has a payment row. |
| Store.PaymentGivesBalanceEntry | src/db.rs:125-128 | A user with a payment row has a balance entry. |
| Store.BalancePresence | src/db.rs:123-138 | A name is listed in the balances if and only if a user of that name is the payee of some row. |
| Store.NoPaymentsZeroBalance | src/db.rs:125-128 | A user with no payments is absent from the balances and has balance zero. |
| Store.SettleCancelsPayment | src/db.rs:225-240 | A payment to a user followed by a settlement of the same amount leaves that user's balance as it was. |
| Store.PaymentThenSettlement | src/db.rs:225-240 | The step behind `SettleCancelsPayment`: the same fact, with the precondition narrowed to a user found by both lookups. |
| Store.PayThenSettleIsZero | src/db.rs:225-240 | Paying a user with no payments and then settling the same amount lists them with a balance of exactly zero. |
| Store.SplitWrites | src/update.rs:16-26 | The two writes of a split create the friend only if the name is new, and append one unsettled payment of the amount against the friend. The tables stay well formed. |
| Store.SplitViews | src/update.rs:16-29 | After the two writes of a split, `get_all_payments` gains the new payment, named after the friend. The friend's balance rises by the amount. |
| Store.Database.Open | src/db.rs:26-47 | Opening the database gives tables equal to what the file holds. |
| Store.Database.AddUser | src/db.rs:49-55 | Performs `Tables.AddUser` in place and returns its id. It keeps well-formedness. |
| Store.Database.AddPayment | src/db.rs:71-78 | Appends the unsettled row with the next id and leaves the users unchanged. It keeps well-formedness. |
| Store.Database.SettlePayment | src/db.rs:81-95 | For an unknown name, writes nothing. For a known name, appends the negated settlement row for that user. It keeps well-formedness. |
| Application.InitInvariant | src/app.rs:24-40 | The initial state over a well-formed store satisfies the invariant: the tab is linked and the caches are coherent. |
| Application.InitOnEmptyStore | src/app.rs:26-27 | On a store without payments, both initial lists are empty. |
| Application.App.constructor | src/app.rs:24-40 | `App::new`: all four buffers are empty, nobody is being settled with, the Payments tab is shown, and both lists are read from the store. |
| Update.Update | src/update.rs:3-61 | `update` changes the application and its store exactly as `Step` says, and keeps the invariant. |
| Update.HandleSplit | src/update.rs:14-35 | The SplitPayment arm performs `Split` in place. |
| Update.WriteSplit | src/update.rs:16-26 | `add_user` followed by `add_payment` of the share leaves the tables `SplitWith` describes. |
| Update.HandleConfirm | src/update.rs:44-57 | The ConfirmSettleUp arm performs `Confirm` in place. |
| Update.EditsOverwriteOneBuffer | src/update.rs:5-13 | Each of the four edit messages overwrites its own buffer and nothing else, the store included. |
| Update.SplitIgnoredWhenIncomplete | src/update.rs:15 | A split with an empty name box or an empty amount box changes nothing at all. |
| Update.SplitRecordsHalf | src/update.rs:16-26 | A split creates the friend if needed and appends one unsettled payment. The payment is half the parsed amount (zero if unparsable) and carries the typed description. The store stays well formed. |
| Update.SplitUpdatesViews | src/update.rs:28-29 | After a split, both lists equal the store's queries. The payment list gains the new payment, and the friend's balance rises by half the amount. |
| Update.SplitReloads | src/update.rs:16-33 | A complete split stores the result of its two writes, reloads both lists from it, and clears the split boxes. |
| Update.SplitClearsItsBuffers | src/update.rs:31-33 | A split clears the three split boxes and leaves the settle-up state and the tab unchanged. |
| Update.SettleUpEntersView | src/update.rs:36-40 | SettleUp(u) sets the user being settled with, empties the settle box and shows their tab. Nothing else changes, the store included. |
| Update.ConfirmWithoutTargetIsNoOp | src/update.rs:45 | Confirm with nobody being settled with changes nothing, the tab included. |
| Update.ConfirmEndsSettleUp | src/update.rs:46-55 | Confirm writes to the store only when an amount was typed, and then reloads both lists. It always clears the target and the box and shows Payments. |
| Update.ConfirmLowersBalance | src/update.rs:46-51 | Confirm for an existing user appends the negated parsed amount against them and lowers their balance by it. |
| Update.ConfirmUnknownUserWritesNothing | src/update.rs:45-48 | Confirm for a name no user has leaves the store unchanged. |
| Update.SwitchesChangeOnlyTab | src/update.rs:58-59 | The two tab buttons change only the tab, so cancelling a settle-up leaves its target in place. |
| Update.SettleUpViewExitsToPayments | src/update.rs:53-58 | From a settle-up view, both Confirm and Cancel lead to the Payments tab. |
| Update.StepPreservesInvariant | src/update.rs:3-61 | Every message keeps the store well formed, the tab linked, and the caches equal to the store's query results. |
| Update.RunPreservesInvariant | src/update.rs:3-61 | Any sequence of messages keeps the invariant. |
| Update.ReachableStatesAreValid | src/app.rs:24-40 | Every state reached from `App::new` over a well-formed store satisfies the invariant. |
| Sandbox.NewApp | src/app.rs:46-48 | The framework constructor opens the store and builds the initial state, which satisfies the invariant when the store is well formed. |
| Sandbox.HandleMessage | src/app.rs:54-56 | The framework update does exactly what `update` does and nothing more. |

## Left out

- The user interface (`src/view.rs`) and process start-up (`src/main.rs`): widgets, layout and number formatting only.
- SQLite mechanics: the connection, the file name and `CREATE TABLE`. `Database.Open` takes the tables the file already holds as a parameter.
- Store.Database.Open: when the file is new, both tables start empty with both counters at 1. The model receives this as `existing` rather than creating it.
- Row order of the two queries: neither orders its rows. Payments are returned in insertion order, and balances are compared as a map.
- Floating point: `f64` rounding in halving and in `SUM` is not modelled, because amounts are exact `real`s.
- Amount.ParseAmount: accepts only the decimal part of Rust's float grammar (a sign, digits, at most one point). Exponents, `inf` and `NaN` are treated as unparsable and so count as zero, where Rust would accept them.
- The amount of a settlement is stored by SQLite from its text form. It is modelled as the real number itself.
- Error paths: `Result` failures, `.expect` panics and `unwrap_or_default` on reads. Store operations are modelled as total. Database failures reach these paths, and so do the non-finite amounts in the next line.
- Non-finite amounts: Rust's `parse::<f64>()` accepts `NaN`, `inf` and `infinity`, and the model reads all three as zero.
  - Splitting with `NaN` first inserts the friend (src/db.rs:53). `add_payment` then binds NaN as NULL, which breaks `amount REAL NOT NULL` (src/db.rs:39), so the `.expect` at src/update.rs:26 panics and the program crashes.
  - Settling `NaN` or `inf` stores the text of `(-amount).to_string()` (src/db.rs:91). Every later `get_all_payments` then fails to read that row as `f64` (src/db.rs:111), and `unwrap_or_default` (src/update.rs:28, src/update.rs:50) empties the payment list on every reload.
  - In all of these cases the model records a payment or settlement of zero instead.
- Store.Tables.AddPayment: requires that the payee exists. The declared foreign key is not enforced by SQLite by default, but every caller passes an id just returned by `add_user`.
- Store.Tables.AddUser: its own contract is weaker than the source. It does not state that the id is fresh and positive, because `AddUserNew` states that for well-formed tables.
- Store.Join: its own contract states only a bound on the length. What the join returns is stated by `JoinNames`, `JoinComplete`, `JoinAddUser` and `JoinAddRow`.
- `User` and `Payment` as serialisable records: serde derivation is not modelled.
- The unit tests' scaffolding in `src/db.rs` (`TestDb` and its cleanup transaction) is not application behaviour. The three tests' scenarios are stated as `AddUserNew`, `AddPaymentJoin` and `PayThenSettleIsZero`.
- The window title (`Sandbox::title`) and `Sandbox::view` are presentation only.
