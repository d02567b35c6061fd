# Payment transaction lifecycle

A Dafny model of the payment-transaction part of an e-commerce API backend.
Two endpoints share one table of transaction records:

- `create` (`POST /api/v1/payment/request`) stores a new transaction. The
  record holds a fresh `transaction_id`, the authenticated caller's user id,
  the requested amount and status `Pending`. The endpoint answers code 100,
  HTTP 201, with the new `transaction_id` as `authority`.
- `verify` (`POST /api/v1/payment/verify`) looks a transaction up by
  `authority`. An unknown authority is not found. A pending transaction
  becomes `Verified` and the endpoint answers code 100. Any other status is
  answered with code 101 and the record is left as it is.

The status is the backed enum `TransactionStatus` (`pending`, `verified`,
`failed`). A record has the four mass-assignable attributes of the
`Transaction` model, with `status` cast to that enum.

Modules:

- `Wrappers` (`wrappers.dfy`): the `Option` type.
- `TransactionStatusEnum` (`transaction_status.dfy`): the enum, its backing
  strings, `from` and `cases()`.
- `TransactionModel` (`transaction_model.dfy`): the record, `$fillable`
  mass assignment, and the persisted row with the status cast.
- `TransactionController` (`transaction_controller.dfy`): a class `Controller` whose
  field `transactions` is the table, a `map` keyed by `transaction_id`.
  Its methods `Create` and `Verify` are the two endpoints. Each method's
  contract ties the new table and the answer to the pure functions
  `AfterCreate`, `AfterVerify` and `VerifyAnswer`.
- `TransactionLifecycle` (`transaction_lifecycle.dfy`): lemmas about those
  functions, for one call, for repeated `verify` calls, and for any sequence
  of requests.

The model follows the code where the OpenAPI annotation on `verify`
(TransactionController.php:69-71) differs from it. That annotation promises
HTTP 400 for an already-final transaction. The code answers with the default
status, 200, and so does the model.

The code does not validate `amount`, does not guard `verify` with a
compare-and-swap, and does not retry on a duplicate identifier; neither does
the model.

## Model

| member | source | states |
|---|---|---|
| TransactionStatusEnum.Value | app/Enum/TransactionStatus.php:7-9 | the backing string of every case is a non-empty lower-case word |
| TransactionStatusEnum.From | app/Enum/TransactionStatus.php:5-10 | a decoded case is backed by the given string; decoding fails exactly when no case is backed by it |
| TransactionStatusEnum.Cases | app/Enum/TransactionStatus.php:7-9 | there are exactly three cases, pairwise distinct, and every status is one of them |
| TransactionStatusEnum.BackingValues | app/Enum/TransactionStatus.php:7-9 | `Pending`, `Verified` and `Failed` are backed by `"pending"`, `"verified"` and `"failed"` |
| TransactionStatusEnum.ValueInjective | app/Enum/TransactionStatus.php:5-9 | two cases have the same backing string only if they are the same case |
| TransactionStatusEnum.ValueFromRoundTrip | app/Enum/TransactionStatus.php:5-9 | decoding a case's backing string gives that case; only the three backing strings decode |
| TransactionModel.Fill | app/Models/Transaction.php:13-18 | mass assignment keeps exactly the given attributes whose keys are fillable, each with its value unchanged |
| TransactionModel.Persist | app/Models/Transaction.php:13-25 | a saved row has exactly the four fillable columns, and `status` holds the backing string of the record's status |
| TransactionModel.Hydrate | app/Models/Transaction.php:20-25 | a record read back from a row takes its id, user id and amount from the matching columns; its enum status is the one the `status` column's string backs |
| TransactionModel.PersistHydrateRoundTrip | app/Models/Transaction.php:13-25 | saving a record and reading it back gives the same record; mass assignment of a saved row keeps it whole |
| TransactionModel.FillIgnoresUnfillable | app/Models/Transaction.php:13-18 | an attribute outside `$fillable` is dropped by mass assignment, so it has no effect on the record produced |
| TransactionModel.HydrateExact | app/Models/Transaction.php:13-25 | a row reads back as a given record exactly when its fillable columns are the row that record is saved as |
| TransactionController.Lookup | app/Http/Controllers/Api/v1/Transaction/TransactionController.php:77 | a lookup by authority succeeds exactly when some record has that `transaction_id`, and returns such a record |
| TransactionController.CreateAttributes | app/Http/Controllers/Api/v1/Transaction/TransactionController.php:39-44 | the attribute array `create` passes has exactly the four fillable keys, so mass assignment drops none of them |
| TransactionController.NewTransaction | app/Http/Controllers/Api/v1/Transaction/TransactionController.php:39-44 | the record `create` inserts is what mass assignment of its attribute array produces, and it is pending |
| TransactionController.AfterCreate | app/Http/Controllers/Api/v1/Transaction/TransactionController.php:39-44 | the table after `create` holds the new record under its id, has one key more at most, and keeps every other entry |
| TransactionController.VerifyAnswer | app/Http/Controllers/Api/v1/Transaction/TransactionController.php:77-90 | not found exactly for an unknown authority. Otherwise HTTP 200, with code 100 exactly when the record is pending and 101 otherwise |
| TransactionController.AfterVerify | app/Http/Controllers/Api/v1/Transaction/TransactionController.php:77-90 | only the record at the authority may change, and only its status. That status ends `Verified` or `Failed`, never newly `Failed`, and a terminal record is left as it is |
| TransactionController.Controller.FindByAuthority | app/Http/Controllers/Api/v1/Transaction/TransactionController.php:77 | finds the record filed under the authority, with a matching `transaction_id`, and fails exactly when there is none; changes nothing |
| TransactionController.Controller.Create | app/Http/Controllers/Api/v1/Transaction/TransactionController.php:37-51 | inserts the pending record under the fresh id. Answers code 100, HTTP 201, with that id as authority. A lookup of the authority gives the new record. The table stays consistent |
| TransactionController.Controller.Verify | app/Http/Controllers/Api/v1/Transaction/TransactionController.php:75-91 | the new table is the old one with a pending record at the authority turned `Verified`. The answer is not-found, 100 or 101 as the old record's status decides |
| TransactionController.Scenario | app/Http/Controllers/Api/v1/Transaction/TransactionController.php:37-91 | create with amount 100000 answers 201 with the id as authority. The first verify answers 100 and the second 101. The record ends `Verified` |
| TransactionLifecycle.CreateStoresPendingRecord | app/Http/Controllers/Api/v1/Transaction/TransactionController.php:39-50 | after `create`, looking up the returned authority gives a pending record with the given user id and amount, and the table stays consistent |
| TransactionLifecycle.CreateAddsOne | app/Http/Controllers/Api/v1/Transaction/TransactionController.php:39-44 | `create` adds exactly one key and leaves every earlier record unchanged |
| TransactionLifecycle.VerifyUnknown | app/Http/Controllers/Api/v1/Transaction/TransactionController.php:77 | an unknown authority is not found and the table is unchanged |
| TransactionLifecycle.VerifyPending | app/Http/Controllers/Api/v1/Transaction/TransactionController.php:79-84 | a pending record becomes `Verified` with code 100 and HTTP 200. Its id, user and amount stay, and no other record changes |
| TransactionLifecycle.VerifyFinal | app/Http/Controllers/Api/v1/Transaction/TransactionController.php:87-90 | a `Verified` or `Failed` record gets code 101 with HTTP 200 and the table is unchanged |
| TransactionLifecycle.VerifyIdempotent | app/Http/Controllers/Api/v1/Transaction/TransactionController.php:79-90 | verifying twice leaves the same table as verifying once; the second call answers 101 on a known authority, not-found otherwise |
| TransactionLifecycle.VerifyEvolves | app/Http/Controllers/Api/v1/Transaction/TransactionController.php:79-90 | `verify` keeps every key and every id, user and amount. Statuses change only from `Pending` to `Verified`. The table stays consistent |
| TransactionLifecycle.VerifyUpdateThroughFill | app/Http/Controllers/Api/v1/Transaction/TransactionController.php:80 | the `update` of the status column through mass assignment yields the saved record with only its status changed to `Verified` |
| TransactionLifecycle.VerifyRepeated | app/Http/Controllers/Api/v1/Transaction/TransactionController.php:75-91 | n >= 1 verify calls leave the same table as one. The first answer is the single call's, and every later one is 101 (or not-found for an unknown authority) |
| TransactionLifecycle.RunEvolves | app/Http/Controllers/Api/v1/Transaction/TransactionController.php:37-91 | over any request sequence with fresh ids, records are never lost and id, user and amount never change. Status moves only from `Pending` to `Verified` |
| TransactionLifecycle.RunNeverFails | app/Http/Controllers/Api/v1/Transaction/TransactionController.php:37-91 | no request sequence creates a `Failed` record or moves a record into `Failed`; a failed record at the end was failed and identical at the start |
| TransactionLifecycle.RunKeepsTerminal | app/Http/Controllers/Api/v1/Transaction/TransactionController.php:79-90 | a `Verified` or `Failed` record stays exactly as it is across any request sequence |

## Left out

- Concurrency: each `create` or `verify` is one atomic step. The race between the read at line 77 and the write at line 80 of the controller is not modelled.
- Identifier generation: `uniqid('', true)` is time and entropy based. It is a parameter of `Create`, assumed not already in use (`requires transactionId !in transactions`). No database uniqueness constraint on `transaction_id` is part of this model.
- The authenticated user: `$request->user()->id` comes from the framework's authentication middleware and is a parameter. The unauthenticated (401) path belongs to that middleware and is not modelled.
- HTTP and JSON plumbing: requests and responses are datatypes. The 404 that Laravel renders for `firstOrFail`'s exception is the `NotFound` case.
- Floats: `amount` is documented as a float and copied unvalidated from the request. It is an `int` here, with no positivity check, because the code has none.
- `Lookup` and `FindByAuthority` compare the authority with `transaction_id` by exact string equality; the database's comparison (collation, type coercion) is not modelled, and the database in use is not part of this model.
- `Hydrate`'s `None` for a missing or ill-typed column is a typing abstraction: Eloquent reads a missing column as null, and only the status cast raises (`ValueError`, modelled by `From`).
- Timestamps (`created_at`, `updated_at`) that Eloquent maintains are not modelled.
- The table is keyed by `transaction_id`. The auto-increment primary key of the rows is not modelled.
- Everything outside the payment transaction flow is not part of this model: product, article, category, brand, feature, user and auth controllers, form-request rules, resources, migrations, factories and routes.
