/** Properties of the transaction lifecycle: what one `create` or `verify`
    does to the table, and what any sequence of them can and cannot do. */
module TransactionLifecycle {

  import opened Wrappers
  import opened TransactionStatusEnum
  import opened TransactionModel
  import opened TransactionController

  /** The only status changes the controller makes: none, or
      `Pending` to `Verified`. */
  predicate Advances(before: TransactionStatus, after: TransactionStatus)
  {
    before == after || (before == Pending && after == Verified)
  }

  /** A later version of the same transaction: identifier, owner and amount
      kept, status advanced. */
  predicate Evolves(before: Transaction, after: Transaction)
  {
    after.transactionId == before.transactionId
    && after.userId == before.userId
    && after.amount == before.amount
    && Advances(before.status, after.status)
  }

  // ---- create ----

  /** After `create` the new record is found under the returned authority,
      pending, with the caller's user id and amount as given. */
  lemma CreateStoresPendingRecord(rows: map<string, Transaction>, id: string, userId: int, amount: int)
    requires Consistent(rows) && id !in rows
    ensures Consistent(AfterCreate(rows, id, userId, amount))
    ensures Lookup(AfterCreate(rows, id, userId, amount), id) == Some(NewTransaction(id, userId, amount))
    ensures NewTransaction(id, userId, amount) == Transaction(id, userId, amount, Pending)
  {
  }

  /** `create` adds exactly one entry and leaves every other record as it was. */
  lemma CreateAddsOne(rows: map<string, Transaction>, id: string, userId: int, amount: int)
    requires id !in rows
    ensures AfterCreate(rows, id, userId, amount).Keys == rows.Keys + {id}
    ensures |AfterCreate(rows, id, userId, amount)| == |rows| + 1
    ensures forall k :: k in rows ==> AfterCreate(rows, id, userId, amount)[k] == rows[k]
  {
  }

  // ---- verify ----

  /** An unknown authority is not found and the table is untouched. */
  lemma VerifyUnknown(rows: map<string, Transaction>, authority: string)
    requires authority !in rows
    ensures VerifyAnswer(rows, authority) == NotFound
    ensures AfterVerify(rows, authority) == rows
  {
  }

  /** A pending record becomes verified with code 100; nothing else about it
      or about any other record changes. */
  lemma VerifyPending(rows: map<string, Transaction>, authority: string)
    requires authority in rows && rows[authority].status == Pending
    ensures VerifyAnswer(rows, authority) == Answered(100, "Transaction verified successfully", 200)
    ensures AfterVerify(rows, authority).Keys == rows.Keys
    ensures AfterVerify(rows, authority)[authority] == rows[authority].(status := Verified)
    ensures forall k :: k in rows && k != authority ==> AfterVerify(rows, authority)[k] == rows[k]
  {
  }

  /** A verified or failed record is answered with code 101 (HTTP 200) and
      nothing changes. */
  lemma VerifyFinal(rows: map<string, Transaction>, authority: string)
    requires authority in rows && IsTerminal(rows[authority].status)
    ensures VerifyAnswer(rows, authority) == Answered(101, "Transaction already verified or failed", 200)
    ensures AfterVerify(rows, authority) == rows
  {
  }

  /** Verifying twice leaves the table as verifying once, and the second
      call on a known authority answers code 101. */
  lemma VerifyIdempotent(rows: map<string, Transaction>, authority: string)
    ensures AfterVerify(AfterVerify(rows, authority), authority) == AfterVerify(rows, authority)
    ensures authority in rows ==> VerifyAnswer(AfterVerify(rows, authority), authority).code == 101
    ensures authority !in rows ==> VerifyAnswer(AfterVerify(rows, authority), authority) == NotFound
  {
  }

  /** `verify` keeps every record, consistency of the table, and only
      advances statuses; it never produces `Failed`. */
  lemma VerifyEvolves(rows: map<string, Transaction>, authority: string)
    requires Consistent(rows)
    ensures Consistent(AfterVerify(rows, authority))
    ensures AfterVerify(rows, authority).Keys == rows.Keys
    ensures forall k :: k in rows ==> Evolves(rows[k], AfterVerify(rows, authority)[k])
  {
  }

  /** The write `verify` makes is `update(['status' => Verified])`: mass
      assignment of the status column over the saved record, which read back
      is the record with only its status changed. */
  lemma VerifyUpdateThroughFill(t: Transaction)
    ensures Hydrate(Fill(Persist(t)["status" := Text(Value(Verified))])) == Some(t.(status := Verified))
  {
  }

  // ---- repeated verification ----

  /** The answers of `n` successive `verify` calls with one authority, and
      the table they leave. */
  function VerifyTimes(rows: map<string, Transaction>, authority: string, n: nat): (seq<VerifyResponse>, map<string, Transaction>)
    decreases n
  {
    if n == 0 then ([], rows)
    else
      var (rest, last) := VerifyTimes(AfterVerify(rows, authority), authority, n - 1);
      ([VerifyAnswer(rows, authority)] + rest, last)
  }

  /** `n >= 1` calls make exactly the one transition the first call makes;
      every later call on a known authority answers code 101. */
  lemma {:induction false} VerifyRepeated(rows: map<string, Transaction>, authority: string, n: nat)
    requires n >= 1
    ensures VerifyTimes(rows, authority, n).1 == AfterVerify(rows, authority)
    ensures |VerifyTimes(rows, authority, n).0| == n
    ensures VerifyTimes(rows, authority, n).0[0] == VerifyAnswer(rows, authority)
    ensures authority in rows ==>
              forall i :: 1 <= i < n ==>
                VerifyTimes(rows, authority, n).0[i] == Answered(AlreadyFinalCode, AlreadyFinalMessage, OkHttpStatus)
    ensures authority !in rows ==>
              forall i :: 0 <= i < n ==> VerifyTimes(rows, authority, n).0[i] == NotFound
  {
    var once := AfterVerify(rows, authority);
    VerifyIdempotent(rows, authority);
    if n > 1 {
      VerifyRepeated(once, authority, n - 1);
      var rest := VerifyTimes(once, authority, n - 1).0;
      assert VerifyTimes(rows, authority, n).0 == [VerifyAnswer(rows, authority)] + rest;
      if authority in rows {
        assert authority in once && IsTerminal(once[authority].status);
        assert forall i :: 1 <= i < n ==> VerifyTimes(rows, authority, n).0[i] == rest[i - 1];
      }
    }
  }

  // ---- arbitrary request sequences ----

  datatype Request =
    | CreateRequest(transactionId: string, userId: int, amount: int)
    | VerifyRequest(authority: string)

  /** A sequence of requests whose every `create` receives an identifier
      not yet in the table (the role `uniqid` plays). */
  ghost predicate Admissible(rows: map<string, Transaction>, requests: seq<Request>)
    decreases |requests|
  {
    requests == [] ||
    ((requests[0].CreateRequest? ==> requests[0].transactionId !in rows)
     && Admissible(Step(rows, requests[0]), requests[1..]))
  }

  /** The table after serving one request. */
  function Step(rows: map<string, Transaction>, request: Request): map<string, Transaction>
  {
    match request
    case CreateRequest(id, userId, amount) => AfterCreate(rows, id, userId, amount)
    case VerifyRequest(authority) => AfterVerify(rows, authority)
  }

  /** The table after serving `requests` one after another. */
  function Run(rows: map<string, Transaction>, requests: seq<Request>): map<string, Transaction>
    decreases |requests|
  {
    if requests == [] then rows
    else
      Run(Step(rows, requests[0]), requests[1..])
  }

  /** Over any admissible sequence of requests no record is lost, no
      identifier, owner or amount changes, statuses only advance from
      `Pending` to `Verified`, and the table stays consistent. */
  lemma {:induction false} RunEvolves(rows: map<string, Transaction>, requests: seq<Request>)
    requires Consistent(rows) && Admissible(rows, requests)
    ensures Consistent(Run(rows, requests))
    ensures rows.Keys <= Run(rows, requests).Keys
    ensures forall k :: k in rows ==> Evolves(rows[k], Run(rows, requests)[k])
    decreases |requests|
  {
    if requests != [] {
      var next := Step(rows, requests[0]);
      match requests[0] {
        case CreateRequest(id, userId, amount) =>
          CreateStoresPendingRecord(rows, id, userId, amount);
          CreateAddsOne(rows, id, userId, amount);
        case VerifyRequest(authority) =>
          VerifyEvolves(rows, authority);
      }
      assert forall k :: k in rows ==> Evolves(rows[k], next[k]);
      RunEvolves(next, requests[1..]);
      assert Run(rows, requests) == Run(next, requests[1..]);
      forall k | k in rows
        ensures Evolves(rows[k], Run(rows, requests)[k])
      {
        assert Evolves(rows[k], next[k]) && Evolves(next[k], Run(next, requests[1..])[k]);
      }
    }
  }

  /** Every record a run creates starts pending; so no request sequence
      ever produces a `Failed` record, and a `Verified` or `Failed` record
      stays as it is. */
  lemma {:induction false} RunNeverFails(rows: map<string, Transaction>, requests: seq<Request>, k: string)
    requires Consistent(rows) && Admissible(rows, requests)
    requires k in Run(rows, requests) && Run(rows, requests)[k].status == Failed
    ensures k in rows && rows[k] == Run(rows, requests)[k]
    decreases |requests|
  {
    if requests != [] {
      var next := Step(rows, requests[0]);
      assert Run(rows, requests) == Run(next, requests[1..]);
      match requests[0] {
        case CreateRequest(id, userId, amount) =>
          CreateStoresPendingRecord(rows, id, userId, amount);
        case VerifyRequest(authority) =>
          VerifyEvolves(rows, authority);
      }
      RunNeverFails(next, requests[1..], k);
    }
  }

  /** A terminal record keeps its whole value across any run. */
  lemma {:induction false} RunKeepsTerminal(rows: map<string, Transaction>, requests: seq<Request>, k: string)
    requires Consistent(rows) && Admissible(rows, requests)
    requires k in rows && IsTerminal(rows[k].status)
    ensures k in Run(rows, requests) && Run(rows, requests)[k] == rows[k]
  {
    RunEvolves(rows, requests);
    assert Evolves(rows[k], Run(rows, requests)[k]);
  }
}
