/** The payment-transaction controller
    (app/Http/Controllers/Api/v1/Transaction/TransactionController.php):
    `create` inserts a pending transaction and hands back its identifier as
    the `authority`; `verify` finds a transaction by authority and moves it
    from `Pending` to `Verified`. The transactions table the controller
    reaches through the `Transaction` model is the map `transactions`, keyed
    by `transaction_id`. */
module TransactionController {

  import opened Wrappers
  import opened TransactionStatusEnum
  import opened TransactionModel

  const CreatedCode := 100
  const CreatedHttpStatus := 201
  const CreatedMessage := "Transaction created successfully"
  const VerifiedCode := 100
  const AlreadyFinalCode := 101
  const OkHttpStatus := 200
  const VerifiedMessage := "Transaction verified successfully"
  const AlreadyFinalMessage := "Transaction already verified or failed"

  /** The JSON answer of `create`. */
  datatype CreateResponse = CreateResponse(code: int, message: string, authority: string, httpStatus: int)

  /** The answer of `verify`: `NotFound` is the exception `firstOrFail`
      raises; otherwise a JSON body with its code and HTTP status. */
  datatype VerifyResponse = NotFound | Answered(code: int, message: string, httpStatus: int)

  /** Every row is filed under its own `transaction_id`, so a lookup by
      authority finds the row whose `transaction_id` column matches. */
  ghost predicate Consistent(rows: map<string, Transaction>)
  {
    forall k :: k in rows ==> rows[k].transactionId == k
  }

  /** `Transaction::where('transaction_id', authority)->first()`. */
  function Lookup(rows: map<string, Transaction>, authority: string): (r: Option<Transaction>)
    requires Consistent(rows)
    ensures r.Some? <==> exists k :: k in rows && rows[k].transactionId == authority
    ensures r.Some? ==> r.value.transactionId == authority && r.value in rows.Values
  {
    if authority in rows then Some(rows[authority]) else None
  }

  /** The attribute array `create` passes to `Transaction::create`; the
      status is given as the enum case, which the cast stores as its
      backing string. */
  function CreateAttributes(transactionId: string, userId: int, amount: int): (r: map<string, Column>)
    ensures r.Keys == set k | k in Fillable
    ensures Fill(r) == r
  {
    map[
      "transaction_id" := Text(transactionId),
      "user_id" := Number(userId),
      "amount" := Number(amount),
      "status" := Text(Value(Pending))]
  }

  /** The record `create` inserts: what mass assignment of its attribute
      array produces, a pending transaction with the given fields. */
  function NewTransaction(transactionId: string, userId: int, amount: int): (t: Transaction)
    ensures Hydrate(Fill(CreateAttributes(transactionId, userId, amount))) == Some(t)
    ensures t.status == Pending
  {
    var t := Transaction(transactionId, userId, amount, Pending);
    assert Fill(CreateAttributes(transactionId, userId, amount)) == Persist(t);
    PersistHydrateRoundTrip(t);
    t
  }

  /** The table after `create` with the fresh identifier `transactionId`:
      the new record under that key, every other entry as before. */
  function AfterCreate(rows: map<string, Transaction>, transactionId: string, userId: int, amount: int): (r: map<string, Transaction>)
    ensures r.Keys == rows.Keys + {transactionId}
    ensures r[transactionId] == NewTransaction(transactionId, userId, amount)
    ensures forall k :: k in rows && k != transactionId ==> r[k] == rows[k]
  {
    rows[transactionId := NewTransaction(transactionId, userId, amount)]
  }

  /** The answer `verify` gives on the table `rows`: not found exactly for an
      unknown authority, otherwise HTTP 200 with code 100 for a pending
      record and 101 for any other. */
  function VerifyAnswer(rows: map<string, Transaction>, authority: string): (r: VerifyResponse)
    ensures r.NotFound? <==> authority !in rows
    ensures r.Answered? ==> r.httpStatus == OkHttpStatus
    ensures r.Answered? ==> (r.code == VerifiedCode <==> rows[authority].status == Pending)
    ensures r.Answered? ==> r.code in {VerifiedCode, AlreadyFinalCode}
  {
    if authority !in rows then NotFound
    else if rows[authority].status == Pending then Answered(VerifiedCode, VerifiedMessage, OkHttpStatus)
    else Answered(AlreadyFinalCode, AlreadyFinalMessage, OkHttpStatus)
  }

  /** The table after `verify`: only the record at `authority` may change,
      only in its status, which ends terminal; it never becomes `Failed`,
      and a terminal record stays as it is. */
  function AfterVerify(rows: map<string, Transaction>, authority: string): (r: map<string, Transaction>)
    ensures r.Keys == rows.Keys
    ensures forall k :: k in rows && k != authority ==> r[k] == rows[k]
    ensures authority in rows ==>
              r[authority] == rows[authority].(status := r[authority].status)
              && IsTerminal(r[authority].status)
              && (r[authority].status == Failed ==> rows[authority].status == Failed)
    ensures authority in rows && IsTerminal(rows[authority].status) ==> r[authority] == rows[authority]
  {
    if authority in rows && rows[authority].status == Pending
    then rows[authority := rows[authority].(status := Verified)]
    else rows
  }

  class Controller {
    var transactions: map<string, Transaction>

    ghost predicate Valid()
      reads this
    {
      Consistent(transactions)
    }

    constructor ()
      ensures Valid() && transactions == map[]
    {
      transactions := map[];
    }

    /** `firstOrFail` without the exception: the transaction whose
        `transaction_id` is `authority`, if there is one. */
    method FindByAuthority(authority: string) returns (r: Option<Transaction>)
      requires Valid()
      ensures r.Some? <==> authority in transactions
      ensures r.Some? ==> r.value == transactions[authority] && r.value.transactionId == authority
    {
      if authority in transactions {
        r := Some(transactions[authority]);
      } else {
        r := None;
      }
    }

    /** `create`: `transactionId` stands for the value of `uniqid`, which is
        assumed not already in use. */
    method Create(transactionId: string, userId: int, amount: int) returns (resp: CreateResponse)
      requires Valid()
      requires transactionId !in transactions
      modifies this
      ensures Valid()
      ensures transactions == AfterCreate(old(transactions), transactionId, userId, amount)
      ensures resp == CreateResponse(CreatedCode, CreatedMessage, transactionId, CreatedHttpStatus)
      ensures Lookup(transactions, resp.authority) == Some(NewTransaction(transactionId, userId, amount))
    {
      var t := NewTransaction(transactionId, userId, amount);
      transactions := transactions[transactionId := t];
      resp := CreateResponse(CreatedCode, CreatedMessage, t.transactionId, CreatedHttpStatus);
    }

    /** `verify`: a pending transaction becomes verified (code 100); any
        other status is answered with code 101 and left alone; an unknown
        authority is not found. */
    method Verify(authority: string) returns (resp: VerifyResponse)
      requires Valid()
      modifies this
      ensures Valid()
      ensures transactions == AfterVerify(old(transactions), authority)
      ensures resp == VerifyAnswer(old(transactions), authority)
    {
      var found := FindByAuthority(authority);
      if found.None? {
        return NotFound;
      }
      var t := found.value;
      if t.status == Pending {
        transactions := transactions[authority := t.(status := Verified)];
        return Answered(VerifiedCode, VerifiedMessage, OkHttpStatus);
      }
      return Answered(AlreadyFinalCode, AlreadyFinalMessage, OkHttpStatus);
    }
  }

  /** A client of the controller: the request/verify/verify scenario. */
  method Scenario(c: Controller, authority: string, userId: int)
    requires c.Valid() && authority !in c.transactions
    modifies c
    ensures c.Valid()
    ensures c.transactions == old(c.transactions)[authority := Transaction(authority, userId, 100000, Verified)]
  {
    var created := c.Create(authority, userId, 100000);
    assert created.httpStatus == 201 && created.authority == authority;
    var first := c.Verify(created.authority);
    assert first == Answered(100, "Transaction verified successfully", 200);
    var second := c.Verify(created.authority);
    assert second == Answered(101, "Transaction already verified or failed", 200);
  }
}
