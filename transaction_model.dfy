/** The `Transaction` Eloquent model (app/Models/Transaction.php): a record of
    the four mass-assignable attributes, with `status` cast to the
    `TransactionStatus` enum, and its persisted form as a row of columns. */
module TransactionModel {

  import opened Wrappers
  import opened TransactionStatusEnum

  /** A hydrated transaction. `status` is an enum case, never a free string. */
  datatype Transaction = Transaction(
    transactionId: string,
    userId: int,
    amount: int,
    status: TransactionStatus)

  /** A column value as the database holds it. */
  datatype Column = Text(text: string) | Number(number: int)

  /** The model's `$fillable` list. */
  const Fillable: seq<string> := ["transaction_id", "user_id", "amount", "status"]

  /** Mass assignment: only the fillable keys of an attribute array reach the
      model; every other key is dropped. */
  function Fill(attributes: map<string, Column>): (r: map<string, Column>)
    ensures r.Keys == attributes.Keys * set k | k in Fillable
    ensures forall k :: k in r ==> r[k] == attributes[k]
  {
    map k | k in attributes && k in Fillable :: attributes[k]
  }

  /** The row a record is saved as: the status cast stores the backing string. */
  function Persist(t: Transaction): (row: map<string, Column>)
    ensures row.Keys == set k | k in Fillable
    ensures row["status"] == Text(Value(t.status))
  {
    map[
      "transaction_id" := Text(t.transactionId),
      "user_id" := Number(t.userId),
      "amount" := Number(t.amount),
      "status" := Text(Value(t.status))]
  }

  /** Reading a row back into a record: the status cast through the enum's
      `from`. A missing or ill-typed column or a status string that is not a
      backing value gives `None`. */
  function Hydrate(row: map<string, Column>): (r: Option<Transaction>)
    ensures r.Some? ==> "status" in row && row["status"] == Text(Value(r.value.status))
    ensures r.Some? ==> "transaction_id" in row && row["transaction_id"] == Text(r.value.transactionId)
    ensures r.Some? ==> "user_id" in row && row["user_id"] == Number(r.value.userId)
    ensures r.Some? ==> "amount" in row && row["amount"] == Number(r.value.amount)
  {
    if "transaction_id" in row && row["transaction_id"].Text?
       && "user_id" in row && row["user_id"].Number?
       && "amount" in row && row["amount"].Number?
       && "status" in row && row["status"].Text?
    then
      match From(row["status"].text)
      case None => None
      case Some(s) =>
        Some(Transaction(row["transaction_id"].text, row["user_id"].number, row["amount"].number, s))
    else None
  }

  /** Saving a record and reading it back gives the same record, status
      included; mass assignment of the saved row keeps every column. */
  lemma PersistHydrateRoundTrip(t: Transaction)
    ensures Hydrate(Persist(t)) == Some(t)
    ensures Fill(Persist(t)) == Persist(t)
  {
  }

  /** Attributes outside `$fillable` never reach the model, so they never
      influence the hydrated record. */
  lemma FillIgnoresUnfillable(attributes: map<string, Column>, k: string, c: Column)
    requires k !in Fillable
    ensures Fill(attributes[k := c]) == Fill(attributes)
    ensures Hydrate(Fill(attributes[k := c])) == Hydrate(Fill(attributes))
  {
  }

  /** A row reads back as `t` exactly when its fillable columns are the row
      `t` is saved as: hydration succeeds on every well-formed row, takes
      every field from its column, and accepts nothing else. */
  lemma HydrateExact(row: map<string, Column>, t: Transaction)
    ensures Hydrate(row) == Some(t) <==> Fill(row) == Persist(t)
  {
    if Fill(row) == Persist(t) {
      assert "transaction_id" in Fill(row) && "user_id" in Fill(row) && "amount" in Fill(row);
      assert row["transaction_id"] == Text(t.transactionId);
      assert row["user_id"] == Number(t.userId);
      assert row["amount"] == Number(t.amount);
      assert row["status"] == Text(Value(t.status));
      ValueFromRoundTrip(t.status, Value(t.status));
    }
    if Hydrate(row) == Some(t) {
      assert Fill(row).Keys == Persist(t).Keys;
    }
  }
}
