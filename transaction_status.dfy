/** The `TransactionStatus` backed enum (app/Enum/TransactionStatus.php):
    three cases, each backed by a fixed lower-case string. */
module TransactionStatusEnum {

  import opened Wrappers

  datatype TransactionStatus = Pending | Verified | Failed

  /** The backing string of a case, as the enum's `->value` gives it. */
  function Value(s: TransactionStatus): (r: string)
    ensures |r| > 0 && forall i :: 0 <= i < |r| ==> 'a' <= r[i] <= 'z'
  {
    match s
    case Pending => "pending"
    case Verified => "verified"
    case Failed => "failed"
  }

  /** The enum's `from`: the case backed by `v`, or `None` where `from`
      raises a `ValueError`. */
  function From(v: string): (r: Option<TransactionStatus>)
    ensures r.Some? ==> Value(r.value) == v
    ensures r.None? <==> forall s: TransactionStatus :: Value(s) != v
  {
    if v == "pending" then Some(Pending)
    else if v == "verified" then Some(Verified)
    else if v == "failed" then Some(Failed)
    else None
  }

  /** The enum's `cases()`, in declaration order. */
  function Cases(): (r: seq<TransactionStatus>)
    ensures |r| == 3
    ensures forall s: TransactionStatus :: s in r
    ensures forall i, j :: 0 <= i < j < |r| ==> r[i] != r[j]
  {
    var r := [Pending, Verified, Failed];
    assert forall s: TransactionStatus :: (s.Pending? || s.Verified? || s.Failed?) ==> s in r;
    r
  }

  /** A status from which the controller moves no further. */
  predicate IsTerminal(s: TransactionStatus)
  {
    s != Pending
  }

  /** The backing values are exactly the three lower-case names. */
  lemma BackingValues()
    ensures Value(Pending) == "pending"
    ensures Value(Verified) == "verified"
    ensures Value(Failed) == "failed"
  {
  }

  /** Distinct cases have distinct backing strings: the encoding is injective. */
  lemma ValueInjective(s: TransactionStatus, t: TransactionStatus)
    ensures Value(s) == Value(t) <==> s == t
  {
  }

  /** Decoding undoes encoding, and the three backing strings are the only
      strings that decode. */
  lemma ValueFromRoundTrip(s: TransactionStatus, v: string)
    ensures From(Value(s)) == Some(s)
    ensures From(v).Some? <==> v in {"pending", "verified", "failed"}
  {
  }
}
