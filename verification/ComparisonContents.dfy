/** What the differences of two replay results say: path, expected and actual text of each. */
module ComparisonContents {
  import opened Outcomes
  import opened Ordering
  import opened Decimal
  import opened Payments
  import opened Comparison
  import Sagas

  // ----- Membership -----

  lemma {:induction false} InConcat(ids: seq<string>, f: string -> seq<Difference>, d: Difference)
    ensures d in Concat(ids, f) <==> exists i :: 0 <= i < |ids| && d in f(ids[i])
  {
    if ids != [] {
      InConcat(ids[1..], f, d);
      if d in Concat(ids[1..], f) {
        var i :| 0 <= i < |ids[1..]| && d in f(ids[1..][i]);
        assert d in f(ids[i + 1]);
      }
      if i :| 0 <= i < |ids| && d in f(ids[i]) {
        if i > 0 {
          assert ids[1..][i - 1] == ids[i];
        }
      }
    }
  }

  lemma InCollected(ids: set<string>, f: string -> seq<Difference>, d: Difference)
    ensures d in Collected(ids, f) <==> exists id :: id in ids && d in f(id)
  {
    var s := Ids(ids);
    EachOnce(s, ids);
    InConcat(s, f, d);
    if d in Collected(ids, f) {
      var i :| 0 <= i < |s| && d in f(s[i]);
      assert s[i] in ids;
    }
    if id :| id in ids && d in f(id) {
      assert id in s;
      var i :| 0 <= i < |s| && s[i] == id;
      assert d in f(s[i]);
    }
  }

  // ----- What is reported -----

  /** One field of a payment that is not as expected. */
  predicate FieldReported(path: string, e: PaymentState, a: PaymentState, d: Difference) {
    || (e.status != a.status && d == Difference(path + ".status", StatusName(e.status), StatusName(a.status)))
    || (e.amount.amount != a.amount.amount &&
        d == Difference(path + ".amount", FormatInt(e.amount.amount), FormatInt(a.amount.amount)))
    || (e.amount.currency != a.amount.currency &&
       d == Difference(path + ".currency", e.amount.currency, a.amount.currency))
    || (e.authorized != a.authorized &&
        d == Difference(path + ".authorized_amount", FormatInt(e.authorized), FormatInt(a.authorized)))
    || (e.captured != a.captured &&
        d == Difference(path + ".captured_amount", FormatInt(e.captured), FormatInt(a.captured)))
    || (e.refunded != a.refunded &&
        d == Difference(path + ".refunded_amount", FormatInt(e.refunded), FormatInt(a.refunded)))
    || (e.version != a.version && d == Difference(path + ".version", FormatInt(e.version), FormatInt(a.version)))
  }

  /** A payment that is missing, unexpected, or not as expected. */
  predicate PaymentReported(format: Format, l: map<string, PaymentState>, r: map<string, PaymentState>, id: string,
                            d: Difference) {
    var path := "payments[" + format.quote(id) + "]";
    || (id in l && id in r && FieldReported(path, l[id], r[id], d))
    || (id in l && id !in r && d == Difference(path, "present", "<missing>"))
    || (id !in l && id in r && d == Difference(path, "<unexpected>", "present"))
  }

  /** An operation that is missing, unexpected, or for another payment, kind or time. */
  predicate OperationReported(format: Format, l: map<string, Sagas.AsyncOperation>,
                              r: map<string, Sagas.AsyncOperation>, id: string, d: Difference) {
    var path := "async_operations[" + id + "]";
    || (id in l && id in r
        && (l[id].paymentId != r[id].paymentId || l[id].kind != r[id].kind || l[id].scheduledAt != r[id].scheduledAt)
        && d == Difference(path + ".definition",
                           l[id].paymentId + "/" + l[id].kind + "/" + format.time(l[id].scheduledAt),
                           r[id].paymentId + "/" + r[id].kind + "/" + format.time(r[id].scheduledAt)))
    || (id in l && id !in r && d == Difference(path, "present", "<missing>"))
    || (id !in l && id in r && d == Difference(path, "<unexpected>", "present"))
  }

  lemma NamesAgreeIff(s: Status, t: Status)
    ensures StatusName(s) == StatusName(t) <==> s == t
  {
    if StatusName(s) == StatusName(t) {
      StatusNameInjective(s, t);
    }
  }

  lemma TextsAgreeIff(m: int, n: int)
    ensures FormatInt(m) == FormatInt(n) <==> m == n
  {
    if FormatInt(m) == FormatInt(n) {
      FormatIntInjective(m, n);
    }
  }

  lemma FieldsReported(path: string, e: PaymentState, a: PaymentState, d: Difference)
    ensures d in StateDifferences(path, e, a) <==> FieldReported(path, e, a, d)
  {
    NamesAgreeIff(e.status, a.status);
    TextsAgreeIff(e.amount.amount, a.amount.amount);
    TextsAgreeIff(e.authorized, a.authorized);
    TextsAgreeIff(e.captured, a.captured);
    TextsAgreeIff(e.refunded, a.refunded);
    TextsAgreeIff(e.version, a.version);
  }

  ghost predicate SomePayment(format: Format, l: map<string, PaymentState>, r: map<string, PaymentState>,
                              d: Difference) {
    exists id :: PaymentReported(format, l, r, id, d)
  }

  ghost predicate SomeOperation(format: Format, l: map<string, Sagas.AsyncOperation>,
                                r: map<string, Sagas.AsyncOperation>, d: Difference) {
    exists id :: OperationReported(format, l, r, id, d)
  }

  predicate TimeReported(format: Format, e: int, a: int, d: Difference) {
    e != a && d == Difference("current_virtual_time", format.time(e), format.time(a))
  }

  lemma PaymentsReported(format: Format, l: map<string, PaymentState>, r: map<string, PaymentState>, d: Difference)
    ensures d in Collected(l.Keys + r.Keys, id => PaymentDifferences(format, l, r, id)) <==>
            SomePayment(format, l, r, d)
  {
    InCollected(l.Keys + r.Keys, id => PaymentDifferences(format, l, r, id), d);
    forall id
      ensures id in l.Keys + r.Keys && d in PaymentDifferences(format, l, r, id) <==>
              PaymentReported(format, l, r, id, d)
    {
      OnePaymentReported(format, l, r, id, d);
    }
  }

  lemma OnePaymentReported(format: Format, l: map<string, PaymentState>, r: map<string, PaymentState>, id: string,
                           d: Difference)
    ensures id in l.Keys + r.Keys && d in PaymentDifferences(format, l, r, id) <==> PaymentReported(format, l, r, id, d)
  {
    if id in l && id in r {
      FieldsReported("payments[" + format.quote(id) + "]", l[id], r[id], d);
    }
  }

  lemma OperationsReported(format: Format, l: map<string, Sagas.AsyncOperation>, r: map<string, Sagas.AsyncOperation>,
                           d: Difference)
    ensures d in Collected(l.Keys + r.Keys, id => OperationDifferences(format, l, r, id)) <==>
            SomeOperation(format, l, r, d)
  {
    InCollected(l.Keys + r.Keys, id => OperationDifferences(format, l, r, id), d);
    forall id
      ensures id in l.Keys + r.Keys && d in OperationDifferences(format, l, r, id) <==>
              OperationReported(format, l, r, id, d)
    {
      OneOperationReported(format, l, r, id, d);
    }
  }

  lemma OneOperationReported(format: Format, l: map<string, Sagas.AsyncOperation>,
                             r: map<string, Sagas.AsyncOperation>, id: string, d: Difference)
    ensures id in l.Keys + r.Keys && d in OperationDifferences(format, l, r, id) <==>
            OperationReported(format, l, r, id, d)
  {
  }

  /**
   The comparison reports exactly these differences: for each payment of either result
   what is missing, unexpected or different, field by field, with the expected text first;
   for each operation the same of its payment, kind and time; and the final times if they
   differ.
   */
  lemma ReportedIff(format: Format, e: ExecutionResult, a: ExecutionResult, d: Difference)
    ensures d in AllDifferences(format, e, a) <==>
            || SomePayment(format, IndexPayments(e.payments), IndexPayments(a.payments), d)
            || SomeOperation(format, IndexOperations(e.asyncOperations), IndexOperations(a.asyncOperations), d)
            || TimeReported(format, e.currentVirtualTime, a.currentVirtualTime, d)
  {
    var o, p := IndexOperations(e.asyncOperations), IndexOperations(a.asyncOperations);
    var l, r := IndexPayments(e.payments), IndexPayments(a.payments);
    OperationsReported(format, o, p, d);
    PaymentsReported(format, l, r, d);
    var x, z := Collected(o.Keys + p.Keys, id => OperationDifferences(format, o, p, id)),
        Collected(l.Keys + r.Keys, id => PaymentDifferences(format, l, r, id));
    InThree(x, TimeDifference(format, e.currentVirtualTime, a.currentVirtualTime), z, d);
  }

  lemma InThree(x: seq<Difference>, y: seq<Difference>, z: seq<Difference>, d: Difference)
    ensures d in x + y + z <==> d in x || d in y || d in z
  {
  }
}
