/**
 The comparison of two execution results, internal/replay/application/comparison.go.

 Maps are enumerated in any order; the final sort removes that choice. How an id is
 quoted in a path and how a time is printed are parameters of the model.
 */
module Comparison {
  import opened Ordering
  import opened Decimal
  import opened Payments
  import Sagas

  datatype Difference = Difference(path: string, expected: string, actual: string)

  datatype ExecutionResult = ExecutionResult(
    payments: seq<PaymentState>,
    currentVirtualTime: int,
    asyncOperations: seq<Sagas.AsyncOperation>)

  datatype Format = Format(quote: string -> string, time: int -> string)

  const PRESENT := "present"
  const MISSING := "<missing>"
  const UNEXPECTED := "<unexpected>"

  predicate DifferenceLeq(a: Difference, b: Difference) {
    if a.path != b.path then LexLeq(a.path, b.path)
    else if a.expected != b.expected then LexLeq(a.expected, b.expected)
    else LexLeq(a.actual, b.actual)
  }

  lemma DifferenceOrder()
    ensures TotalOrder(DifferenceLeq)
  {
    LexIsTotalOrder();
    forall a, b
      ensures DifferenceLeq(a, b) || DifferenceLeq(b, a)
      ensures DifferenceLeq(a, b) && DifferenceLeq(b, a) ==> a == b
    {
      assert LexLeq(a.path, b.path) || LexLeq(b.path, a.path);
      assert LexLeq(a.expected, b.expected) || LexLeq(b.expected, a.expected);
      assert LexLeq(a.actual, b.actual) || LexLeq(b.actual, a.actual);
    }
    forall a, b, c | DifferenceLeq(a, b) && DifferenceLeq(b, c)
      ensures DifferenceLeq(a, c)
    {
      DifferenceTransitive(a, b, c);
    }
  }

  lemma DifferenceTransitive(a: Difference, b: Difference, c: Difference)
    requires DifferenceLeq(a, b) && DifferenceLeq(b, c)
    ensures DifferenceLeq(a, c)
  {
    if a.path != b.path || b.path != c.path {
      PartTransitive(a.path, b.path, c.path);
    } else if a.expected != b.expected || b.expected != c.expected {
      PartTransitive(a.expected, b.expected, c.expected);
    } else {
      LexTransitive(a.actual, b.actual, c.actual);
    }
  }

  lemma PartTransitive(a: string, b: string, c: string)
    requires (a == b || LexLeq(a, b)) && (b == c || LexLeq(b, c)) && (a != b || b != c)
    ensures a != c && LexLeq(a, c)
  {
    LexIsTotalOrder();
    if a != b && b != c {
      LexTransitive(a, b, c);
      if a == c {
        LexAntisymmetric(a, b);
      }
    }
  }

  // ----- Values as text -----

  function StatusName(status: Status): string {
    match status
    case Pending => "pending"
    case Authorized => "authorized"
    case PartiallyCaptured => "partially_captured"
    case Captured => "captured"
    case PartiallyRefunded => "partially_refunded"
    case Refunded => "refunded"
    case Failed => "failed"
    case Cancelled => "cancelled"
  }

  lemma StatusNameInjective(s: Status, t: Status)
    requires StatusName(s) == StatusName(t)
    ensures s == t
  {
    assert |StatusName(s)| == |StatusName(t)|;
    assert StatusName(s)[0] == StatusName(t)[0];
    assert StatusName(s)[|StatusName(s)| - 3] == StatusName(t)[|StatusName(t)| - 3];
  }

  // ----- Indexing -----

  /** The last payment of each id. */
  function IndexPayments(payments: seq<PaymentState>): map<string, PaymentState> {
    if payments == [] then map[]
    else
      var last := payments[|payments| - 1];
      IndexPayments(payments[..|payments| - 1])[last.id := last]
  }

  function IndexOperations(operations: seq<Sagas.AsyncOperation>): map<string, Sagas.AsyncOperation> {
    if operations == [] then map[]
    else
      var last := operations[|operations| - 1];
      IndexOperations(operations[..|operations| - 1])[last.id := last]
  }

  lemma {:induction false} IndexedUnderOwnId(payments: seq<PaymentState>)
    ensures forall id :: id in IndexPayments(payments) ==> IndexPayments(payments)[id].id == id
  {
    if payments != [] {
      IndexedUnderOwnId(payments[..|payments| - 1]);
    }
  }

  // ----- The differences of one id -----

  function ValueDifference(path: string, expected: string, actual: string): seq<Difference> {
    if expected == actual then [] else [Difference(path, expected, actual)]
  }

  function StateDifferences(path: string, e: PaymentState, a: PaymentState): seq<Difference> {
    ValueDifference(path + ".status", StatusName(e.status), StatusName(a.status))
    + ValueDifference(path + ".amount", FormatInt(e.amount.amount), FormatInt(a.amount.amount))
    + ValueDifference(path + ".currency", e.amount.currency, a.amount.currency)
    + ValueDifference(path + ".authorized_amount", FormatInt(e.authorized), FormatInt(a.authorized))
    + ValueDifference(path + ".captured_amount", FormatInt(e.captured), FormatInt(a.captured))
    + ValueDifference(path + ".refunded_amount", FormatInt(e.refunded), FormatInt(a.refunded))
    + ValueDifference(path + ".version", FormatInt(e.version), FormatInt(a.version))
  }

  function PaymentPath(format: Format, id: string): string {
    "payments[" + format.quote(id) + "]"
  }

  function PaymentDifferences(format: Format, left: map<string, PaymentState>, right: map<string, PaymentState>,
                              id: string): seq<Difference> {
    if id in left && id in right then StateDifferences(PaymentPath(format, id), left[id], right[id])
    else if id in left then [Difference(PaymentPath(format, id), PRESENT, MISSING)]
    else if id in right then [Difference(PaymentPath(format, id), UNEXPECTED, PRESENT)]
    else []
  }

  /** Payloads of operations are not compared. */
  predicate SameDefinition(o: Sagas.AsyncOperation, p: Sagas.AsyncOperation) {
    o.paymentId == p.paymentId && o.kind == p.kind && o.scheduledAt == p.scheduledAt
  }

  function Definition(format: Format, o: Sagas.AsyncOperation): string {
    o.paymentId + "/" + o.kind + "/" + format.time(o.scheduledAt)
  }

  function OperationDifferences(format: Format, left: map<string, Sagas.AsyncOperation>,
                                right: map<string, Sagas.AsyncOperation>, id: string):
    seq<Difference>
  {
    var path := "async_operations[" + id + "]";
    if id in left && id in right then
      if SameDefinition(left[id], right[id]) then []
      else [Difference(path + ".definition", Definition(format, left[id]), Definition(format, right[id]))]
    else if id in left then [Difference(path, PRESENT, MISSING)]
    else if id in right then [Difference(path, UNEXPECTED, PRESENT)]
    else []
  }

  function TimeDifference(format: Format, e: int, a: int): seq<Difference> {
    if e == a then [] else [Difference("current_virtual_time", format.time(e), format.time(a))]
  }

  // ----- All differences, whatever the order of the ids -----

  function Concat(ids: seq<string>, f: string -> seq<Difference>): seq<Difference> {
    if ids == [] then [] else f(ids[0]) + Concat(ids[1..], f)
  }

  lemma {:induction false} ConcatSplit(s: seq<string>, t: seq<string>, f: string -> seq<Difference>)
    ensures Concat(s + t, f) == Concat(s, f) + Concat(t, f)
  {
    if s == [] {
      assert s + t == t;
    } else {
      ConcatSplit(s[1..], t, f);
      assert (s + t)[1..] == s[1..] + t;
    }
  }

  lemma ConcatSnoc(s: seq<string>, id: string, f: string -> seq<Difference>)
    ensures Concat(s + [id], f) == Concat(s, f) + f(id)
  {
    ConcatSplit(s, [id], f);
    assert Concat([id], f) == f(id) + Concat([], f);
  }

  lemma HeadElsewhere(s: seq<string>, t: seq<string>, i: nat)
    requires s != [] && i < |t| && t[i] == s[0] && multiset(s) == multiset(t)
    ensures multiset(s[1..]) == multiset(t[..i] + t[i + 1..])
  {
    assert s == [s[0]] + s[1..];
    assert multiset(s[1..]) == multiset(s) - multiset{s[0]};
    assert t == t[..i] + [t[i]] + t[i + 1..];
    assert multiset(t[..i] + t[i + 1..]) == multiset(t) - multiset{t[i]};
  }

  lemma ConcatMiddle(t: seq<string>, i: nat, f: string -> seq<Difference>)
    requires i < |t|
    ensures Concat(t, f) == Concat(t[..i], f) + f(t[i]) + Concat(t[i + 1..], f)
  {
    assert t == t[..i] + t[i..];
    ConcatSplit(t[..i], t[i..], f);
    assert t[i..][1..] == t[i + 1..] && t[i..][0] == t[i];
    assert Concat(t[i..], f) == f(t[i]) + Concat(t[i + 1..], f);
    var a, b, c := Concat(t[..i], f), f(t[i]), Concat(t[i + 1..], f);
    assert Concat(t, f) == a + (b + c) == a + b + c;
  }

  /** The differences of a collection of ids do not depend on its order. */
  lemma {:induction false} ConcatPermutation(s: seq<string>, t: seq<string>, f: string -> seq<Difference>)
    requires multiset(s) == multiset(t)
    ensures multiset(Concat(s, f)) == multiset(Concat(t, f))
  {
    if s == [] {
      assert |multiset(t)| == |t|;
    } else {
      assert s[0] in multiset(t);
      var i :| 0 <= i < |t| && t[i] == s[0];
      HeadElsewhere(s, t, i);
      ConcatPermutation(s[1..], t[..i] + t[i + 1..], f);
      ConcatSplit(t[..i], t[i + 1..], f);
      ConcatMiddle(t, i, f);
    }
  }

  /** The ids of a map in order. */
  ghost function Ids(ids: set<string>): (s: seq<string>)
    ensures multiset(s) == multiset(ids)
  {
    LexIsTotalOrder();
    Listing(ids, LexLeq)
  }

  ghost function Collected(ids: set<string>, f: string -> seq<Difference>): seq<Difference> {
    Concat(Ids(ids), f)
  }

  lemma {:induction false} ConcatEmptyIff(ids: seq<string>, f: string -> seq<Difference>)
    ensures Concat(ids, f) == [] <==> forall i :: 0 <= i < |ids| ==> f(ids[i]) == []
  {
    if ids != [] {
      ConcatEmptyIff(ids[1..], f);
      assert forall i :: 1 <= i < |ids| ==> ids[i] == ids[1..][i - 1];
    }
  }

  /** If each id contributes nothing exactly when it is good, nothing is contributed exactly when all are. */
  lemma CollectedEmptyIff(ids: set<string>, f: string -> seq<Difference>, good: string -> bool)
    requires forall id :: id in ids ==> (f(id) == [] <==> good(id))
    ensures Collected(ids, f) == [] <==> forall id :: id in ids ==> good(id)
  {
    var s := Ids(ids);
    EachOnce(s, ids);
    ConcatEmptyIff(s, f);
    if forall i :: 0 <= i < |s| ==> f(s[i]) == [] {
      forall id | id in ids
        ensures good(id)
      {
        assert id in s;
      }
    } else {
      var i :| 0 <= i < |s| && f(s[i]) != [];
      assert s[i] in ids;
    }
  }

  ghost function AllDifferences(format: Format, e: ExecutionResult, a: ExecutionResult): seq<Difference> {
    var (o, p) := (IndexOperations(e.asyncOperations), IndexOperations(a.asyncOperations));
    var (l, r) := (IndexPayments(e.payments), IndexPayments(a.payments));
    Collected(o.Keys + p.Keys, id => OperationDifferences(format, o, p, id))
    + TimeDifference(format, e.currentVirtualTime, a.currentVirtualTime)
    + Collected(l.Keys + r.Keys, id => PaymentDifferences(format, l, r, id))
  }

  // ----- The comparison -----

  /** One pass over the ids of a map, in any order, appending what each id contributes. */
  method AppendAll(differences: seq<Difference>, ids: set<string>, f: string -> seq<Difference>)
    returns (r: seq<Difference>, ghost order: seq<string>)
    ensures multiset(order) == multiset(ids) && r == differences + Concat(order, f)
  {
    r, order := differences, [];
    var left := ids;
    while left != {}
      invariant left <= ids && multiset(order) == multiset(ids - left)
      invariant r == differences + Concat(order, f)
    {
      var id :| id in left;
      ConcatSnoc(order, id, f);
      assert ids - (left - {id}) == (ids - left) + {id};
      assert (differences + Concat(order, f)) + f(id) == differences + (Concat(order, f) + f(id));
      left, r, order := left - {id}, r + f(id), order + [id];
    }
    assert ids - left == ids;
  }

  method IndexedPayments(payments: seq<PaymentState>) returns (indexed: map<string, PaymentState>)
    ensures indexed == IndexPayments(payments)
  {
    indexed := map[];
    for i := 0 to |payments|
      invariant indexed == IndexPayments(payments[..i])
    {
      assert payments[..i + 1][..i] == payments[..i];
      indexed := indexed[payments[i].id := payments[i]];
    }
    assert payments[..|payments|] == payments;
  }

  method IndexedOperations(operations: seq<Sagas.AsyncOperation>) returns (indexed: map<string, Sagas.AsyncOperation>)
    ensures indexed == IndexOperations(operations)
  {
    indexed := map[];
    for i := 0 to |operations|
      invariant indexed == IndexOperations(operations[..i])
    {
      assert operations[..i + 1][..i] == operations[..i];
      indexed := indexed[operations[i].id := operations[i]];
    }
    assert operations[..|operations|] == operations;
  }

  /** First the ids on the left, then those only on the right. */
  method AppendByIds(differences: seq<Difference>, left: set<string>, right: set<string>,
                     f: string -> seq<Difference>) returns (r: seq<Difference>)
    ensures multiset(r) == multiset(differences) + multiset(Collected(left + right, f))
  {
    ghost var first, second;
    r, first := AppendAll(differences, left, f);
    r, second := AppendAll(r, right - left, f);
    ConcatSplit(first, second, f);
    assert left + right == left + (right - left);
    assert multiset(first + second) == multiset(left + right);
    ConcatPermutation(first + second, Ids(left + right), f);
  }

  /** The differences in whatever order the maps are enumerated. */
  method Collect(format: Format, e: ExecutionResult, a: ExecutionResult) returns (differences: seq<Difference>)
    ensures multiset(differences) == multiset(AllDifferences(format, e, a))
  {
    var o := IndexedOperations(e.asyncOperations);
    var p := IndexedOperations(a.asyncOperations);
    differences := AppendByIds([], o.Keys, p.Keys, id => OperationDifferences(format, o, p, id));
    if e.currentVirtualTime != a.currentVirtualTime {
      differences := differences +
        [Difference("current_virtual_time", format.time(e.currentVirtualTime), format.time(a.currentVirtualTime))];
    }
    var l := IndexedPayments(e.payments);
    var r := IndexedPayments(a.payments);
    differences := AppendByIds(differences, l.Keys, r.Keys, id => PaymentDifferences(format, l, r, id));
  }

  method Compare(format: Format, e: ExecutionResult, a: ExecutionResult)
    returns (equivalent: bool, differences: seq<Difference>)
    ensures Sorted(differences, DifferenceLeq) && multiset(differences) == multiset(AllDifferences(format, e, a))
    ensures equivalent <==> Agree(e, a)
  {
    var collected := Collect(format, e, a);
    DifferenceOrder();
    differences := Sort(collected, DifferenceLeq);
    equivalent := |differences| == 0;
    SameLength(differences, AllDifferences(format, e, a));
    NoDifferenceIffAgree(format, e, a);
  }

  lemma SameLength<T>(s: seq<T>, t: seq<T>)
    requires multiset(s) == multiset(t)
    ensures |s| == |t|
  {
    assert |multiset(s)| == |s| && |multiset(t)| == |t|;
  }

  // ----- What equivalence means -----

  /** Same time, same payments by id, same operations by id up to their payloads. */
  predicate Agree(e: ExecutionResult, a: ExecutionResult) {
    && e.currentVirtualTime == a.currentVirtualTime
    && IndexPayments(e.payments) == IndexPayments(a.payments)
    && SameOperations(IndexOperations(e.asyncOperations), IndexOperations(a.asyncOperations))
  }

  predicate SameOperations(o: map<string, Sagas.AsyncOperation>, p: map<string, Sagas.AsyncOperation>) {
    o.Keys == p.Keys && forall id :: id in o ==> SameDefinition(o[id], p[id])
  }

  lemma NoStateDifferenceIff(path: string, e: PaymentState, a: PaymentState)
    requires e.id == a.id
    ensures StateDifferences(path, e, a) == [] <==> e == a
  {
    if StateDifferences(path, e, a) == [] {
      assert StatusName(e.status) == StatusName(a.status);
      StatusNameInjective(e.status, a.status);
      FormatIntInjective(e.amount.amount, a.amount.amount);
      FormatIntInjective(e.authorized, a.authorized);
      FormatIntInjective(e.captured, a.captured);
      FormatIntInjective(e.refunded, a.refunded);
      FormatIntInjective(e.version, a.version);
    }
  }

  predicate SamePayment(l: map<string, PaymentState>, r: map<string, PaymentState>, id: string) {
    (id in l <==> id in r) && (id in l && id in r ==> l[id] == r[id])
  }

  lemma PaymentDifferenceIff(format: Format, l: map<string, PaymentState>, r: map<string, PaymentState>, id: string)
    requires id in l && id in r ==> l[id].id == r[id].id
    ensures PaymentDifferences(format, l, r, id) == [] <==> SamePayment(l, r, id)
  {
    if id in l && id in r {
      NoStateDifferenceIff(PaymentPath(format, id), l[id], r[id]);
    }
  }

  lemma NoPaymentDifferenceIff(format: Format, l: map<string, PaymentState>, r: map<string, PaymentState>)
    requires forall id :: (id in l ==> l[id].id == id) && (id in r ==> r[id].id == id)
    ensures Collected(l.Keys + r.Keys, id => PaymentDifferences(format, l, r, id)) == [] <==> l == r
  {
    forall id | id in l.Keys + r.Keys
      ensures PaymentDifferences(format, l, r, id) == [] <==> SamePayment(l, r, id)
    {
      PaymentDifferenceIff(format, l, r, id);
    }
    CollectedEmptyIff(l.Keys + r.Keys, id => PaymentDifferences(format, l, r, id), id => SamePayment(l, r, id));
    SamePayments(l, r);
  }

  lemma SamePayments(l: map<string, PaymentState>, r: map<string, PaymentState>)
    ensures (forall id :: id in l.Keys + r.Keys ==> SamePayment(l, r, id)) <==> l == r
  {
    if forall id :: id in l.Keys + r.Keys ==> SamePayment(l, r, id) {
      forall id
        ensures id in l <==> id in r
        ensures id in l && id in r ==> l[id] == r[id]
      {
        assert id in l.Keys + r.Keys ==> SamePayment(l, r, id);
      }
    }
  }

  predicate SameOperation(o: map<string, Sagas.AsyncOperation>, p: map<string, Sagas.AsyncOperation>, id: string) {
    (id in o <==> id in p) && (id in o && id in p ==> SameDefinition(o[id], p[id]))
  }

  lemma OperationDifferenceIff(format: Format, o: map<string, Sagas.AsyncOperation>,
                               p: map<string, Sagas.AsyncOperation>, id: string)
    ensures OperationDifferences(format, o, p, id) == [] <==> SameOperation(o, p, id)
  {
  }

  lemma NoOperationDifferenceIff(format: Format, o: map<string, Sagas.AsyncOperation>,
                                 p: map<string, Sagas.AsyncOperation>)
    ensures Collected(o.Keys + p.Keys, id => OperationDifferences(format, o, p, id)) == [] <==> SameOperations(o, p)
  {
    forall id | id in o.Keys + p.Keys
      ensures OperationDifferences(format, o, p, id) == [] <==> SameOperation(o, p, id)
    {
      OperationDifferenceIff(format, o, p, id);
    }
    CollectedEmptyIff(o.Keys + p.Keys, id => OperationDifferences(format, o, p, id), id => SameOperation(o, p, id));
    AllSameOperations(o, p);
  }

  lemma AllSameOperations(o: map<string, Sagas.AsyncOperation>, p: map<string, Sagas.AsyncOperation>)
    ensures (forall id :: id in o.Keys + p.Keys ==> SameOperation(o, p, id)) <==> SameOperations(o, p)
  {
    if forall id :: id in o.Keys + p.Keys ==> SameOperation(o, p, id) {
      forall id
        ensures id in o <==> id in p
      {
        assert id in o.Keys + p.Keys ==> SameOperation(o, p, id);
      }
      assert o.Keys == p.Keys;
    }
  }

  /** There is no difference exactly when the results agree. */
  lemma NoDifferenceIffAgree(format: Format, e: ExecutionResult, a: ExecutionResult)
    ensures AllDifferences(format, e, a) == [] <==> Agree(e, a)
  {
    var o, p := IndexOperations(e.asyncOperations), IndexOperations(a.asyncOperations);
    var l, r := IndexPayments(e.payments), IndexPayments(a.payments);
    IndexedUnderOwnId(e.payments);
    IndexedUnderOwnId(a.payments);
    NoPaymentDifferenceIff(format, l, r);
    NoOperationDifferenceIff(format, o, p);
  }

  /** Equivalence is an equivalence relation. */
  lemma EquivalenceRelation(x: ExecutionResult, y: ExecutionResult, z: ExecutionResult)
    ensures Agree(x, x)
    ensures Agree(x, y) ==> Agree(y, x)
    ensures Agree(x, y) && Agree(y, z) ==> Agree(x, z)
  {
    if Agree(x, y) && Agree(y, z) {
      var o, p, q := IndexOperations(x.asyncOperations), IndexOperations(y.asyncOperations),
          IndexOperations(z.asyncOperations);
      forall id | id in o
        ensures SameDefinition(o[id], q[id])
      {
        assert SameDefinition(o[id], p[id]) && SameDefinition(p[id], q[id]);
      }
    }
  }

  /** The list of differences is determined by the indexed results: any two sorted lists of them are equal. */
  lemma DifferencesAreUnique(format: Format, e: ExecutionResult, a: ExecutionResult, first: seq<Difference>,
                             second: seq<Difference>)
    requires Sorted(first, DifferenceLeq) && multiset(first) == multiset(AllDifferences(format, e, a))
    requires Sorted(second, DifferenceLeq) && multiset(second) == multiset(AllDifferences(format, e, a))
    ensures first == second
  {
    DifferenceOrder();
    SortedIsUnique(first, second, DifferenceLeq);
  }

  // ----- The order of the slices does not matter -----

  lemma {:induction false} IndexHolds(payments: seq<PaymentState>, id: string)
    requires forall i, j :: 0 <= i < j < |payments| ==> payments[i].id != payments[j].id
    ensures id in IndexPayments(payments) <==> exists i :: 0 <= i < |payments| && payments[i].id == id
    ensures forall i :: 0 <= i < |payments| && payments[i].id == id ==> IndexPayments(payments)[id] == payments[i]
  {
    if payments != [] {
      var init := payments[..|payments| - 1];
      IndexHolds(init, id);
      if id in IndexPayments(init) {
        var i :| 0 <= i < |init| && init[i].id == id;
        assert payments[i].id == id;
      }
      assert forall i :: 0 <= i < |init| ==> init[i] == payments[i];
      assert payments[|payments| - 1].id == payments[|payments| - 1].id;
    }
  }

  /** Payments of distinct ids are indexed alike in any order, so reordering them changes no comparison. */
  lemma ReorderedPaymentsCompareAlike(format: Format, e: ExecutionResult, a: ExecutionResult,
                                      payments: seq<PaymentState>)
    requires forall i, j :: 0 <= i < j < |e.payments| ==> e.payments[i].id != e.payments[j].id
    requires forall i, j :: 0 <= i < j < |payments| ==> payments[i].id != payments[j].id
    requires multiset(payments) == multiset(e.payments)
    ensures AllDifferences(format, e.(payments := payments), a) == AllDifferences(format, e, a)
    ensures AllDifferences(format, a, e.(payments := payments)) == AllDifferences(format, a, e)
  {
    var l, r := IndexPayments(e.payments), IndexPayments(payments);
    forall id
      ensures id in l <==> id in r
      ensures id in l && id in r ==> l[id] == r[id]
    {
      IndexHolds(e.payments, id);
      IndexHolds(payments, id);
      forall i | 0 <= i < |payments| && payments[i].id == id
        ensures id in l && l[id] == payments[i]
      {
        assert payments[i] in multiset(e.payments);
      }
      forall i | 0 <= i < |e.payments| && e.payments[i].id == id
        ensures id in r && r[id] == e.payments[i]
      {
        assert e.payments[i] in multiset(payments);
      }
    }
    assert l == r;
  }

  lemma {:induction false} OperationIndexHolds(operations: seq<Sagas.AsyncOperation>, id: string)
    requires forall i, j :: 0 <= i < j < |operations| ==> operations[i].id != operations[j].id
    ensures id in IndexOperations(operations) <==> exists i :: 0 <= i < |operations| && operations[i].id == id
    ensures forall i :: 0 <= i < |operations| && operations[i].id == id ==>
              IndexOperations(operations)[id] == operations[i]
  {
    if operations != [] {
      var init := operations[..|operations| - 1];
      OperationIndexHolds(init, id);
      if id in IndexOperations(init) {
        var i :| 0 <= i < |init| && init[i].id == id;
        assert operations[i].id == id;
      }
      assert forall i :: 0 <= i < |init| ==> init[i] == operations[i];
      assert operations[|operations| - 1].id == operations[|operations| - 1].id;
    }
  }

  /**
   Asynchronous operations of distinct ids are indexed alike in any order, so reordering
   them changes no comparison.
   */
  lemma ReorderedOperationsCompareAlike(format: Format, e: ExecutionResult, a: ExecutionResult,
                                        operations: seq<Sagas.AsyncOperation>)
    requires forall i, j :: 0 <= i < j < |e.asyncOperations| ==> e.asyncOperations[i].id != e.asyncOperations[j].id
    requires forall i, j :: 0 <= i < j < |operations| ==> operations[i].id != operations[j].id
    requires multiset(operations) == multiset(e.asyncOperations)
    ensures AllDifferences(format, e.(asyncOperations := operations), a) == AllDifferences(format, e, a)
    ensures AllDifferences(format, a, e.(asyncOperations := operations)) == AllDifferences(format, a, e)
  {
    var l, r := IndexOperations(e.asyncOperations), IndexOperations(operations);
    forall id
      ensures id in l <==> id in r
      ensures id in l && id in r ==> l[id] == r[id]
    {
      OperationIndexHolds(e.asyncOperations, id);
      OperationIndexHolds(operations, id);
      forall i | 0 <= i < |operations| && operations[i].id == id
        ensures id in l && l[id] == operations[i]
      {
        assert operations[i] in multiset(e.asyncOperations);
      }
      forall i | 0 <= i < |e.asyncOperations| && e.asyncOperations[i].id == id
        ensures id in r && r[id] == e.asyncOperations[i]
      {
        assert e.asyncOperations[i] in multiset(operations);
      }
    }
    assert l == r;
  }
}
