/** Laws of the confirmed sum: it does not depend on the order in which rows are added up. */
module SettlementSums {
  import opened Settlement

  lemma {:induction false} SumSplit(payments: map<TxId, Payment>, id: InvoiceId, t: TxId)
    requires t in payments
    ensures ConfirmedSum(payments, id) == Credit(payments[t], id) + ConfirmedSum(payments - {t}, id)
    decreases |payments|
  {
    var u := AnyTx(payments);
    if u != t {
      SumSplit(payments - {u}, id, t);
      SumSplit(payments - {t}, id, u);
      assert payments - {u} - {t} == payments - {t} - {u};
    }
  }

  lemma SumInsert(payments: map<TxId, Payment>, id: InvoiceId, t: TxId, p: Payment)
    requires t !in payments
    ensures ConfirmedSum(payments[t := p], id) == ConfirmedSum(payments, id) + Credit(p, id)
  {
    SumSplit(payments[t := p], id, t);
    assert payments[t := p] - {t} == payments;
  }

  lemma SumReplace(payments: map<TxId, Payment>, id: InvoiceId, t: TxId, p: Payment)
    requires t in payments
    ensures ConfirmedSum(payments[t := p], id) + Credit(payments[t], id)
         == ConfirmedSum(payments, id) + Credit(p, id)
  {
    SumSplit(payments, id, t);
    SumSplit(payments[t := p], id, t);
    assert payments[t := p] - {t} == payments - {t};
  }

  /** Two tables that give an invoice the same credit row by row give it the same sum. */
  lemma {:induction false} SumCongruence(a: map<TxId, Payment>, b: map<TxId, Payment>, id: InvoiceId)
    requires a.Keys == b.Keys
    requires forall t :: t in a ==> Credit(a[t], id) == Credit(b[t], id)
    ensures ConfirmedSum(a, id) == ConfirmedSum(b, id)
    decreases |a|
  {
    if a == map[] {
      assert b == map[];
    } else {
      var t :| t in a;
      SumSplit(a, id, t);
      SumSplit(b, id, t);
      SumCongruence(a - {t}, b - {t}, id);
    }
  }

  lemma {:induction false} NoActivePaymentNoSum(payments: map<TxId, Payment>, id: InvoiceId)
    requires !HasActivePayment(payments, id)
    ensures ConfirmedSum(payments, id) == 0
    decreases |payments|
  {
    if payments != map[] {
      var t := AnyTx(payments);
      assert Credit(payments[t], id) == 0;
      NoActivePaymentNoSum(payments - {t}, id);
    }
  }
}
