// The partner's finance page (features/partner/PartnerFinancePage.tsx):
// revenue, the 15% platform fee, the earnings rows with the weekly payout
// put in front of them, and the rows of the exported report.
module PartnerFinance {
  import opened Types
  import opened Text
  import opened Lists

  function Total(o: Order): real
  {
    o.total
  }

  function DeliveredOrders(orders: seq<Order>): seq<Order>
  {
    Filter(orders, IsDelivered)
  }

  /** Gross revenue: the delivered orders' totals. */
  function Revenue(orders: seq<Order>): real
  {
    Sum(DeliveredOrders(orders), Total)
  }

  function PlatformFee(orders: seq<Order>): real
  {
    Revenue(orders) * 0.15
  }

  function NetEarnings(orders: seq<Order>): real
  {
    Revenue(orders) - PlatformFee(orders)
  }

  /** The 'Available Balance' card: net earnings less the 250 payout. */
  function AvailableBalance(orders: seq<Order>): real
  {
    NetEarnings(orders) - 250.0
  }

  /**
   * The net is 85% of revenue; the shown balance is 250 below it, so with
   * nothing delivered it is -250.
   */
  lemma BalanceShape(orders: seq<Order>)
    ensures NetEarnings(orders) == 0.85 * Revenue(orders)
    ensures AvailableBalance(orders) == 0.85 * Revenue(orders) - 250.0
    ensures DeliveredOrders(orders) == [] ==> AvailableBalance(orders) == -250.0
  {
  }

  datatype RowKind = Earning | Payout

  datatype FinanceRow = FinanceRow(id: string, date: string, desc: string, amount: real, kind: RowKind)

  function EarningRow(o: Order): FinanceRow
  {
    FinanceRow("tx-" + o.id, o.date, "Earnings: Order #" + IdSuffix(o.id), o.total * 0.85, Earning)
  }

  const PayoutRow := FinanceRow("tx-payout-1", "Yesterday", "Weekly Payout", -250.0, Payout)

  /** The earning rows: the first ten delivered orders, each at 85% of its total. */
  function EarningRows(orders: seq<Order>): (r: seq<FinanceRow>)
    ensures |r| == if |DeliveredOrders(orders)| < 10 then |DeliveredOrders(orders)| else 10
    ensures forall i :: 0 <= i < |r| ==> r[i] == EarningRow(DeliveredOrders(orders)[i])
  {
    var firsts := Take(DeliveredOrders(orders), 10);
    seq(|firsts|, i requires 0 <= i < |firsts| => EarningRow(firsts[i]))
  }

  /** The list after the conditional `unshift` of the payout row. */
  function Rows(orders: seq<Order>): seq<FinanceRow>
  {
    var earnings := EarningRows(orders);
    if |earnings| > 0 then [PayoutRow] + earnings else earnings
  }

  /**
   * The payout row leads the list exactly when there is at least one
   * earning row, and is the only payout; every other row is an earning at
   * 85% of a delivered order's total; there are at most eleven rows.
   */
  lemma RowsShape(orders: seq<Order>)
    ensures |Rows(orders)| <= 11
    ensures |Rows(orders)| > 0 <==> |DeliveredOrders(orders)| > 0
    ensures |Rows(orders)| > 0 ==> Rows(orders)[0] == PayoutRow
    ensures forall i :: 1 <= i < |Rows(orders)| ==>
      Rows(orders)[i].kind == Earning && Rows(orders)[i].amount == DeliveredOrders(orders)[i - 1].total * 0.85
  {
    var d := DeliveredOrders(orders);
    var e := EarningRows(orders);
    if |d| > 0 {
      assert |Take(d, 10)| > 0;
      var r := [PayoutRow] + e;
      assert Rows(orders) == r;
      forall i | 1 <= i < |r|
        ensures r[i].kind == Earning && r[i].amount == d[i - 1].total * 0.85
      {
        assert r[i] == e[i - 1] == EarningRow(d[i - 1]);
      }
    }
  }

  /** A body row of the export: id, quoted date, quoted description, amount, type. */
  datatype ExportRow = ExportRow(id: string, date: string, desc: string, amount: real, kind: RowKind)

  const ExportHeader: seq<string> := ["ID", "Date", "Description", "Amount", "Type"]

  function ExportOf(r: FinanceRow): ExportRow
  {
    ExportRow(r.id, "\"" + r.date + "\"", "\"" + r.desc + "\"",
              if r.kind == Payout then -(if r.amount < 0.0 then -r.amount else r.amount) else r.amount,
              r.kind)
  }

  /** handleExport's table: the header, then one row per list entry. */
  function Export(rows: seq<FinanceRow>): (r: (seq<string>, seq<ExportRow>))
    ensures r.0 == ExportHeader && |r.1| == |rows|
    ensures forall i :: 0 <= i < |rows| ==> r.1[i].id == rows[i].id && r.1[i].kind == rows[i].kind
  {
    (ExportHeader, seq(|rows|, i requires 0 <= i < |rows| => ExportOf(rows[i])))
  }

  /** Payout amounts are exported as non-positive, whatever their sign in the list; earnings as they are. */
  lemma ExportAmounts(rows: seq<FinanceRow>, i: nat)
    requires i < |rows|
    ensures rows[i].kind == Payout ==> Export(rows).1[i].amount <= 0.0
    ensures rows[i].kind == Earning ==> Export(rows).1[i].amount == rows[i].amount
  {
  }
}
