// The admin's transaction ledger (features/admin/AdminTransactionsPage.tsx):
// two rows derived from every order, and the CSV export of those rows.
module AdminLedger {
  import opened Types
  import opened Text

  datatype TxKind = Payment | Commission

  function KindName(k: TxKind): string
  {
    match k
    case Payment => "Payment"
    case Commission => "Commission"
  }

  /** One ledger row. */
  datatype LedgerTx = LedgerTx(id: string, kind: TxKind, amount: real, status: string,
                               date: string, entity: string, via: string, description: string)

  /** The payment row's method: card and wallet by name, anything else (none included) as cash. */
  function MethodLabel(m: Option<PaymentMethod>): string
  {
    match m
    case Some(Card) => "Credit Card"
    case Some(Wallet) => "Wallet"
    case _ => "Cash"
  }

  function PaymentTx(o: Order): LedgerTx
  {
    LedgerTx("TX-" + IdSuffix(o.id), Payment, o.total, "Completed", o.date, o.customerName,
             MethodLabel(o.paymentMethod), "Order Payment #" + o.id)
  }

  /** The platform's 15% commission on the order. */
  function CommissionTx(o: Order): LedgerTx
  {
    LedgerTx("CM-" + IdSuffix(o.id), Commission, o.total * 0.15, "Completed", o.date, "Platform Revenue",
             "Internal", "Commission from Order #" + o.id)
  }

  /** `orders.flatMap(...)`: a payment row then a commission row per order, in store order. */
  function Ledger(orders: seq<Order>): seq<LedgerTx>
  {
    if orders == [] then [] else [PaymentTx(orders[0]), CommissionTx(orders[0])] + Ledger(orders[1..])
  }

  /** Twice as many rows as orders; rows 2i and 2i+1 are order i's payment and its commission. */
  lemma {:induction false} LedgerRows(orders: seq<Order>)
    ensures |Ledger(orders)| == 2 * |orders|
    ensures forall i :: 0 <= i < |orders| ==>
      Ledger(orders)[2 * i] == PaymentTx(orders[i]) && Ledger(orders)[2 * i + 1] == CommissionTx(orders[i])
  {
    if orders != [] {
      LedgerRows(orders[1..]);
      var rest := Ledger(orders[1..]);
      var l := [PaymentTx(orders[0]), CommissionTx(orders[0])] + rest;
      assert Ledger(orders) == l;
      forall i | 1 <= i < |orders|
        ensures l[2 * i] == PaymentTx(orders[i]) && l[2 * i + 1] == CommissionTx(orders[i])
      {
        assert l[2 * i] == rest[2 * (i - 1)] && l[2 * i + 1] == rest[2 * (i - 1) + 1];
        assert orders[1..][i - 1] == orders[i];
      }
    }
  }

  /**
   * Every row is 'Completed' whatever the order's status, cancelled orders
   * included, and no row is a refund; the payment is for the order's total
   * and the commission for 15% of it.
   */
  lemma LedgerShape(orders: seq<Order>)
    ensures |Ledger(orders)| == 2 * |orders|
    ensures forall j :: 0 <= j < |Ledger(orders)| ==> Ledger(orders)[j].status == "Completed"
    ensures forall i :: 0 <= i < |orders| ==>
      Ledger(orders)[2 * i].amount == orders[i].total && Ledger(orders)[2 * i + 1].amount == orders[i].total * 0.15
  {
    LedgerRows(orders);
    LedgerCompleted(orders);
  }

  lemma {:induction false} LedgerCompleted(orders: seq<Order>)
    ensures forall j :: 0 <= j < |Ledger(orders)| ==> Ledger(orders)[j].status == "Completed"
  {
    if orders != [] {
      LedgerCompleted(orders[1..]);
      var rest := Ledger(orders[1..]);
      var l := [PaymentTx(orders[0]), CommissionTx(orders[0])] + rest;
      assert Ledger(orders) == l;
      assert forall j :: 2 <= j < |l| ==> l[j] == rest[j - 2];
    }
  }

  /** The ledger of a list of orders is the ledgers of its parts, one after the other. */
  lemma {:induction false} LedgerAppend(a: seq<Order>, b: seq<Order>)
    ensures Ledger(a + b) == Ledger(a) + Ledger(b)
  {
    if a != [] {
      assert (a + b)[0] == a[0] && (a + b)[1..] == a[1..] + b;
      LedgerAppend(a[1..], b);
      var head := [PaymentTx(a[0]), CommissionTx(a[0])];
      assert Ledger(a) == head + Ledger(a[1..]);
      assert Ledger(a + b) == head + Ledger(a[1..] + b);
      assert head + (Ledger(a[1..]) + Ledger(b)) == (head + Ledger(a[1..])) + Ledger(b);
    } else {
      assert a + b == b;
    }
  }

  const CsvHeader: seq<string> := ["Transaction ID", "Type", "Entity", "Date", "Amount", "Status", "Method"]

  /** The seven cells of a row: entity and date wrapped in quotes, the amount to two decimals. */
  function CsvFields(tx: LedgerTx): seq<string>
  {
    [tx.id, KindName(tx.kind), "\"" + tx.entity + "\"", "\"" + tx.date + "\"", Fixed(tx.amount, 2), tx.status, tx.via]
  }

  /** handleExport's lines: the header, then one line per row. */
  function CsvLines(txs: seq<LedgerTx>): (r: seq<string>)
    ensures |r| == |txs| + 1 && r[0] == Join(CsvHeader, ",")
    ensures forall i :: 0 <= i < |txs| ==> r[i + 1] == Join(CsvFields(txs[i]), ",")
  {
    [Join(CsvHeader, ",")] + seq(|txs|, i requires 0 <= i < |txs| => Join(CsvFields(txs[i]), ","))
  }

  function CsvText(txs: seq<LedgerTx>): string
  {
    Join(CsvLines(txs), "\n")
  }

  /** A row's text fields hold no comma, the one separator the split looks for. */
  predicate Plain(tx: LedgerTx)
  {
    Free(tx.id, ',') && Free(tx.entity, ',') && Free(tx.date, ',')
    && Free(tx.status, ',') && Free(tx.via, ',')
  }

  /**
   * Split at the commas, a row's line gives back its seven cells, the
   * amount as toFixed(2) text, when its text fields hold no comma; the
   * quotes are not there to protect anything in this reading.
   */
  lemma CsvRowFields(tx: LedgerTx)
    requires Plain(tx)
    ensures Split(Join(CsvFields(tx), ","), ',') == CsvFields(tx)
    ensures |Split(Join(CsvFields(tx), ","), ',')| == |CsvHeader|
  {
    var f := CsvFields(tx);
    assert Free(Fixed(tx.amount, 2), ',');
    assert Free(KindName(tx.kind), ',');
    assert Free("\"" + tx.entity + "\"", ',') by {
      var s := "\"" + tx.entity + "\"";
      forall i | 0 <= i < |s| ensures s[i] != ',' {
        if 0 < i < |s| - 1 { assert s[i] == tx.entity[i - 1]; }
      }
    }
    assert Free("\"" + tx.date + "\"", ',') by {
      var s := "\"" + tx.date + "\"";
      forall i | 0 <= i < |s| ensures s[i] != ',' {
        if 0 < i < |s| - 1 { assert s[i] == tx.date[i - 1]; }
      }
    }
    assert "," == [','];
    SplitJoin(f, ',');
  }

  /** The header line splits into its seven names. */
  lemma CsvHeaderFields()
    ensures Split(Join(CsvHeader, ","), ',') == CsvHeader
  {
    forall k | 0 <= k < |CsvHeader| ensures Free(CsvHeader[k], ',') {
      if k == 0 { assert Free("Transaction ID", ','); }
    }
    assert "," == [','];
    SplitJoin(CsvHeader, ',');
  }
}
