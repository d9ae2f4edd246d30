/**
 * validate_referential_integrity over already parsed files: the id sets of
 * seven tables, then the foreign keys of five tables checked against them.
 * A file that cannot be opened or a row without a column it reads raises,
 * and the check then fails.
 */
module Integrity {
  import opened Opt
  import opened CsvCheck

  /** The parsed files the check opens; None for a file that cannot be opened, [] for an empty one. */
  datatype Files = Files(
    users: Option<seq<Row>>,
    verticals: Option<seq<Row>>,
    sellers: Option<seq<Row>>,
    consumers: Option<seq<Row>>,
    commodities: Option<seq<Row>>,
    orders: Option<seq<Row>>,
    cards: Option<seq<Row>>,
    sellerVertical: Option<seq<Row>>,
    orderCommodities: Option<seq<Row>>,
    transactions: Option<seq<Row>>)

  /** A broken reference: the table, the 1-based row and the column. */
  datatype RefIssue = RefIssue(table: string, row: nat, field: string)

  /** Every row has the column. */
  predicate HasColumn(rows: seq<Row>, f: string) {
    forall k :: 0 <= k < |rows| ==> f in rows[k]
  }

  /** The values of a column; a short row contributes the filler None. */
  function ColumnValues(rows: seq<Row>, f: string): set<Option<string>>
    requires HasColumn(rows, f)
  {
    set k | 0 <= k < |rows| :: rows[k][f]
  }

  /** ids[table]: the id column of a file, or None when the file cannot be read or a row lacks the column. */
  function IdsOf(file: Option<seq<Row>>): Option<set<Option<string>>> {
    match file
    case None => None
    case Some(rows) => if HasColumn(rows, "id") then Some(ColumnValues(rows, "id")) else None
  }

  /** The broken references among the first m rows, two columns per row in the order the source checks them. */
  function RefIssues(table: string, rows: seq<Row>, f1: string, ids1: set<Option<string>>, f2: string, ids2: set<Option<string>>, m: nat): seq<RefIssue>
    requires m <= |rows| && HasColumn(rows, f1) && HasColumn(rows, f2)
  {
    if m == 0 then []
    else
      var r := rows[m - 1];
      RefIssues(table, rows, f1, ids1, f2, ids2, m - 1)
        + (if r[f1] !in ids1 then [RefIssue(table, m, f1)] else [])
        + (if r[f2] !in ids2 then [RefIssue(table, m, f2)] else [])
  }

  /** The check of one referencing file, or None when it cannot be read or a row lacks one of the two columns. */
  function CheckFile(table: string, file: Option<seq<Row>>, f1: string, ids1: set<Option<string>>, f2: string, ids2: set<Option<string>>): Option<seq<RefIssue>> {
    match file
    case None => None
    case Some(rows) =>
      if HasColumn(rows, f1) && HasColumn(rows, f2) then Some(RefIssues(table, rows, f1, ids1, f2, ids2, |rows|)) else None
  }

  /** All broken references, or None when the check raises. */
  function Integrity(files: Files): Option<seq<RefIssue>> {
    var users := IdsOf(files.users);
    var verticals := IdsOf(files.verticals);
    var sellers := IdsOf(files.sellers);
    var consumers := IdsOf(files.consumers);
    var commodities := IdsOf(files.commodities);
    var orders := IdsOf(files.orders);
    var cards := IdsOf(files.cards);
    if users.None? || verticals.None? || sellers.None? || consumers.None? || commodities.None? || orders.None? || cards.None? then None
    else
      var sv := CheckFile("seller_vertical", files.sellerVertical, "seller_id", sellers.value, "vertical_id", verticals.value);
      var cm := CheckFile("commodities", files.commodities, "seller_id", sellers.value, "vertical_id", verticals.value);
      var od := CheckFile("orders", files.orders, "consumer_id", consumers.value, "seller_id", sellers.value);
      var oc := CheckFile("order_commodities", files.orderCommodities, "order_id", orders.value, "commodity_id", commodities.value);
      var tx := CheckFile("transactions", files.transactions, "order_id", orders.value, "card_id", cards.value);
      if sv.None? || cm.None? || od.None? || oc.None? || tx.None? then None
      else Some(sv.value + cm.value + od.value + oc.value + tx.value)
  }

  /** The id loop of one file. */
  method LoadIds(file: Option<seq<Row>>) returns (ok: bool, ids: set<Option<string>>)
    ensures ok <==> IdsOf(file).Some?
    ensures ok ==> ids == IdsOf(file).value
  {
    if file.None? {
      return false, {};
    }
    var rows := file.value;
    ids := {};
    var k := 0;
    while k < |rows|
      invariant 0 <= k <= |rows|
      invariant HasColumn(rows[..k], "id")
      invariant ids == set j | 0 <= j < k :: rows[j]["id"]
    {
      if "id" !in rows[k] {
        return false, {};
      }
      ids := ids + {rows[k]["id"]};
      k := k + 1;
    }
    assert rows[..k] == rows;
    ok := true;
  }

  /** The reference loop of one file: each row's two columns against their id sets. */
  method CheckRefs(table: string, file: Option<seq<Row>>, f1: string, ids1: set<Option<string>>, f2: string, ids2: set<Option<string>>)
    returns (ok: bool, issues: seq<RefIssue>)
    ensures ok <==> CheckFile(table, file, f1, ids1, f2, ids2).Some?
    ensures ok ==> issues == CheckFile(table, file, f1, ids1, f2, ids2).value
  {
    if file.None? {
      return false, [];
    }
    var rows := file.value;
    issues := [];
    var k := 0;
    while k < |rows|
      invariant 0 <= k <= |rows|
      invariant HasColumn(rows[..k], f1) && HasColumn(rows[..k], f2)
      invariant issues == RefIssues(table, rows[..k], f1, ids1, f2, ids2, k)
    {
      var row := rows[k];
      if f1 !in row {
        return false, [];
      }
      if row[f1] !in ids1 {
        issues := issues + [RefIssue(table, k + 1, f1)];
      }
      if f2 !in row {
        return false, [];
      }
      if row[f2] !in ids2 {
        issues := issues + [RefIssue(table, k + 1, f2)];
      }
      assert rows[..k + 1][..k] == rows[..k];
      RefIssuesPrefix(table, rows[..k + 1], f1, ids1, f2, ids2, k, k);
      k := k + 1;
    }
    assert rows[..k] == rows;
    ok := true;
  }

  /** The issues of the first m rows depend on those rows only. */
  lemma {:induction false} RefIssuesPrefix(table: string, rows: seq<Row>, f1: string, ids1: set<Option<string>>, f2: string, ids2: set<Option<string>>, m: nat, n: nat)
    requires m <= n <= |rows| && HasColumn(rows, f1) && HasColumn(rows, f2)
    ensures HasColumn(rows[..n], f1) && HasColumn(rows[..n], f2)
    ensures RefIssues(table, rows, f1, ids1, f2, ids2, m) == RefIssues(table, rows[..n], f1, ids1, f2, ids2, m)
  {
    if m > 0 {
      RefIssuesPrefix(table, rows, f1, ids1, f2, ids2, m - 1, n);
      assert rows[..n][m - 1] == rows[m - 1];
    }
  }

  /** validate_referential_integrity: passes exactly when nothing raises and no reference is broken. */
  method ValidateReferentialIntegrity(files: Files) returns (ok: bool, issues: seq<RefIssue>)
    ensures ok <==> Integrity(files) == Some([])
    ensures Integrity(files).Some? ==> issues == Integrity(files).value
  {
    issues := [];
    var okU, users := LoadIds(files.users);
    if !okU { return false, []; }
    var okV, verticals := LoadIds(files.verticals);
    if !okV { return false, []; }
    var okS, sellers := LoadIds(files.sellers);
    if !okS { return false, []; }
    var okC, consumers := LoadIds(files.consumers);
    if !okC { return false, []; }
    var okM, commodities := LoadIds(files.commodities);
    if !okM { return false, []; }
    var okO, orders := LoadIds(files.orders);
    if !okO { return false, []; }
    var okK, cards := LoadIds(files.cards);
    if !okK { return false, []; }
    var ok1, sv := CheckRefs("seller_vertical", files.sellerVertical, "seller_id", sellers, "vertical_id", verticals);
    if !ok1 { return false, []; }
    var ok2, cm := CheckRefs("commodities", files.commodities, "seller_id", sellers, "vertical_id", verticals);
    if !ok2 { return false, []; }
    var ok3, od := CheckRefs("orders", files.orders, "consumer_id", consumers, "seller_id", sellers);
    if !ok3 { return false, []; }
    var ok4, oc := CheckRefs("order_commodities", files.orderCommodities, "order_id", orders, "commodity_id", commodities);
    if !ok4 { return false, []; }
    var ok5, tx := CheckRefs("transactions", files.transactions, "order_id", orders, "card_id", cards);
    if !ok5 { return false, []; }
    issues := sv + cm + od + oc + tx;
    ok := issues == [];
  }

  // ---------------------------------------------------------------------------
  // Properties
  // ---------------------------------------------------------------------------

  /** Every row's two columns hold ids of their target tables. */
  ghost predicate RefsHold(rows: seq<Row>, f1: string, ids1: set<Option<string>>, f2: string, ids2: set<Option<string>>) {
    && HasColumn(rows, f1) && HasColumn(rows, f2)
    && forall k :: 0 <= k < |rows| ==> rows[k][f1] in ids1 && rows[k][f2] in ids2
  }

  /** No issue among the first m rows exactly when every one of them refers to existing ids. */
  lemma {:induction false} RefIssuesEmpty(table: string, rows: seq<Row>, f1: string, ids1: set<Option<string>>, f2: string, ids2: set<Option<string>>, m: nat)
    requires m <= |rows| && HasColumn(rows, f1) && HasColumn(rows, f2)
    ensures RefIssues(table, rows, f1, ids1, f2, ids2, m) == [] <==>
      forall k :: 0 <= k < m ==> rows[k][f1] in ids1 && rows[k][f2] in ids2
  {
    if m > 0 {
      RefIssuesEmpty(table, rows, f1, ids1, f2, ids2, m - 1);
    }
  }

  /** A broken reference names its row and the column whose value is not an id of the target table. */
  lemma {:induction false} RefIssuesNameBrokenCells(table: string, rows: seq<Row>, f1: string, ids1: set<Option<string>>, f2: string, ids2: set<Option<string>>, m: nat)
    requires m <= |rows| && HasColumn(rows, f1) && HasColumn(rows, f2)
    ensures forall e :: e in RefIssues(table, rows, f1, ids1, f2, ids2, m) ==>
      && e.table == table && 1 <= e.row <= m
      && ((e.field == f1 && rows[e.row - 1][f1] !in ids1) || (e.field == f2 && rows[e.row - 1][f2] !in ids2))
  {
    if m > 0 {
      RefIssuesNameBrokenCells(table, rows, f1, ids1, f2, ids2, m - 1);
    }
  }

  /** The check of one file finds nothing exactly when it can be read and all its references hold. */
  lemma CheckFileClean(table: string, file: Option<seq<Row>>, f1: string, ids1: set<Option<string>>, f2: string, ids2: set<Option<string>>)
    ensures CheckFile(table, file, f1, ids1, f2, ids2) == Some([]) <==> file.Some? && RefsHold(file.value, f1, ids1, f2, ids2)
  {
    if file.Some? && HasColumn(file.value, f1) && HasColumn(file.value, f2) {
      RefIssuesEmpty(table, file.value, f1, ids1, f2, ids2, |file.value|);
    }
  }

  /**
   * The referential check passes exactly when all ten files can be read,
   * every id table has its id column, and the seller_vertical, commodities,
   * orders, order_commodities and transactions references all name existing
   * ids.
   */
  lemma IntegrityIff(files: Files)
    ensures Integrity(files) == Some([]) <==>
      && IdsOf(files.users).Some? && IdsOf(files.verticals).Some? && IdsOf(files.sellers).Some?
      && IdsOf(files.consumers).Some? && IdsOf(files.commodities).Some? && IdsOf(files.orders).Some?
      && IdsOf(files.cards).Some?
      && files.sellerVertical.Some? && files.orderCommodities.Some? && files.transactions.Some?
      && RefsHold(files.sellerVertical.value, "seller_id", IdsOf(files.sellers).value, "vertical_id", IdsOf(files.verticals).value)
      && RefsHold(files.commodities.value, "seller_id", IdsOf(files.sellers).value, "vertical_id", IdsOf(files.verticals).value)
      && RefsHold(files.orders.value, "consumer_id", IdsOf(files.consumers).value, "seller_id", IdsOf(files.sellers).value)
      && RefsHold(files.orderCommodities.value, "order_id", IdsOf(files.orders).value, "commodity_id", IdsOf(files.commodities).value)
      && RefsHold(files.transactions.value, "order_id", IdsOf(files.orders).value, "card_id", IdsOf(files.cards).value)
  {
    var sellers, verticals, consumers := IdsOf(files.sellers), IdsOf(files.verticals), IdsOf(files.consumers);
    var commodities, orders, cards := IdsOf(files.commodities), IdsOf(files.orders), IdsOf(files.cards);
    if IdsOf(files.users).Some? && verticals.Some? && sellers.Some? && consumers.Some? && commodities.Some? && orders.Some? && cards.Some? {
      CheckFileClean("seller_vertical", files.sellerVertical, "seller_id", sellers.value, "vertical_id", verticals.value);
      CheckFileClean("commodities", files.commodities, "seller_id", sellers.value, "vertical_id", verticals.value);
      CheckFileClean("orders", files.orders, "consumer_id", consumers.value, "seller_id", sellers.value);
      CheckFileClean("order_commodities", files.orderCommodities, "order_id", orders.value, "commodity_id", commodities.value);
      CheckFileClean("transactions", files.transactions, "order_id", orders.value, "card_id", cards.value);
    }
  }

  /** An id is in a table's id set exactly when some row of the table holds it. */
  lemma IdsOfMembers(rows: seq<Row>, v: Option<string>)
    requires HasColumn(rows, "id")
    ensures v in IdsOf(Some(rows)).value <==> exists k :: 0 <= k < |rows| && rows[k]["id"] == v
  {
  }
}
