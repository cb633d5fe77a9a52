/**
  The report tables: `pd.pivot_table(values="PED_TOTAL", columns="Tipo Venda",
  aggfunc=sum, fill_value=0)` over the OPD and Distribuição rows, the total
  column, the ordering, and the appended "TOTAL GERAL" row of column sums.
 */
module Pivot {
  import opened Dates
  import opened Sales

  /** One pivot row: the index value and the summed OPD and Distribuição columns. */
  datatype Row<K> = Row(key: K, opd: real, dist: real)

  /** The rows the pivot keeps (`df_validos`): those classified OPD or Distribuição. */
  predicate IsValid(ch: Channel) {
    ch == Opd || ch == Distribution
  }

  /** The amount a sale adds to column `ch`. */
  function Part(ch: Channel, onto: Channel, amount: real): real {
    if ch == onto then amount else 0.0
  }

  function RowKeys<K>(rows: seq<Row<K>>): (ks: seq<K>)
    ensures |ks| == |rows|
    ensures forall i :: 0 <= i < |rows| ==> ks[i] == rows[i].key
  {
    if rows == [] then [] else [rows[0].key] + RowKeys(rows[1..])
  }

  predicate Unique<K(==)>(ks: seq<K>) {
    forall i, j :: 0 <= i < j < |ks| ==> ks[i] != ks[j]
  }

  /** Adds `amount` to column `ch` of the row of key `k`, or appends a new row for `k` with 0 in the other column. */
  function AddTo<K(==)>(rows: seq<Row<K>>, k: K, ch: Channel, amount: real): seq<Row<K>> {
    if rows == [] then [Row(k, Part(ch, Opd, amount), Part(ch, Distribution, amount))]
    else if rows[0].key == k then
      [Row(k, rows[0].opd + Part(ch, Opd, amount), rows[0].dist + Part(ch, Distribution, amount))] + rows[1..]
    else [rows[0]] + AddTo(rows[1..], k, ch, amount)
  }

  /** The pivot of `sales` by `keyOf`, rows in order of first appearance of their key. */
  function Accumulate<K(==)>(sales: seq<Sale>, keyOf: Sale -> K, classify: Sale -> Channel): seq<Row<K>>
    decreases |sales|
  {
    if sales == [] then []
    else
      var last := sales[|sales| - 1];
      var rows := Accumulate(sales[..|sales| - 1], keyOf, classify);
      if IsValid(classify(last)) then AddTo(rows, keyOf(last), classify(last), last.total) else rows
  }

  /** The value in column `ch` of the row of key `k`, 0 when there is no such row (`fill_value=0`). */
  function CellOf<K(==)>(rows: seq<Row<K>>, k: K, ch: Channel): real {
    if rows == [] then 0.0
    else if rows[0].key == k then (if ch == Opd then rows[0].opd else if ch == Distribution then rows[0].dist else 0.0)
    else CellOf(rows[1..], k, ch)
  }

  /** The `PED_TOTAL` sum of the sales of key `k` classified `ch`: what the pivot cell must hold. */
  function KeySum<K(==)>(sales: seq<Sale>, keyOf: Sale -> K, classify: Sale -> Channel, k: K, ch: Channel): real
    decreases |sales|
  {
    if sales == [] then 0.0
    else
      var last := sales[|sales| - 1];
      KeySum(sales[..|sales| - 1], keyOf, classify, k, ch)
      + (if keyOf(last) == k && classify(last) == ch then last.total else 0.0)
  }

  function SumOpd<K>(rows: seq<Row<K>>): real {
    if rows == [] then 0.0 else rows[0].opd + SumOpd(rows[1..])
  }

  function SumDist<K>(rows: seq<Row<K>>): real {
    if rows == [] then 0.0 else rows[0].dist + SumDist(rows[1..])
  }

  /** Adding to a row appends its key only when it is new. */
  lemma {:induction false} AddToKeys<K>(rows: seq<Row<K>>, k: K, ch: Channel, amount: real)
    ensures RowKeys(AddTo(rows, k, ch, amount)) == if k in RowKeys(rows) then RowKeys(rows) else RowKeys(rows) + [k]
  {
    if rows != [] && rows[0].key != k {
      AddToKeys(rows[1..], k, ch, amount);
      assert RowKeys(rows) == [rows[0].key] + RowKeys(rows[1..]);
      assert k in RowKeys(rows) <==> k in RowKeys(rows[1..]);
    } else if rows != [] {
      assert RowKeys(rows)[0] == k;
    }
  }

  /** Adding to a row changes exactly one cell, by the amount. */
  lemma {:induction false} AddToCell<K>(rows: seq<Row<K>>, k: K, ch: Channel, amount: real, k2: K, ch2: Channel)
    requires IsValid(ch) && IsValid(ch2)
    ensures CellOf(AddTo(rows, k, ch, amount), k2, ch2) == CellOf(rows, k2, ch2) + (if k2 == k && ch2 == ch then amount else 0.0)
  {
    if rows != [] && rows[0].key != k {
      AddToCell(rows[1..], k, ch, amount, k2, ch2);
    }
  }

  lemma {:induction false} AddToSums<K>(rows: seq<Row<K>>, k: K, ch: Channel, amount: real)
    ensures SumOpd(AddTo(rows, k, ch, amount)) == SumOpd(rows) + Part(ch, Opd, amount)
    ensures SumDist(AddTo(rows, k, ch, amount)) == SumDist(rows) + Part(ch, Distribution, amount)
  {
    if rows != [] && rows[0].key != k {
      AddToSums(rows[1..], k, ch, amount);
    }
  }

  /** Each key of the pivot appears once. */
  lemma {:induction false} AccumulateUnique<K>(sales: seq<Sale>, keyOf: Sale -> K, classify: Sale -> Channel)
    ensures Unique(RowKeys(Accumulate(sales, keyOf, classify)))
    decreases |sales|
  {
    if sales != [] {
      var last := sales[|sales| - 1];
      var init := sales[..|sales| - 1];
      AccumulateUnique(init, keyOf, classify);
      if IsValid(classify(last)) {
        AddToKeys(Accumulate(init, keyOf, classify), keyOf(last), classify(last), last.total);
      }
    }
  }

  /** Every cell of the pivot is the sum over the sales of its key and column. */
  lemma {:induction false} AccumulateCells<K>(sales: seq<Sale>, keyOf: Sale -> K, classify: Sale -> Channel, k: K, ch: Channel)
    requires IsValid(ch)
    ensures CellOf(Accumulate(sales, keyOf, classify), k, ch) == KeySum(sales, keyOf, classify, k, ch)
    decreases |sales|
  {
    if sales != [] {
      var last := sales[|sales| - 1];
      var init := sales[..|sales| - 1];
      AccumulateCells(init, keyOf, classify, k, ch);
      if IsValid(classify(last)) {
        AddToCell(Accumulate(init, keyOf, classify), keyOf(last), classify(last), last.total, k, ch);
      }
    }
  }

  /** A key has a row exactly when some OPD or Distribuição sale carries it. */
  lemma {:induction false} AccumulateKeys<K>(sales: seq<Sale>, keyOf: Sale -> K, classify: Sale -> Channel, k: K)
    ensures k in RowKeys(Accumulate(sales, keyOf, classify))
            <==> exists i :: 0 <= i < |sales| && IsValid(classify(sales[i])) && keyOf(sales[i]) == k
    decreases |sales|
  {
    if sales != [] {
      var n := |sales| - 1;
      var last := sales[n];
      var init := sales[..n];
      var rows := Accumulate(init, keyOf, classify);
      AccumulateKeys(init, keyOf, classify, k);
      if IsValid(classify(last)) {
        AddToKeys(rows, keyOf(last), classify(last), last.total);
        assert k in RowKeys(AddTo(rows, keyOf(last), classify(last), last.total)) <==> k in RowKeys(rows) || k == keyOf(last);
      }
      SalesSplitAtLast(sales, keyOf, classify, k);
    }
  }

  /** A valid sale of key `k` is one of the earlier sales or the last one. */
  lemma SalesSplitAtLast<K>(sales: seq<Sale>, keyOf: Sale -> K, classify: Sale -> Channel, k: K)
    requires sales != []
    ensures var n := |sales| - 1;
            (exists i :: 0 <= i < |sales| && IsValid(classify(sales[i])) && keyOf(sales[i]) == k)
            <==> (exists i :: 0 <= i < n && IsValid(classify(sales[..n][i])) && keyOf(sales[..n][i]) == k)
                 || (IsValid(classify(sales[n])) && keyOf(sales[n]) == k)
  {
    var n := |sales| - 1;
    var init := sales[..n];
    if exists i :: 0 <= i < |sales| && IsValid(classify(sales[i])) && keyOf(sales[i]) == k {
      var i :| 0 <= i < |sales| && IsValid(classify(sales[i])) && keyOf(sales[i]) == k;
      if i < n {
        assert init[i] == sales[i];
      }
    }
    if exists i :: 0 <= i < n && IsValid(classify(init[i])) && keyOf(init[i]) == k {
      var i :| 0 <= i < n && IsValid(classify(init[i])) && keyOf(init[i]) == k;
      assert sales[i] == init[i];
    }
  }


  /** The OPD and Distribuição columns add up to the channel totals of the sales. */
  lemma {:induction false} AccumulateColumnSums<K>(sales: seq<Sale>, keyOf: Sale -> K, classify: Sale -> Channel)
    ensures SumOpd(Accumulate(sales, keyOf, classify)) == ChannelTotalBack(sales, classify, Opd)
    ensures SumDist(Accumulate(sales, keyOf, classify)) == ChannelTotalBack(sales, classify, Distribution)
    decreases |sales|
  {
    if sales != [] {
      var last := sales[|sales| - 1];
      var init := sales[..|sales| - 1];
      AccumulateColumnSums(init, keyOf, classify);
      if IsValid(classify(last)) {
        AddToSums(Accumulate(init, keyOf, classify), keyOf(last), classify(last), last.total);
      }
    }
  }

  /** The channel total summed from the back, the order the pivot is built in. */
  function ChannelTotalBack(sales: seq<Sale>, classify: Sale -> Channel, ch: Channel): real
    decreases |sales|
  {
    if sales == [] then 0.0
    else
      var last := sales[|sales| - 1];
      ChannelTotalBack(sales[..|sales| - 1], classify, ch) + (if classify(last) == ch then last.total else 0.0)
  }

  /** Summing from the back or from the front gives the same channel total. */
  lemma {:induction false} ChannelTotalBackIsChannelTotal(sales: seq<Sale>, classify: Sale -> Channel, ch: Channel)
    ensures ChannelTotalBack(sales, classify, ch) == ChannelTotal(sales, classify, ch)
    decreases |sales|
  {
    if sales != [] {
      var init := sales[..|sales| - 1];
      var last := sales[|sales| - 1];
      ChannelTotalBackIsChannelTotal(init, classify, ch);
      ChannelTotalAppend(init, [last], classify, ch);
      assert init + [last] == sales;
    }
  }

  lemma {:induction false} ChannelTotalAppend(a: seq<Sale>, b: seq<Sale>, classify: Sale -> Channel, ch: Channel)
    ensures ChannelTotal(a + b, classify, ch) == ChannelTotal(a, classify, ch) + ChannelTotal(b, classify, ch)
  {
    if a == [] {
      assert a + b == b;
    } else {
      assert (a + b)[1..] == a[1..] + b;
      ChannelTotalAppend(a[1..], b, classify, ch);
    }
  }

  /** A row of a report table: the pivot row with its total column (`Total Vendedor`, `Total Dia`). */
  datatype TableRow<K> = TableRow(key: K, opd: real, dist: real, total: real)

  function WithTotals<K>(rows: seq<Row<K>>): (t: seq<TableRow<K>>)
    ensures |t| == |rows|
    ensures forall i :: 0 <= i < |rows| ==>
              t[i] == TableRow(rows[i].key, rows[i].opd, rows[i].dist, rows[i].opd + rows[i].dist)
  {
    if rows == [] then [] else [TableRow(rows[0].key, rows[0].opd, rows[0].dist, rows[0].opd + rows[0].dist)] + WithTotals(rows[1..])
  }

  /** The "TOTAL GERAL" row: `tabela.sum()` over the three columns. */
  datatype Totals = Totals(opd: real, dist: real, total: real)

  function ColumnSums<K>(t: seq<TableRow<K>>): Totals {
    Totals(SumBy(t, OpdOf), SumBy(t, DistOf), SumBy(t, TotalOf))
  }

  function OpdOf<K>(r: TableRow<K>): real { r.opd }
  function DistOf<K>(r: TableRow<K>): real { r.dist }
  function TotalOf<K>(r: TableRow<K>): real { r.total }

  /** The sum of `f` over a column of rows. */
  function SumBy<T>(s: seq<T>, f: T -> real): real {
    if s == [] then 0.0 else f(s[0]) + SumBy(s[1..], f)
  }

  lemma {:induction false} ColumnSumsOfTotals<K>(rows: seq<Row<K>>)
    ensures ColumnSums(WithTotals(rows)) == Totals(SumOpd(rows), SumDist(rows), SumOpd(rows) + SumDist(rows))
  {
    if rows != [] {
      ColumnSumsOfTotals(rows[1..]);
      assert WithTotals(rows)[1..] == WithTotals(rows[1..]);
    }
  }

  /** Rows in non-increasing order of `rank`. */
  predicate SortedDesc<T>(s: seq<T>, rank: T -> real) {
    forall i, j :: 0 <= i < j < |s| ==> rank(s[i]) >= rank(s[j])
  }

  /** Puts `x` before the first element it does not rank below. */
  function Insert<T>(x: T, s: seq<T>, rank: T -> real): (r: seq<T>)
    ensures |r| == |s| + 1
  {
    if s == [] || rank(x) >= rank(s[0]) then [x] + s
    else [s[0]] + Insert(x, s[1..], rank)
  }

  /** `sort_values(ascending=False)` by `rank`; the order among equal ranks is not modelled. */
  function SortDesc<T>(s: seq<T>, rank: T -> real): (r: seq<T>)
    ensures |r| == |s|
  {
    if s == [] then [] else Insert(s[0], SortDesc(s[1..], rank), rank)
  }

  /** Inserting an element no higher than a bound into rows no higher than it keeps every row under the bound. */
  lemma {:induction false} InsertBounded<T>(x: T, s: seq<T>, rank: T -> real, bound: real)
    requires rank(x) <= bound
    requires forall i :: 0 <= i < |s| ==> rank(s[i]) <= bound
    ensures forall i :: 0 <= i < |Insert(x, s, rank)| ==> rank(Insert(x, s, rank)[i]) <= bound
  {
    if s != [] && rank(x) < rank(s[0]) {
      InsertBounded(x, s[1..], rank, bound);
      var r := Insert(x, s, rank);
      forall i | 0 < i < |r|
        ensures rank(r[i]) <= bound
      {
        assert r[i] == Insert(x, s[1..], rank)[i - 1];
      }
    }
  }

  lemma {:induction false} InsertSorted<T>(x: T, s: seq<T>, rank: T -> real)
    requires SortedDesc(s, rank)
    ensures SortedDesc(Insert(x, s, rank), rank)
  {
    var r := Insert(x, s, rank);
    if s == [] || rank(x) >= rank(s[0]) {
      forall i, j | 0 <= i < j < |r|
        ensures rank(r[i]) >= rank(r[j])
      {
        assert r[j] == s[j - 1];
        if i > 0 {
          assert r[i] == s[i - 1];
        }
      }
    } else {
      var rest := Insert(x, s[1..], rank);
      InsertSorted(x, s[1..], rank);
      InsertBounded(x, s[1..], rank, rank(s[0]));
      forall i, j | 0 <= i < j < |r|
        ensures rank(r[i]) >= rank(r[j])
      {
        assert r[j] == rest[j - 1];
        if i > 0 {
          assert r[i] == rest[i - 1];
        }
      }
    }
  }

  lemma {:induction false} InsertPermutes<T>(x: T, s: seq<T>, rank: T -> real)
    ensures multiset(Insert(x, s, rank)) == multiset(s) + multiset{x}
  {
    if s != [] && rank(x) < rank(s[0]) {
      InsertPermutes(x, s[1..], rank);
      assert s == [s[0]] + s[1..];
    }
  }

  /** The sorted table is in order and holds the same rows. */
  lemma {:induction false} SortDescCorrect<T>(s: seq<T>, rank: T -> real)
    ensures SortedDesc(SortDesc(s, rank), rank)
    ensures multiset(SortDesc(s, rank)) == multiset(s)
  {
    if s != [] {
      SortDescCorrect(s[1..], rank);
      InsertSorted(s[0], SortDesc(s[1..], rank), rank);
      InsertPermutes(s[0], SortDesc(s[1..], rank), rank);
      assert s == [s[0]] + s[1..];
    }
  }

  lemma {:induction false} InsertKeepsSum<T>(x: T, s: seq<T>, rank: T -> real, f: T -> real)
    ensures SumBy(Insert(x, s, rank), f) == f(x) + SumBy(s, f)
  {
    if s != [] && rank(x) < rank(s[0]) {
      InsertKeepsSum(x, s[1..], rank, f);
    }
  }

  /** Sorting does not change a column's sum. */
  lemma {:induction false} SortKeepsSum<T>(s: seq<T>, rank: T -> real, f: T -> real)
    ensures SumBy(SortDesc(s, rank), f) == SumBy(s, f)
  {
    if s != [] {
      SortKeepsSum(s[1..], rank, f);
      InsertKeepsSum(s[0], SortDesc(s[1..], rank), rank, f);
    }
  }

  /** Sorting does not change the total row. */
  lemma SortKeepsColumnSums<K>(s: seq<TableRow<K>>, rank: TableRow<K> -> real)
    ensures ColumnSums(SortDesc(s, rank)) == ColumnSums(s)
  {
    SortKeepsSum(s, rank, OpdOf);
    SortKeepsSum(s, rank, DistOf);
    SortKeepsSum(s, rank, TotalOf);
  }

  /** The total column is the sort key of `gerar_tabela_geral`. */
  function ByTotal<K>(r: TableRow<K>): real {
    r.total
  }

  /** A report table: nothing for an empty sales frame, else the sorted rows and the total row. */
  datatype Report<K> = NoReport | Report(rows: seq<TableRow<K>>, totalRow: Totals)

  /**
    A pivot report of the OPD and Distribuição sales, by `keyOf`, ordered by
    `rank` (descending), with the column sums appended.
   */
  function PivotReport<K(==)>(sales: seq<Sale>, keyOf: Sale -> K, classify: Sale -> Channel, rank: TableRow<K> -> real): Report<K> {
    if sales == [] then NoReport
    else
      var t := SortDesc(WithTotals(Accumulate(sales, keyOf, classify)), rank);
      Report(t, ColumnSums(t))
  }

  /**
    The report's facts: its rows are sorted and are the pivot rows with their
    totals; the total row holds the OPD and Distribuição channel totals and
    their sum.
   */
  lemma PivotReportCorrect<K>(sales: seq<Sale>, keyOf: Sale -> K, classify: Sale -> Channel, rank: TableRow<K> -> real)
    requires sales != []
    ensures var r := PivotReport(sales, keyOf, classify, rank);
            r.Report?
            && SortedDesc(r.rows, rank)
            && multiset(r.rows) == multiset(WithTotals(Accumulate(sales, keyOf, classify)))
            && r.totalRow == Totals(ChannelTotal(sales, classify, Opd), ChannelTotal(sales, classify, Distribution),
                                    ChannelTotal(sales, classify, Opd) + ChannelTotal(sales, classify, Distribution))
  {
    var rows := Accumulate(sales, keyOf, classify);
    SortDescCorrect(WithTotals(rows), rank);
    SortKeepsColumnSums(WithTotals(rows), rank);
    ColumnSumsOfTotals(rows);
    AccumulateColumnSums(sales, keyOf, classify);
    ChannelTotalBackIsChannelTotal(sales, classify, Opd);
    ChannelTotalBackIsChannelTotal(sales, classify, Distribution);
  }

  /** With every key once, a key's cells are those of its own row. */
  lemma {:induction false} CellOfOwnRow<K>(rows: seq<Row<K>>, j: int)
    requires Unique(RowKeys(rows)) && 0 <= j < |rows|
    ensures CellOf(rows, rows[j].key, Opd) == rows[j].opd
    ensures CellOf(rows, rows[j].key, Distribution) == rows[j].dist
  {
    if j > 0 {
      assert RowKeys(rows)[0] != RowKeys(rows)[j];
      var tail := RowKeys(rows[1..]);
      assert forall a, b :: 0 <= a < b < |tail| ==> tail[a] == RowKeys(rows)[a + 1] && tail[b] == RowKeys(rows)[b + 1];
      CellOfOwnRow(rows[1..], j - 1);
    }
  }

  /** Each row of the report holds the sums of its own key's OPD and Distribuição sales, and their total. */
  lemma PivotReportRows<K>(sales: seq<Sale>, keyOf: Sale -> K, classify: Sale -> Channel, rank: TableRow<K> -> real)
    requires sales != []
    ensures var r := PivotReport(sales, keyOf, classify, rank);
            r.Report?
            && forall i :: 0 <= i < |r.rows| ==>
                 r.rows[i].opd == KeySum(sales, keyOf, classify, r.rows[i].key, Opd)
                 && r.rows[i].dist == KeySum(sales, keyOf, classify, r.rows[i].key, Distribution)
                 && r.rows[i].total == r.rows[i].opd + r.rows[i].dist
  {
    PivotReportCorrect(sales, keyOf, classify, rank);
    var rows := Accumulate(sales, keyOf, classify);
    AccumulateUnique(sales, keyOf, classify);
    var r := PivotReport(sales, keyOf, classify, rank);
    forall i | 0 <= i < |r.rows|
      ensures r.rows[i].opd == KeySum(sales, keyOf, classify, r.rows[i].key, Opd)
      ensures r.rows[i].dist == KeySum(sales, keyOf, classify, r.rows[i].key, Distribution)
      ensures r.rows[i].total == r.rows[i].opd + r.rows[i].dist
    {
      assert r.rows[i] in multiset(WithTotals(rows));
      var j :| 0 <= j < |WithTotals(rows)| && WithTotals(rows)[j] == r.rows[i];
      CellOfOwnRow(rows, j);
      AccumulateCells(sales, keyOf, classify, rows[j].key, Opd);
      AccumulateCells(sales, keyOf, classify, rows[j].key, Distribution);
    }
  }

  /** A row of the seller detail table: DAT_CAD, VEN_NOME, CLI_RAZ, PED_TOTAL and the channel. */
  datatype DetailRow = DetailRow(date: Date, seller: string, customer: string, amount: real, channel: Channel)

  function DetailOf(s: Sale, ch: Channel): DetailRow {
    DetailRow(s.date, s.seller, s.customer, s.total, ch)
  }

  /** The OPD and Distribuição rows of the sales frame, in its order. */
  function DetailRows(sales: seq<Sale>, classify: Sale -> Channel): (rows: seq<DetailRow>)
    ensures forall i :: 0 <= i < |rows| ==> IsValid(rows[i].channel)
  {
    if sales == [] then []
    else (if IsValid(classify(sales[0])) then [DetailOf(sales[0], classify(sales[0]))] else [])
         + DetailRows(sales[1..], classify)
  }

  function AmountOf(r: DetailRow): real { r.amount }

  /** The detail rows add up to the OPD and Distribuição channel totals. */
  lemma {:induction false} DetailRowsSum(sales: seq<Sale>, classify: Sale -> Channel)
    ensures SumBy(DetailRows(sales, classify), AmountOf)
            == ChannelTotal(sales, classify, Opd) + ChannelTotal(sales, classify, Distribution)
  {
    if sales != [] {
      DetailRowsSum(sales[1..], classify);
      var head := if IsValid(classify(sales[0])) then [DetailOf(sales[0], classify(sales[0]))] else [];
      SumByAppend(head, DetailRows(sales[1..], classify), AmountOf);
    }
  }

  lemma {:induction false} SumByAppend<T>(a: seq<T>, b: seq<T>, f: T -> real)
    ensures SumBy(a + b, f) == SumBy(a, f) + SumBy(b, f)
  {
    if a == [] {
      assert a + b == b;
    } else {
      assert (a + b)[1..] == a[1..] + b;
      SumByAppend(a[1..], b, f);
    }
  }

  /** `sort_values(by="DAT_CAD", ascending=True)` as a descending sort on the negated date. */
  function Chronological(r: DetailRow): real {
    -(DateKey(r.date) as real)
  }

  /** `gerar_tabela_vendedor`: nothing for an empty frame, else the detail rows by date and the totals dict. */
  datatype Detail = NoDetail | Detail(rows: seq<DetailRow>, totals: Totals)

  function DetailTable(sales: seq<Sale>, classify: Sale -> Channel): Detail {
    if sales == [] then NoDetail
    else
      var opd := ChannelTotal(sales, classify, Opd);
      var dist := ChannelTotal(sales, classify, Distribution);
      Detail(SortDesc(DetailRows(sales, classify), Chronological), Totals(opd, dist, opd + dist))
  }

  /**
    The detail table lists every OPD and Distribuição row once, earliest date
    first, and its "Total" is what the listed amounts add up to.
   */
  lemma DetailTableCorrect(sales: seq<Sale>, classify: Sale -> Channel)
    requires sales != []
    ensures var d := DetailTable(sales, classify);
            d.Detail?
            && (forall i, j :: 0 <= i < j < |d.rows| ==> DateKey(d.rows[i].date) <= DateKey(d.rows[j].date))
            && multiset(d.rows) == multiset(DetailRows(sales, classify))
            && SumBy(d.rows, AmountOf) == d.totals.total
            && d.totals.opd == ChannelTotal(sales, classify, Opd)
            && d.totals.dist == ChannelTotal(sales, classify, Distribution)
  {
    var rows := DetailRows(sales, classify);
    var sorted := SortDesc(rows, Chronological);
    SortDescCorrect(rows, Chronological);
    SortKeepsSum(rows, Chronological, AmountOf);
    DetailRowsSum(sales, classify);
    forall i, j | 0 <= i < j < |sorted|
      ensures DateKey(sorted[i].date) <= DateKey(sorted[j].date)
    {
      assert Chronological(sorted[i]) >= Chronological(sorted[j]);
    }
  }
}
