/** `printVouchers`: what the voucher table holds — one row per voucher, the rows
    ordered by the stored `valid_until` date, and a total of the remaining values.
    The easy-table text layout and the relative-time text of the Valid Until column
    are not modelled. */
module Report {
  import opened Interfaces
  import Currency

  const EmptyMessage := "No vouchers redeemed. :("
  const TotalPrefix := "Total: "

  /** The cell values of one row as stored, before their printers run; `validUntil`
      is the time value of the voucher's `valid_until` Date. */
  datatype Row = Row(description: string, code: string, originalValue: real, remainingValue: real, validUntil: int)

  /** What `printVouchers` prints: the fixed message, or a table. */
  datatype Report = NoVouchers | Table(rows: seq<Row>, total: real)

  /** The vouchers' `valid_until` fields hold Dates (every caller normalises first). */
  predicate DatesParsed(vs: seq<Voucher>) {
    forall i :: 0 <= i < |vs| ==> vs[i].validUntil.Date?
  }

  function RowOf(v: Voucher): Row
    requires v.validUntil.Date?
  {
    Row(v.desc, v.code, v.originalValue, v.remainingValue, v.validUntil.time)
  }

  function RowsOf(vs: seq<Voucher>): seq<Row>
    requires DatesParsed(vs)
  {
    seq(|vs|, i requires 0 <= i < |vs| => RowOf(vs[i]))
  }

  predicate Sorted(rows: seq<Row>) {
    forall i, j :: 0 <= i < j < |rows| ==> rows[i].validUntil <= rows[j].validUntil
  }

  /** Places r in front of the first row whose date is not earlier. */
  function Insert(r: Row, rows: seq<Row>): seq<Row> {
    if rows == [] || r.validUntil <= rows[0].validUntil then [r] + rows
    else [rows[0]] + Insert(r, rows[1..])
  }

  /** `t.sort(["Valid Until"])`: a stable sort on the Date values (easy-table compares
      the stored cell values; the JavaScript sort is stable). */
  function SortRows(rows: seq<Row>): seq<Row> {
    if rows == [] then [] else Insert(rows[0], SortRows(rows[1..]))
  }

  /** `t.total("Remaining Value")` with no reducer: easy-table's default sum from 0. */
  function SumRemaining(rows: seq<Row>): real {
    if rows == [] then 0.0 else rows[0].remainingValue + SumRemaining(rows[1..])
  }

  /** The total of the vouchers' remaining values, in input order. */
  function TotalRemaining(vs: seq<Voucher>): real {
    if vs == [] then 0.0 else vs[0].remainingValue + TotalRemaining(vs[1..])
  }

  /** The rows with date t, in order: equal dates keep their relative order. */
  function WithDate(rows: seq<Row>, t: int): seq<Row> {
    if rows == [] then []
    else (if rows[0].validUntil == t then [rows[0]] else []) + WithDate(rows[1..], t)
  }

  /** Reference definition of the printed report. */
  function ReportOf(vs: seq<Voucher>): Report
    requires DatesParsed(vs)
  {
    if |vs| == 0 then NoVouchers
    else
      var rows := SortRows(RowsOf(vs));
      Table(rows, SumRemaining(rows))
  }

  /** `printVouchers(vs)`: the report it prints, or the TypeError it throws when the
      list is undefined (`vouchers.length`). */
  function PrintResult(vs: Option<seq<Voucher>>): (r: Result<Report, Thrown>)
    requires vs.Some? ==> DatesParsed(vs.value)
    ensures vs.None? <==> r.Err?
    ensures vs.None? ==> r.error == TypeError("length")
    ensures vs.Some? ==> r.value == ReportOf(vs.value)
  {
    match vs
    case None => Err(TypeError("length"))
    case Some(s) => Ok(ReportOf(s))
  }

  /** The text of the total cell: the prefix and the sum as a currency cell. */
  function TotalCell(total: real): (s: string)
    ensures TotalPrefix <= s
    ensures Currency.ParseCents(s[|TotalPrefix|..]).Some?
    ensures var c := Currency.ParseCents(s[|TotalPrefix|..]).value;
            c as real - 0.5 <= 100.0 * total <= c as real + 0.5
  {
    Currency.ToFixed2Denotes(total);
    var s := TotalPrefix + Currency.CurrencyPrinter(total, 0);
    assert s[|TotalPrefix|..] == Currency.ToFixed2(total);
    s
  }

  /** The five cell texts of a row as far as they are modelled; the Valid Until cell
      shows relative time, which is not modelled, so only the first four are given. */
  function RowCells(r: Row): (cells: seq<string>)
    ensures |cells| == 4
    ensures cells[0] == r.description && cells[1] == r.code
    ensures cells[2] == Currency.ToFixed2(r.originalValue) && cells[3] == Currency.ToFixed2(r.remainingValue)
  {
    [r.description, r.code, Currency.CurrencyPrinter(r.originalValue, 0), Currency.CurrencyPrinter(r.remainingValue, 0)]
  }

  /** `printVouchers` for a defined list: the cells of each voucher are collected into
      a row, then the rows are sorted and totalled. */
  method PrintVouchers(vouchers: seq<Voucher>) returns (report: Report)
    requires DatesParsed(vouchers)
    ensures report == ReportOf(vouchers)
  {
    if |vouchers| == 0 {
      return NoVouchers;
    }
    var rows: seq<Row> := [];
    for i := 0 to |vouchers|
      invariant rows == RowsOf(vouchers[..i])
    {
      var v := vouchers[i];
      rows := rows + [Row(v.desc, v.code, v.originalValue, v.remainingValue, v.validUntil.time)];
    }
    assert vouchers[..|vouchers|] == vouchers;
    rows := SortRows(rows);
    report := Table(rows, SumRemaining(rows));
  }

  // Properties of the sort

  lemma {:induction false} InsertPermutes(r: Row, rows: seq<Row>)
    ensures multiset(Insert(r, rows)) == multiset(rows) + multiset{r}
    ensures |Insert(r, rows)| == |rows| + 1
    decreases |rows|
  {
    if rows != [] && r.validUntil > rows[0].validUntil {
      InsertPermutes(r, rows[1..]);
      assert rows == [rows[0]] + rows[1..];
    }
  }

  lemma {:induction false} InsertSorted(r: Row, rows: seq<Row>)
    requires Sorted(rows)
    ensures Sorted(Insert(r, rows))
    decreases |rows|
  {
    if rows != [] && r.validUntil > rows[0].validUntil {
      InsertSorted(r, rows[1..]);
      InsertPermutes(r, rows[1..]);
      var tail := Insert(r, rows[1..]);
      forall k | 0 <= k < |tail| ensures rows[0].validUntil <= tail[k].validUntil {
        assert tail[k] in multiset(rows[1..]) + multiset{r};
        if tail[k] != r {
          assert tail[k] in rows[1..];
        }
      }
    }
  }

  lemma {:induction false} InsertKeepsEqualDates(r: Row, rows: seq<Row>, t: int)
    requires Sorted(rows)
    ensures WithDate(Insert(r, rows), t) == (if r.validUntil == t then [r] else []) + WithDate(rows, t)
    decreases |rows|
  {
    if rows == [] || r.validUntil <= rows[0].validUntil {
      assert ([r] + rows)[1..] == rows;
    } else {
      InsertKeepsEqualDates(r, rows[1..], t);
      assert ([rows[0]] + Insert(r, rows[1..]))[1..] == Insert(r, rows[1..]);
    }
  }

  lemma {:induction false} SortRowsCorrect(rows: seq<Row>)
    ensures Sorted(SortRows(rows))
    ensures multiset(SortRows(rows)) == multiset(rows)
    ensures |SortRows(rows)| == |rows|
    decreases |rows|
  {
    if rows != [] {
      SortRowsCorrect(rows[1..]);
      InsertSorted(rows[0], SortRows(rows[1..]));
      InsertPermutes(rows[0], SortRows(rows[1..]));
      assert rows == [rows[0]] + rows[1..];
    }
  }

  /** The sort is stable: rows with the same date keep their input order. */
  lemma {:induction false} SortRowsStable(rows: seq<Row>, t: int)
    ensures WithDate(SortRows(rows), t) == WithDate(rows, t)
    decreases |rows|
  {
    if rows != [] {
      SortRowsStable(rows[1..], t);
      SortRowsCorrect(rows[1..]);
      InsertKeepsEqualDates(rows[0], SortRows(rows[1..]), t);
    }
  }

  // Properties of the total

  lemma {:induction false} SumInsert(r: Row, rows: seq<Row>)
    ensures SumRemaining(Insert(r, rows)) == r.remainingValue + SumRemaining(rows)
    decreases |rows|
  {
    if rows != [] && r.validUntil > rows[0].validUntil {
      SumInsert(r, rows[1..]);
    }
  }

  lemma {:induction false} SumSorted(rows: seq<Row>)
    ensures SumRemaining(SortRows(rows)) == SumRemaining(rows)
    decreases |rows|
  {
    if rows != [] {
      SumSorted(rows[1..]);
      SumInsert(rows[0], SortRows(rows[1..]));
    }
  }

  lemma {:induction false} SumRows(vs: seq<Voucher>)
    requires DatesParsed(vs)
    ensures SumRemaining(RowsOf(vs)) == TotalRemaining(vs)
    decreases |vs|
  {
    if vs != [] {
      SumRows(vs[1..]);
      assert RowsOf(vs)[1..] == RowsOf(vs[1..]);
    }
  }

  /** The report: the fixed message exactly for an empty list; otherwise one row per
      voucher holding that voucher's cells, sorted by date, stable, and a total equal
      to the sum of the remaining values. */
  lemma ReportShape(vs: seq<Voucher>)
    requires DatesParsed(vs)
    ensures ReportOf(vs).NoVouchers? <==> |vs| == 0
    ensures ReportOf(vs).Table? ==>
              var rows := ReportOf(vs).rows;
              && |rows| == |vs|
              && Sorted(rows)
              && multiset(rows) == multiset(RowsOf(vs))
              && (forall t :: WithDate(rows, t) == WithDate(RowsOf(vs), t))
              && ReportOf(vs).total == TotalRemaining(vs)
  {
    if |vs| > 0 {
      var rows := RowsOf(vs);
      SortRowsCorrect(rows);
      forall t ensures WithDate(SortRows(rows), t) == WithDate(rows, t) {
        SortRowsStable(rows, t);
      }
      SumSorted(rows);
      SumRows(vs);
    }
  }

  /** Each row of the table is the row of some voucher of the input. */
  lemma RowsComeFromVouchers(vs: seq<Voucher>)
    requires DatesParsed(vs) && |vs| > 0
    ensures forall r :: r in ReportOf(vs).rows ==> exists i :: 0 <= i < |vs| && r == RowOf(vs[i])
  {
    var rows := RowsOf(vs);
    SortRowsCorrect(rows);
    forall r | r in ReportOf(vs).rows ensures exists i :: 0 <= i < |vs| && r == RowOf(vs[i]) {
      assert r in multiset(rows);
      var i :| 0 <= i < |rows| && rows[i] == r;
    }
  }

  // Worked examples

  /** Three vouchers listed with due dates at times 3, 1 and 2 are shown in the order
      1, 2, 3; remaining values 12.34 and 0.66 total "13.00". */
  lemma SortAndTotalExample(v: Voucher)
    ensures var a := v.(code := "A", validUntil := Date(3), remainingValue := 12.34);
            var b := v.(code := "B", validUntil := Date(1), remainingValue := 0.66);
            var c := v.(code := "C", validUntil := Date(2), remainingValue := 0.0);
            var report := ReportOf([a, b, c]);
            && report.Table?
            && |report.rows| == 3
            && report.rows[0].code == "B" && report.rows[1].code == "C" && report.rows[2].code == "A"
            && Currency.ToFixed2(report.total) == "13.00"
  {
    var a := v.(code := "A", validUntil := Date(3), remainingValue := 12.34);
    var b := v.(code := "B", validUntil := Date(1), remainingValue := 0.66);
    var c := v.(code := "C", validUntil := Date(2), remainingValue := 0.0);
    var rows := RowsOf([a, b, c]);
    assert rows == [RowOf(a), RowOf(b), RowOf(c)];
    var ra, rb, rc := RowOf(a), RowOf(b), RowOf(c);
    assert rows[1..] == [rb, rc] && rows[1..][1..] == [rc];
    assert SortRows([rc]) == [rc] by { assert [rc][1..] == []; }
    assert SortRows([rb, rc]) == [rb, rc];
    assert Insert(ra, [rc]) == [rc, ra] by { assert [rc][1..] == []; }
    assert Insert(ra, [rb, rc]) == [rb, rc, ra] by { assert [rb, rc][1..] == [rc]; }
    assert SortRows(rows) == [rb, rc, ra];
    assert SumRemaining([rb, rc, ra]) == 13.0 by {
      assert [rb, rc, ra][1..] == [rc, ra] && [rc, ra][1..] == [ra] && [ra][1..] == [];
      assert SumRemaining([ra]) == 12.34;
      assert SumRemaining([rc, ra]) == 12.34;
    }
    assert Currency.RoundedCents(13.0) == 1300;
    assert Currency.NatToString(13) == "13";
  }
}
