/** The shopping-list export of the recipe view set: the rows of every recipe
    in the user's cart are summed per ingredient name in a dict that keeps
    insertion order, and the dict is written out one text line per name.
    The cart query itself is a parameter: `rows` is what it returns. */
module ShoppingList {
  import opened Common
  import opened Text

  /** One row of the cart query: ingredient name, measurement unit, amount. */
  datatype CartLine = CartLine(name: string, unit: string, amount: int)

  /** A value of the summing dict: `{'unit': ..., 'amount': ...}`. */
  datatype Entry = Entry(unit: string, amount: int)

  /** One item of the shopping list, in the dict's order. */
  datatype AggregatedLine = AggregatedLine(name: string, unit: string, total: int)

  // ---------------------------------------------------------------------
  // Reference definitions over the input rows. Each one is defined on the
  // prefix without the last row, the way the loop extends its dict.

  /** The ingredient names the rows mention. */
  function NameSet(rows: seq<CartLine>): (r: set<string>)
    ensures forall i :: 0 <= i < |rows| ==> rows[i].name in r
  {
    if rows == [] then {}
    else
      var p := rows[..|rows| - 1];
      assert forall i :: 0 <= i < |p| ==> p[i] == rows[i];
      NameSet(p) + {rows[|rows| - 1].name}
  }

  /** The sum of every amount in the rows. */
  function SumAmounts(rows: seq<CartLine>): int {
    if rows == [] then 0 else SumAmounts(rows[..|rows| - 1]) + rows[|rows| - 1].amount
  }

  /** The sum of the amounts of the rows named `name`. */
  function TotalFor(rows: seq<CartLine>, name: string): int {
    if rows == [] then 0
    else
      var last := rows[|rows| - 1];
      TotalFor(rows[..|rows| - 1], name) + (if last.name == name then last.amount else 0)
  }

  /** The position of the first row named `name`. */
  function FirstIndex(rows: seq<CartLine>, name: string): (k: nat)
    requires name in NameSet(rows)
    ensures k < |rows| && rows[k].name == name
    ensures forall j :: 0 <= j < k ==> rows[j].name != name
  {
    var p := rows[..|rows| - 1];
    if name in NameSet(p) then FirstIndex(p, name) else |rows| - 1
  }

  /** The unit of the first row named `name`. */
  function FirstUnit(rows: seq<CartLine>, name: string): string
    requires name in NameSet(rows)
  {
    rows[FirstIndex(rows, name)].unit
  }

  /** The names of the rows, each once, in order of first occurrence. */
  function DistinctNames(rows: seq<CartLine>): seq<string> {
    if rows == [] then []
    else
      var p := DistinctNames(rows[..|rows| - 1]);
      var x := rows[|rows| - 1].name;
      if x in p then p else p + [x]
  }

  /** The key order lists every name of the rows exactly once. */
  lemma {:induction false} DistinctNamesMeaning(rows: seq<CartLine>)
    ensures Distinct(DistinctNames(rows))
    ensures forall n :: n in DistinctNames(rows) <==> n in NameSet(rows)
    ensures |DistinctNames(rows)| == |NameSet(rows)|
  {
    if rows != [] {
      var p := rows[..|rows| - 1];
      var x := rows[|rows| - 1].name;
      DistinctNamesMeaning(p);
      assert NameSet(rows) == NameSet(p) + {x};
      if x in DistinctNames(p) {
        assert NameSet(rows) == NameSet(p);
      }
    }
  }

  /** One aggregated line per name of `d`. */
  function LinesFor(d: seq<string>, rows: seq<CartLine>): (s: seq<AggregatedLine>)
    requires forall n :: n in d ==> n in NameSet(rows)
    ensures |s| == |d|
  {
    seq(|d|, i requires 0 <= i < |d| => AggregatedLine(d[i], FirstUnit(rows, d[i]), TotalFor(rows, d[i])))
  }

  /** What the summing dict holds once every row has been seen, in its
      iteration order. */
  function Summary(rows: seq<CartLine>): (s: seq<AggregatedLine>)
    ensures |s| == |NameSet(rows)|
    ensures forall i, j :: 0 <= i < j < |s| ==> s[i].name != s[j].name
    ensures forall i :: 0 <= i < |s| ==>
      && s[i].name in NameSet(rows)
      && s[i].unit == rows[FirstIndex(rows, s[i].name)].unit
      && s[i].total == TotalFor(rows, s[i].name)
  {
    DistinctNamesMeaning(rows);
    LinesFor(DistinctNames(rows), rows)
  }

  /** One text line of the export. */
  function FormatLine(l: AggregatedLine): string {
    Capitalize(l.name) + " (" + l.unit + "):  " + ShowInt(l.total) + "\n"
  }

  /** The list of text lines, one per aggregated line. */
  function FormatAll(lines: seq<AggregatedLine>): (text: seq<string>)
    ensures |text| == |lines|
    ensures forall i :: 0 <= i < |lines| ==> text[i] == FormatLine(lines[i])
  {
    if lines == [] then []
    else
      var p := lines[..|lines| - 1];
      assert forall i :: 0 <= i < |p| ==> p[i] == lines[i];
      FormatAll(p) + [FormatLine(lines[|lines| - 1])]
  }

  /** The body of the response: the text lines written one after another. */
  function Concat(parts: seq<string>): string {
    if parts == [] then "" else Concat(parts[..|parts| - 1]) + parts[|parts| - 1]
  }

  /** The downloaded file for a cart whose query returned `rows`: at least
      eight characters for every distinct name. */
  function Report(rows: seq<CartLine>): (r: string)
    ensures |r| >= 8 * |NameSet(rows)|
  {
    var text := FormatAll(Summary(rows));
    ConcatLength(text, 8);
    Concat(text)
  }

  /** Joining parts of at least `m` characters each gives at least `m`
      characters per part. */
  lemma {:induction false} ConcatLength(parts: seq<string>, m: nat)
    requires forall i :: 0 <= i < |parts| ==> |parts[i]| >= m
    ensures |Concat(parts)| >= m * |parts|
  {
    if parts != [] {
      var p := parts[..|parts| - 1];
      ConcatLength(p, m);
      assert m * |parts| == m * |p| + m;
    }
  }

  // ---------------------------------------------------------------------
  // The view.

  /** The view: sum the rows into an insertion-ordered dict, then write one
      text line per entry. The file is these lines one after another. */
  method DownloadShoppingCart(rows: seq<CartLine>) returns (text: seq<string>)
    ensures text == FormatAll(Summary(rows))
    ensures |text| == |NameSet(rows)|
    ensures Concat(text) == Report(rows)
  {
    var order, summed := SumByName(rows);
    text := WriteLines(order, summed, rows);
  }

  /** The first loop of the view. The dict is kept as its key order plus a
      map, which is what an insertion-ordered dict is. */
  method SumByName(rows: seq<CartLine>) returns (order: seq<string>, summed: map<string, Entry>)
    ensures order == DistinctNames(rows)
    ensures summed == SummedDict(rows)
  {
    order, summed := [], map[];
    for k := 0 to |rows|
      invariant order == DistinctNames(rows[..k])
      invariant summed == SummedDict(rows[..k])
      invariant forall n :: n in summed <==> n in order
    {
      var el := rows[k];
      DistinctNamesStep(rows, k);
      SummedDictStep(rows, k);
      if el.name !in summed {
        summed := summed[el.name := Entry(el.unit, el.amount)];
        order := order + [el.name];
      } else {
        var e := summed[el.name];
        summed := summed[el.name := Entry(e.unit, e.amount + el.amount)];
      }
    }
    assert rows[..|rows|] == rows;
  }

  /** The second loop of the view: one formatted line per dict entry, in
      the dict's order. */
  method WriteLines(order: seq<string>, summed: map<string, Entry>, ghost rows: seq<CartLine>) returns (text: seq<string>)
    requires order == DistinctNames(rows) && summed == SummedDict(rows)
    ensures text == FormatAll(Summary(rows))
  {
    SummaryLength(rows);
    text := [];
    for i := 0 to |order|
      invariant text == FormatAll(Summary(rows)[..i])
    {
      var key := order[i];
      WriteLineStep(rows, i);
      var value := summed[key];
      text := text + [FormatLine(AggregatedLine(key, value.unit, value.amount))];
    }
    assert Summary(rows)[..|order|] == Summary(rows);
  }

  lemma SummaryLength(rows: seq<CartLine>)
    ensures |Summary(rows)| == |DistinctNames(rows)|
  {
    DistinctNamesMeaning(rows);
  }

  /** Writing the `i`-th key of the dict with its entry extends the text by
      the `i`-th line of the summary. */
  lemma WriteLineStep(rows: seq<CartLine>, i: nat)
    requires i < |DistinctNames(rows)|
    ensures var n := DistinctNames(rows)[i];
      && n in SummedDict(rows)
      && i < |Summary(rows)|
      && FormatAll(Summary(rows)[..i + 1]) ==
         FormatAll(Summary(rows)[..i]) + [FormatLine(AggregatedLine(n, SummedDict(rows)[n].unit, SummedDict(rows)[n].amount))]
  {
    DistinctNamesMeaning(rows);
    SummedDictMeaning(rows);
    var lines, n := Summary(rows), DistinctNames(rows)[i];
    assert lines[i] == AggregatedLine(n, SummedDict(rows)[n].unit, SummedDict(rows)[n].amount);
    FormatAllStep(lines, i);
  }

  /** Formatting one more aggregated line appends its text line. */
  lemma FormatAllStep(lines: seq<AggregatedLine>, i: nat)
    requires i < |lines|
    ensures FormatAll(lines[..i + 1]) == FormatAll(lines[..i]) + [FormatLine(lines[i])]
  {
    assert lines[..i + 1][..i] == lines[..i];
  }

  // One more row: how the key order and the dict grow.

  lemma DistinctNamesStep(rows: seq<CartLine>, k: nat)
    requires k < |rows|
    ensures DistinctNames(rows[..k + 1]) ==
      if rows[k].name in DistinctNames(rows[..k]) then DistinctNames(rows[..k])
      else DistinctNames(rows[..k]) + [rows[k].name]
  {
    assert rows[..k + 1][..k] == rows[..k];
  }

  lemma SummedDictStep(rows: seq<CartLine>, k: nat)
    requires k < |rows|
    ensures var m, r := SummedDict(rows[..k]), rows[k];
      SummedDict(rows[..k + 1]) ==
        if r.name !in m then m[r.name := Entry(r.unit, r.amount)]
        else m[r.name := Entry(m[r.name].unit, m[r.name].amount + r.amount)]
  {
    assert rows[..k + 1][..k] == rows[..k];
  }

  /** The summing dict after the first loop has seen `rows`: a new name is
      stored with its row's unit and amount, a known name only has its amount
      raised. */
  function SummedDict(rows: seq<CartLine>): map<string, Entry> {
    if rows == [] then map[]
    else
      var m, r := SummedDict(rows[..|rows| - 1]), rows[|rows| - 1];
      if r.name !in m then m[r.name := Entry(r.unit, r.amount)]
      else m[r.name := Entry(m[r.name].unit, m[r.name].amount + r.amount)]
  }

  /** The dict holds exactly the names of the rows; each with the unit of its
      first row and the sum of the amounts of all its rows. */
  lemma {:induction false} SummedDictMeaning(rows: seq<CartLine>)
    ensures SummedDict(rows).Keys == NameSet(rows)
    ensures forall n :: n in NameSet(rows) ==>
      SummedDict(rows)[n] == Entry(FirstUnit(rows, n), TotalFor(rows, n))
  {
    if rows != [] {
      var p, r := rows[..|rows| - 1], rows[|rows| - 1];
      SummedDictMeaning(p);
      if r.name !in NameSet(p) {
        TotalForAbsent(p, r.name);
      }
    }
  }

  // ---------------------------------------------------------------------
  // Properties of the export.

  lemma {:induction false} TotalForAbsent(rows: seq<CartLine>, name: string)
    requires name !in NameSet(rows)
    ensures TotalFor(rows, name) == 0
  {
    if rows != [] {
      TotalForAbsent(rows[..|rows| - 1], name);
    }
  }

  /** The sum of `TotalFor` over the names of `d`. */
  function TotalOf(d: seq<string>, rows: seq<CartLine>): int {
    if d == [] then 0 else TotalOf(d[..|d| - 1], rows) + TotalFor(rows, d[|d| - 1])
  }

  function SumTotals(lines: seq<AggregatedLine>): int {
    if lines == [] then 0 else SumTotals(lines[..|lines| - 1]) + lines[|lines| - 1].total
  }

  lemma {:induction false} SumTotalsLinesFor(d: seq<string>, rows: seq<CartLine>)
    requires forall n :: n in d ==> n in NameSet(rows)
    ensures SumTotals(LinesFor(d, rows)) == TotalOf(d, rows)
  {
    if d != [] {
      var p := d[..|d| - 1];
      assert LinesFor(d, rows)[..|d| - 1] == LinesFor(p, rows);
      SumTotalsLinesFor(p, rows);
    }
  }

  /** Adding one row to the query raises the total of the names in `d` by
      that row's amount exactly when its name is one of them. */
  lemma {:induction false} TotalOfAppend(d: seq<string>, rows: seq<CartLine>, r: CartLine)
    requires Distinct(d)
    ensures TotalOf(d, rows + [r]) == TotalOf(d, rows) + (if r.name in d then r.amount else 0)
  {
    if d != [] {
      var p := d[..|d| - 1];
      assert d == p + [d[|d| - 1]];
      assert (rows + [r])[..|rows|] == rows;
      TotalOfAppend(p, rows, r);
    }
  }

  lemma {:induction false} TotalOfDistinctNames(rows: seq<CartLine>)
    ensures TotalOf(DistinctNames(rows), rows) == SumAmounts(rows)
  {
    if rows != [] {
      var p, r := rows[..|rows| - 1], rows[|rows| - 1];
      assert rows == p + [r];
      var d := DistinctNames(p);
      DistinctNamesMeaning(p);
      TotalOfDistinctNames(p);
      TotalOfAppend(d, p, r);
      if r.name !in d {
        assert (d + [r.name])[..|d|] == d;
        TotalForAbsent(p, r.name);
      }
    }
  }

  /** Conservation: the totals of the shopping list add up to the sum of all
      amounts the cart query returned. */
  lemma SumConserved(rows: seq<CartLine>)
    ensures SumTotals(Summary(rows)) == SumAmounts(rows)
  {
    DistinctNamesMeaning(rows);
    SumTotalsLinesFor(DistinctNames(rows), rows);
    TotalOfDistinctNames(rows);
  }

  /** The names of the list appear in the order of their first row. */
  lemma {:induction false} DistinctNamesOrder(rows: seq<CartLine>)
    ensures forall i, j :: 0 <= i < j < |DistinctNames(rows)| ==>
      && DistinctNames(rows)[i] in NameSet(rows)
      && DistinctNames(rows)[j] in NameSet(rows)
      && FirstIndex(rows, DistinctNames(rows)[i]) < FirstIndex(rows, DistinctNames(rows)[j])
  {
    DistinctNamesMeaning(rows);
    if rows != [] {
      var p := rows[..|rows| - 1];
      var d, dp := DistinctNames(rows), DistinctNames(p);
      DistinctNamesOrder(p);
      DistinctNamesMeaning(p);
      forall n | n in NameSet(p) ensures FirstIndex(rows, n) == FirstIndex(p, n) {
      }
      forall i, j | 0 <= i < j < |d| ensures FirstIndex(rows, d[i]) < FirstIndex(rows, d[j]) {
        if j == |dp| {
          assert d[i] == dp[i];
          assert d[j] !in NameSet(p);
        }
      }
    }
  }

  /** Ordering: the lines follow first occurrence in the query, not name
      order. */
  lemma FirstOccurrenceOrder(rows: seq<CartLine>)
    ensures forall i, j :: 0 <= i < j < |Summary(rows)| ==>
      FirstIndex(rows, Summary(rows)[i].name) < FirstIndex(rows, Summary(rows)[j].name)
  {
    DistinctNamesOrder(rows);
  }

  lemma {:induction false} DistinctNamesHead(rows: seq<CartLine>)
    requires rows != []
    ensures DistinctNames(rows) != [] && DistinctNames(rows)[0] == rows[0].name
  {
    if |rows| > 1 {
      var p := rows[..|rows| - 1];
      DistinctNamesHead(p);
    }
  }

  /** The list starts with the ingredient of the first row. */
  lemma FirstLineIsFirstRow(rows: seq<CartLine>)
    requires rows != []
    ensures Summary(rows) != [] && Summary(rows)[0].name == rows[0].name
  {
    DistinctNamesHead(rows);
  }

  /** An empty cart yields an empty file. */
  lemma EmptyCartEmptyReport()
    ensures Report([]) == ""
  {
  }

  lemma {:induction false} ConcatAppend(a: seq<string>, b: seq<string>)
    ensures Concat(a + b) == Concat(a) + Concat(b)
    decreases |b|
  {
    if b == [] {
      assert a + b == a;
    } else {
      var bp := b[..|b| - 1];
      assert (a + b)[..|a + b| - 1] == a + bp;
      assert (a + b)[|a + b| - 1] == b[|b| - 1];
      ConcatAppend(a, bp);
      calc {
        Concat(a + b);
        Concat(a + bp) + b[|b| - 1];
        Concat(a) + Concat(bp) + b[|b| - 1];
        Concat(a) + Concat(b);
      }
    }
  }

  /** The line of each name begins with the capitalized name, carries its
      unit between " (" and "):  ", then its total in decimal, and ends the
      line. */
  lemma LineShape(l: AggregatedLine)
    ensures var t, c := FormatLine(l), |l.name|;
      && |t| == c + |l.unit| + |ShowInt(l.total)| + 7
      && t[..c] == Capitalize(l.name)
      && t[c..c + 2] == " ("
      && t[c + 2..c + 2 + |l.unit|] == l.unit
      && t[c + 2 + |l.unit|..c + 6 + |l.unit|] == "):  "
      && t[c + 6 + |l.unit|..|t| - 1] == ShowInt(l.total)
      && ParseInt(t[c + 6 + |l.unit|..|t| - 1]) == Some(l.total)
      && t[|t| - 1] == '\n'
  {
    var name, paren, unit, close, num := Capitalize(l.name), " (", l.unit, "):  ", ShowInt(l.total);
    var t := FormatLine(l);
    var c := |l.name|;
    var u := c + 2 + |unit|;
    assert t == name + paren + unit + close + num + "\n";
    assert t[..c] == name;
    assert t[c..c + 2] == paren;
    assert t[c + 2..u] == unit;
    assert t[u..u + 4] == close;
    assert t[u + 4..|t| - 1] == num;
    ParseShowInt(l.total);
  }

  function FlourAndSaltRows(): seq<CartLine> {
    [CartLine("flour", "g", 200), CartLine("salt", "tsp", 1), CartLine("flour", "g", 300)]
  }

  /** The worked example, first half: flour twice and salt once sum to two
      lines in first-seen order. */
  lemma FlourAndSaltSummary()
    ensures Summary(FlourAndSaltRows()) == [AggregatedLine("flour", "g", 500), AggregatedLine("salt", "tsp", 1)]
  {
    var rows := FlourAndSaltRows();
    var r1, r2 := rows[..1], rows[..2];
    assert r2[..1] == r1 && rows[..2] == r2 && r1[..0] == [];
    assert NameSet(r1) == {"flour"};
    assert NameSet(r2) == {"flour", "salt"};
    assert DistinctNames(r1) == ["flour"];
    assert DistinctNames(r2) == ["flour", "salt"];
    assert DistinctNames(rows) == ["flour", "salt"];
    assert FirstIndex(rows, "flour") == 0;
    assert FirstIndex(rows, "salt") == 1;
    assert TotalFor(r1, "flour") == 200 && TotalFor(r1, "salt") == 0;
    assert TotalFor(r2, "flour") == 200 && TotalFor(r2, "salt") == 1;
    assert TotalFor(rows, "flour") == 500 && TotalFor(rows, "salt") == 1;
  }

  lemma ConcatTwo(a: string, b: string)
    ensures Concat([a, b]) == a + b
  {
    ConcatAppend([a], [b]);
    assert [a] + [b] == [a, b];
    assert [a][..0] == [] && [b][..0] == [];
  }

  lemma FlourLine()
    ensures FormatLine(AggregatedLine("flour", "g", 500)) == "Flour (g):  500\n"
  {
    assert Capitalize("flour") == "Flour";
    assert Digits(50) == "50";
    assert ShowInt(500) == "500";
  }

  lemma SaltLine()
    ensures FormatLine(AggregatedLine("salt", "tsp", 1)) == "Salt (tsp):  1\n"
  {
    assert Capitalize("salt") == "Salt";
  }

  lemma FlourAndSaltText()
    ensures Concat(FormatAll([AggregatedLine("flour", "g", 500), AggregatedLine("salt", "tsp", 1)]))
      == "Flour (g):  500\n" + "Salt (tsp):  1\n"
  {
    var l0, l1 := AggregatedLine("flour", "g", 500), AggregatedLine("salt", "tsp", 1);
    assert FormatAll([l0, l1]) == [FormatLine(l0), FormatLine(l1)];
    ConcatTwo(FormatLine(l0), FormatLine(l1));
    FlourLine();
    SaltLine();
  }

  /** The worked example, second half: the text of the downloaded file. */
  lemma FlourAndSaltReport()
    ensures Report(FlourAndSaltRows()) == "Flour (g):  500\n" + "Salt (tsp):  1\n"
  {
    FlourAndSaltSummary();
    FlourAndSaltText();
  }
}
