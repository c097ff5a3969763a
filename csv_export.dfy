/**
 * The CSV report the top bar exports: a fixed header line, then one line
 * per transaction in the order the server listed them. How JavaScript
 * prints a number is the `show` parameter.
 */
module CsvExport {
  import opened Wrappers
  import opened Ledger
  import Text

  const Headers: seq<string> :=
    ["ID", "Nama Produk", "Jumlah", "Harga Modal", "Harga Jual", "Laba/Unit", "Total", "Tanggal"]

  function HeaderLine(): string {
    Text.Join(Headers, ',')
  }

  /** The eight values of a row; only the product name is put in double quotes. */
  function RowFields(t: Transaction, show: int -> string): seq<string> {
    [show(t.id), "\"" + t.productName + "\"", show(t.quantity), show(t.costPrice),
     show(t.sellingPrice), show(t.profitPerUnit), show(t.total), t.date]
  }

  function RowLine(t: Transaction, show: int -> string): string {
    Text.Join(RowFields(t, show), ',')
  }

  function RowLines(ts: seq<Transaction>, show: int -> string): (r: seq<string>)
    ensures |r| == |ts|
    ensures forall k :: 0 <= k < |ts| ==> r[k] == RowLine(ts[k], show)
    decreases |ts|
  {
    if |ts| == 0 then [] else [RowLine(ts[0], show)] + RowLines(ts[1..], show)
  }

  /** The text of the exported file: the lines joined by newlines, with none at the end. */
  function Csv(ts: seq<Transaction>, show: int -> string): (r: string)
    ensures |ts| == 0 ==> r == HeaderLine()
    ensures |ts| > 0 ==> r == HeaderLine() + "\n" + Text.Join(RowLines(ts, show), '\n')
  {
    Text.Join([HeaderLine()] + RowLines(ts, show), '\n')
  }

  /** The CSV lines of `handleExportReport`; `None` is the "no data to export" notice. */
  method ExportReport(ts: seq<Transaction>, show: int -> string) returns (csv: Option<string>)
    ensures csv.None? <==> |ts| == 0
    ensures csv.Some? ==> csv.value == Csv(ts, show)
  {
    if |ts| == 0 {
      return None;
    }
    var csvRows := [Text.Join(Headers, ',')];
    var i := 0;
    while i < |ts|
      invariant 0 <= i <= |ts|
      invariant csvRows == [HeaderLine()] + RowLines(ts[..i], show)
    {
      var t := ts[i];
      var row := [show(t.id), "\"" + t.productName + "\"", show(t.quantity), show(t.costPrice),
                  show(t.sellingPrice), show(t.profitPerUnit), show(t.total), t.date];
      assert row == RowFields(t, show);
      var line := Text.Join(row, ',');
      assert line == RowLine(t, show);
      ExportStep(ts, i, show);
      csvRows := csvRows + [line];
      i := i + 1;
    }
    assert ts[..i] == ts;
    csv := Some(Text.Join(csvRows, '\n'));
  }

  /** The lines for one more row are the lines so far and that row's line. */
  lemma ExportStep(ts: seq<Transaction>, i: int, show: int -> string)
    requires 0 <= i < |ts|
    ensures [HeaderLine()] + RowLines(ts[..i + 1], show)
      == [HeaderLine()] + RowLines(ts[..i], show) + [RowLine(ts[i], show)]
  {
    assert ts[..i + 1] == ts[..i] + [ts[i]];
    RowLinesSnoc(ts[..i], ts[i], show);
  }

  lemma RowLinesSnoc(ts: seq<Transaction>, t: Transaction, show: int -> string)
    ensures RowLines(ts + [t], show) == RowLines(ts, show) + [RowLine(t, show)]
  {
  }

  /** No value of the row holds the character `c`. */
  predicate FieldsAvoid(t: Transaction, show: int -> string, c: char) {
    forall k :: 0 <= k < |RowFields(t, show)| ==> c !in RowFields(t, show)[k]
  }

  /**
   * When no value holds a newline the file reads back as the header line
   * followed by exactly one line per transaction, in order.
   */
  lemma CsvLines(ts: seq<Transaction>, show: int -> string)
    requires forall t :: t in ts ==> FieldsAvoid(t, show, '\n')
    ensures Text.Split(Csv(ts, show), '\n') == [HeaderLine()] + RowLines(ts, show)
    ensures |Text.Split(Csv(ts, show), '\n')| == |ts| + 1
  {
    var lines := [HeaderLine()] + RowLines(ts, show);
    HeaderHasNoNewline();
    forall k | 0 <= k < |lines| ensures '\n' !in lines[k] {
      if k > 0 {
        assert ts[k - 1] in ts;
        JoinFree(RowFields(ts[k - 1], show), ',', '\n');
      }
    }
    Text.SplitJoin(lines, '\n');
  }

  /**
   * When no value holds a comma each row reads back as its eight values,
   * the product name in quotes and no other value changed.
   */
  lemma RowReadsBack(t: Transaction, show: int -> string)
    requires FieldsAvoid(t, show, ',')
    ensures Text.Split(RowLine(t, show), ',') == RowFields(t, show)
    ensures |Text.Split(RowLine(t, show), ',')| == |Headers|
    ensures Text.Split(RowLine(t, show), ',')[1] == "\"" + t.productName + "\""
  {
    Text.SplitJoin(RowFields(t, show), ',');
  }

  lemma HeaderReadsBack()
    ensures Text.Split(HeaderLine(), ',') == Headers
  {
    Text.SplitJoin(Headers, ',');
  }

  lemma HeaderHasNoNewline()
    ensures '\n' !in HeaderLine()
  {
    forall k | 0 <= k < |Headers| ensures '\n' !in Headers[k] {
    }
    JoinFree(Headers, ',', '\n');
  }

  /** Joining lines free of `c` with a separator other than `c` gives a line free of `c`. */
  lemma {:induction false} JoinFree(lines: seq<string>, sep: char, c: char)
    requires sep != c
    requires forall k :: 0 <= k < |lines| ==> c !in lines[k]
    ensures c !in Text.Join(lines, sep)
    decreases |lines|
  {
    if |lines| > 1 {
      JoinFree(lines[1..], sep, c);
    }
  }
}
