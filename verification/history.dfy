/**
 The session history kept in device storage under `li_history`: a list of
 entries capped to the most recent 200, appended to by the timer page,
 cleared and exported as CSV by the history page. The storage itself (JSON
 text, a parse failure reading as the empty list) is outside the model: the
 store is the list it holds.
 */
module History {
  import opened Core
  import opened Decimal
  import Csv

  /** One stored record. `sessionLabel` (the program's `label`) and `description` may be missing in what storage holds. */
  datatype Entry = Entry(
    date: string,
    minutes: int,
    outcome: string,
    sessionLabel: Option<string>,
    description: Option<string>)

  /** Entries kept by `saveHistory`. */
  const Cap: nat := 200

  /** `list.slice(-200)`: the last `min(200, n)` entries, in their original order. */
  function Save(list: seq<Entry>): (r: seq<Entry>)
    ensures |r| == Min(Cap, |list|)
    ensures r == list[|list| - |r|..]
  {
    if |list| <= Cap then list else list[|list| - Cap..]
  }

  /** `addHistory`: push onto the stored list, then save. */
  function Add(list: seq<Entry>, item: Entry): (r: seq<Entry>)
    ensures |r| == Min(Cap, |list| + 1)
    ensures r[|r| - 1] == item
    ensures r[..|r| - 1] == list[|list| - (|r| - 1)..]
    ensures |list| < Cap ==> r == list + [item]
  {
    var r := Save(list + [item]);
    assert r[..|r| - 1] == (list + [item])[|list| + 1 - |r|..|list|];
    r
  }

  /** `clearHistory`: empties the store only when the user confirms. */
  function Clear(list: seq<Entry>, confirmed: bool): (r: seq<Entry>)
    ensures confirmed ==> |r| == 0
    ensures !confirmed ==> r == list
  {
    if confirmed then [] else list
  }

  /** Saving what was saved changes nothing. */
  lemma SaveIdempotent(list: seq<Entry>)
    ensures Save(Save(list)) == Save(list)
  {
  }

  /** Capping before appending more loses nothing the later cap would keep. */
  lemma SaveThenAppend(a: seq<Entry>, b: seq<Entry>)
    ensures Save(Save(a) + b) == Save(a + b)
  {
    var sa := Save(a);
    var x, y := Save(sa + b), Save(a + b);
    assert |x| == |y|;
    forall i | 0 <= i < |x|
      ensures x[i] == y[i]
    {
      var k := |b| - |x| + i;
      if k >= 0 {
        assert x[i] == b[k] && y[i] == b[k];
      } else {
        assert x[i] == sa[|sa| + k] && y[i] == a[|a| + k];
      }
    }
  }

  /** `addHistory` applied to each item in turn. */
  function AddAll(list: seq<Entry>, items: seq<Entry>): seq<Entry>
    decreases |items|
  {
    if |items| == 0 then list else AddAll(Add(list, items[0]), items[1..])
  }

  /** However many sessions append to a stored list, the store ends up holding
      the last 200 of everything: no append loses a more recent entry. */
  lemma {:induction false} AddAllKeepsLatest(list: seq<Entry>, items: seq<Entry>)
    requires |list| <= Cap
    ensures AddAll(list, items) == Save(list + items)
    decreases |items|
  {
    if |items| == 0 {
      assert list + items == list;
    } else {
      var x, rest := items[0], items[1..];
      var added := Add(list, x);
      AddAllKeepsLatest(added, rest);
      SaveThenAppend(list + [x], rest);
      ConsAppend(list, x, rest, items);
    }
  }

  lemma ConsAppend(list: seq<Entry>, x: Entry, rest: seq<Entry>, items: seq<Entry>)
    requires |items| > 0 && x == items[0] && rest == items[1..]
    ensures list + [x] + rest == list + items
  {
    assert items == [x] + rest;
  }

  // ---------------------------------------------------------------------------
  // Export
  // ---------------------------------------------------------------------------

  const Header: seq<string> := ["Date", "Minutes", "Outcome", "Label", "Description"]

  /** `i.label || ''` and `i.description || ''`. */
  function OrEmpty(v: Option<string>): string {
    v.GetOr("")
  }

  /** The five exported values of an entry, each as `String(v)`. */
  function Cells(e: Entry): (r: seq<string>)
    ensures |r| == |Header|
  {
    [e.date, IntToString(e.minutes), e.outcome, OrEmpty(e.sessionLabel), OrEmpty(e.description)]
  }

  function CellRows(list: seq<Entry>): (r: seq<seq<string>>)
    ensures |r| == |list|
    ensures forall i :: 0 <= i < |list| ==> r[i] == Cells(list[i])
  {
    if |list| == 0 then [] else [Cells(list[0])] + CellRows(list[1..])
  }

  /** `exportCSV`: the header row, then one row per stored entry, in stored
      order. Reading the text back gives exactly those rows, quotes, commas and
      line feeds in values included. */
  function ExportCsv(list: seq<Entry>): (r: string)
    ensures Csv.ParseCsv(r) == Some([Header] + CellRows(list))
  {
    var rows := [Header] + CellRows(list);
    RowsNonEmpty(list);
    Csv.CsvRoundTrip(rows);
    Csv.CsvText(rows)
  }

  /** The header and every entry's row have fields. */
  lemma RowsNonEmpty(list: seq<Entry>)
    ensures var rows := [Header] + CellRows(list);
      forall i :: 0 <= i < |rows| ==> |rows[i]| > 0
  {
    var rows := [Header] + CellRows(list);
    forall i | 0 <= i < |rows|
      ensures |rows[i]| > 0
    {
      if i > 0 {
        assert rows[i] == Cells(list[i - 1]);
      }
    }
  }

  /** What a reader of an exported row recovers: the tuple the row was written from. */
  datatype Exported = Exported(date: string, minutes: int, outcome: string, sessionLabel: string, description: string)

  function DecodeRow(row: seq<string>): Option<Exported> {
    if |row| != 5 then None
    else match ParseInt(row[1])
      case None => None
      case Some(m) => Some(Exported(row[0], m, row[2], row[3], row[4]))
  }

  function Expected(e: Entry): Exported {
    Exported(e.date, e.minutes, e.outcome, OrEmpty(e.sessionLabel), OrEmpty(e.description))
  }

  /** Each exported row decodes to its entry's tuple; a missing label or
      description comes back as the empty string. */
  lemma ExportedRowDecodes(e: Entry)
    ensures DecodeRow(Cells(e)) == Some(Expected(e))
    ensures e.sessionLabel.None? ==> Cells(e)[3] == ""
    ensures e.description.None? ==> Cells(e)[4] == ""
  {
    IntToStringRoundTrip(e.minutes);
  }

  /** After a confirmed clear the export is the header row alone; an unconfirmed
      clear leaves the export as it was. */
  lemma ClearExport(list: seq<Entry>, confirmed: bool)
    ensures confirmed ==> Csv.ParseCsv(ExportCsv(Clear(list, confirmed))) == Some([Header])
    ensures !confirmed ==> ExportCsv(Clear(list, confirmed)) == ExportCsv(list)
  {
    assert [Header] + CellRows([]) == [Header];
  }
}
