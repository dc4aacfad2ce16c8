// The CSV side of the export service: the quoted-field line parser, the
// quoting the exporters apply (a field wrapped in double quotes with each
// inner quote doubled, as in section 2 of RFC 4180), the subscription and
// expense rows the exporters write, the date normaliser, and the mapping of
// imported rows to subscriptions.

module Csv {
  import opened Common
  import opened Schema

  // ---------------------------------------------------------------------
  // parseCsvLine
  // ---------------------------------------------------------------------

  /** The parser as a state machine over what is left of the line: the
      quote state, the field being built, and the fields finished so far
      (untrimmed; the parser trims each one as it is finished, which
      `Fields` does at the end). Inside quotes `""` stands for one quote and
      a lone quote closes; outside quotes a quote opens and a comma ends the
      field. */
  function Scan(s: string, inQuotes: bool, current: string, fields: seq<string>): (r: seq<string>)
    ensures |r| > |fields|
    decreases |s|
  {
    if s == [] then fields + [current]
    else if inQuotes then
      if s[0] == '"' then
        if |s| >= 2 && s[1] == '"' then Scan(s[2..], true, current + ['"'], fields)
        else Scan(s[1..], false, current, fields)
      else Scan(s[1..], true, current + [s[0]], fields)
    else if s[0] == '"' then Scan(s[1..], true, current, fields)
    else if s[0] == ',' then Scan(s[1..], false, [], fields + [current])
    else Scan(s[1..], false, current + [s[0]], fields)
  }

  /** The cells of one CSV line, before trimming. */
  function Cells(line: string): (r: seq<string>)
    ensures |r| >= 1
  {
    Scan(line, false, [], [])
  }

  /** The fields of one CSV line. */
  function Fields(line: string): (r: seq<string>)
    ensures |r| >= 1
  {
    TrimAll(Cells(line))
  }

  /** parseCsvLine: one pass over the characters, looking one ahead for `""`. */
  method ParseCsvLine(line: string) returns (fields: seq<string>)
    ensures fields == Fields(line)
  {
    fields := [];
    ghost var cells: seq<string> := [];
    var current: string := [];
    var inQuotes := false;
    var i := 0;
    while i < |line|
      invariant 0 <= i <= |line|
      invariant Scan(line[i..], inQuotes, current, cells) == Cells(line)
      invariant fields == TrimAll(cells)
    {
      var ch := line[i];
      if inQuotes {
        if ch == '"' {
          if i + 1 < |line| && line[i + 1] == '"' {
            current := current + ['"'];
            i := i + 1;
          } else {
            inQuotes := false;
          }
        } else {
          current := current + [ch];
        }
      } else {
        if ch == '"' {
          inQuotes := true;
        } else if ch == ',' {
          TrimAllAppend(cells, [current]);
          fields := fields + [Trim(current)];
          cells := cells + [current];
          current := [];
        } else {
          current := current + [ch];
        }
      }
      i := i + 1;
    }
    TrimAllAppend(cells, [current]);
    fields := fields + [Trim(current)];
  }

  predicate AllTrimmed(fields: seq<string>)
  {
    forall i :: 0 <= i < |fields| ==> Trim(fields[i]) == fields[i]
  }

  /** Every field the parser produces is already trimmed. */
  lemma FieldsAreTrimmed(line: string)
    ensures AllTrimmed(Fields(line))
  {
    var f := Fields(line);
    forall i | 0 <= i < |f|
      ensures Trim(f[i]) == f[i]
    {
      TrimIdempotent(Cells(line)[i]);
    }
  }

  /** The pieces of a split with `current` glued to the first one. */
  function Prepend(current: string, pieces: seq<string>): (r: seq<string>)
    requires |pieces| >= 1
    ensures |r| == |pieces|
  {
    [current + pieces[0]] + pieces[1..]
  }

  /** After a comma the cell in progress is finished and the next piece
      starts empty. */
  lemma CommaPieces(current: string, tail: seq<string>, fields: seq<string>)
    requires |tail| >= 1
    ensures var pieces := Prepend(current, [[]] + tail);
      var inner := Prepend([], tail);
      pieces[|pieces| - 1] == inner[|inner| - 1]
      && fields + pieces[..|pieces| - 1] == (fields + [current]) + inner[..|inner| - 1]
  {
    var n := |tail|;
    var pieces := Prepend(current, [[]] + tail);
    assert Prepend([], tail) == tail by {
      assert [] + tail[0] == tail[0];
    }
    assert pieces == [current] + tail by {
      assert current + [] == current;
    }
    assert pieces[..n] == [current] + tail[..n - 1];
  }

  /** Any other character joins the cell in progress. */
  lemma CharPieces(current: string, c: char, tail: seq<string>)
    requires |tail| >= 1
    ensures Prepend(current, [[c] + tail[0]] + tail[1..]) == Prepend(current + [c], tail)
  {
    assert current + ([c] + tail[0]) == current + [c] + tail[0];
  }

  /** Text without quotes is cut at every comma: all pieces but the last
      become cells and the last one is left as the cell in progress. */
  lemma {:induction false} ScanPlain(p: string, rest: string, current: string, fields: seq<string>)
    requires '"' !in p
    ensures var pieces := Prepend(current, SplitOn(p, ','));
      Scan(p + rest, false, current, fields)
        == Scan(rest, false, pieces[|pieces| - 1], fields + pieces[..|pieces| - 1])
    decreases |p|
  {
    var pieces := Prepend(current, SplitOn(p, ','));
    if p == [] {
      assert p + rest == rest;
      assert SplitOn(p, ',') == [[]];
      assert current + [] == current;
      assert pieces == [current];
      assert fields + pieces[..0] == fields;
    } else {
      var tail := SplitOn(p[1..], ',');
      var n := |tail|;
      assert (p + rest)[1..] == p[1..] + rest;
      if p[0] == ',' {
        assert Scan(p + rest, false, current, fields) == Scan(p[1..] + rest, false, [], fields + [current]);
        ScanPlain(p[1..], rest, [], fields + [current]);
        assert SplitOn(p, ',') == [[]] + tail;
        CommaPieces(current, tail, fields);
      } else {
        assert Scan(p + rest, false, current, fields) == Scan(p[1..] + rest, false, current + [p[0]], fields);
        ScanPlain(p[1..], rest, current + [p[0]], fields);
        assert SplitOn(p, ',') == [[p[0]] + tail[0]] + tail[1..];
        CharPieces(current, p[0], tail);
      }
    }
  }

  /** A line without quotes is its comma-separated pieces; so it has one
      field more than it has commas. */
  lemma CellsWithoutQuotes(line: string)
    requires '"' !in line
    ensures Cells(line) == SplitOn(line, ',')
  {
    var split := SplitOn(line, ',');
    ScanPlain(line, [], [], []);
    assert line + [] == line;
    PrependNothing(split);
  }

  /** Gluing nothing to the first piece, then taking the pieces apart at
      the last one and putting them back, gives the pieces. */
  lemma PrependNothing(pieces: seq<string>)
    requires |pieces| >= 1
    ensures var p := Prepend([], pieces);
      Scan([], false, p[|p| - 1], [] + p[..|p| - 1]) == pieces
  {
    var p := Prepend([], pieces);
    assert p == pieces by {
      assert [] + pieces[0] == pieces[0];
    }
    assert p[..|p| - 1] + [p[|p| - 1]] == p;
  }

  // ---------------------------------------------------------------------
  // Quoting, as the exporters write a text field
  // ---------------------------------------------------------------------

  /** `s.replace(/"/g, '""')`. */
  function Escape(s: string): (r: string)
    ensures |r| >= |s|
  {
    if s == [] then []
    else if s[0] == '"' then "\"\"" + Escape(s[1..])
    else [s[0]] + Escape(s[1..])
  }

  /** A field wrapped in quotes with its inner quotes doubled. */
  function Quote(s: string): (r: string)
    ensures |r| >= 2 && r[0] == '"' && r[|r| - 1] == '"'
  {
    "\"" + Escape(s) + "\""
  }

  /** Inside quotes, the escaped text reads back as the original text. */
  lemma {:induction false} ScanEscaped(s: string, rest: string, current: string, fields: seq<string>)
    ensures Scan(Escape(s) + rest, true, current, fields) == Scan(rest, true, current + s, fields)
    decreases |s|
  {
    if s == [] {
      assert Escape(s) + rest == rest;
      assert current + s == current;
    } else {
      ScanEscapedFirst(s, rest, current, fields);
      ScanEscaped(s[1..], rest, current + [s[0]], fields);
      assert current + [s[0]] + s[1..] == current + s;
    }
  }

  /** Inside quotes, the escape of the first character reads back as that character. */
  lemma ScanEscapedFirst(s: string, rest: string, current: string, fields: seq<string>)
    requires s != []
    ensures Scan(Escape(s) + rest, true, current, fields) == Scan(Escape(s[1..]) + rest, true, current + [s[0]], fields)
  {
    var t := Escape(s) + rest;
    if s[0] == '"' {
      assert t == "\"\"" + (Escape(s[1..]) + rest);
      assert t[2..] == Escape(s[1..]) + rest;
    } else {
      assert t == [s[0]] + (Escape(s[1..]) + rest);
      assert t[1..] == Escape(s[1..]) + rest;
    }
  }

  /** A quoted field followed by anything but another quote leaves its text
      as the field in progress, outside quotes. */
  lemma ScanQuoted(s: string, rest: string, fields: seq<string>)
    requires rest == [] || rest[0] != '"'
    ensures Scan(Quote(s) + rest, false, [], fields) == Scan(rest, false, s, fields)
  {
    var t := Quote(s) + rest;
    assert t[1..] == Escape(s) + ("\"" + rest);
    ScanEscaped(s, "\"" + rest, [], fields);
    assert [] + s == s;
    assert ("\"" + rest)[1..] == rest;
  }

  /** A quoted name is read as one cell holding the name. */
  lemma QuotedCell(name: string)
    ensures Cells(Quote(name)) == [name]
  {
    var q := Quote(name);
    ScanQuoted(name, [], []);
    assert q + [] == q;
  }

  /** A quoted name reads back as itself: its quotes, commas and line
      content survive, only surrounding whitespace is trimmed. */
  lemma QuotedFieldRoundTrip(name: string)
    ensures Cells(Quote(name)) == [name]
    ensures Fields(Quote(name)) == [Trim(name)]
  {
    QuotedCell(name);
    TrimOne(name);
  }

  lemma TrimOne(name: string)
    ensures TrimAll([name]) == [Trim(name)]
  {
  }

  /** A row whose every cell is quoted. */
  function QuotedRow(cells: seq<string>): string
  {
    Join(QuoteAll(cells), ",")
  }

  function QuoteAll(cells: seq<string>): seq<string>
  {
    seq(|cells|, i requires 0 <= i < |cells| => Quote(cells[i]))
  }

  /** Reading a row of quoted cells back gives every cell, trimmed. */
  lemma QuotedRowRoundTrip(cells: seq<string>)
    requires |cells| >= 1
    ensures Cells(QuotedRow(cells)) == cells
    ensures Fields(QuotedRow(cells)) == TrimAll(cells)
  {
    ScanQuotedRow(cells, []);
    assert [] + cells == cells;
  }

  lemma {:induction false} ScanQuotedRow(cells: seq<string>, fields: seq<string>)
    requires |cells| >= 1
    ensures Scan(QuotedRow(cells), false, [], fields) == fields + cells
    decreases |cells|
  {
    var quoted := QuoteAll(cells);
    if |cells| == 1 {
      ScanQuoted(cells[0], [], fields);
      assert Quote(cells[0]) + [] == Quote(cells[0]);
    } else {
      assert QuoteAll(cells[1..]) == quoted[1..];
      var tail := Join(quoted[1..], ",");
      assert QuotedRow(cells) == Quote(cells[0]) + ("," + tail);
      ScanQuoted(cells[0], "," + tail, fields);
      assert ("," + tail)[1..] == tail;
      ScanQuotedRow(cells[1..], fields + [cells[0]]);
      assert fields + [cells[0]] + cells[1..] == fields + cells;
    }
  }

  // ---------------------------------------------------------------------
  // Rows of mixed quoted and bare cells
  // ---------------------------------------------------------------------

  /** A cell as an exporter writes it: quoted, or pasted in bare. */
  datatype Cell = Quoted(text: string) | Bare(text: string)
  {
    function Render(): string
    {
      if Quoted? then Quote(text) else text
    }

    /** The cells the parser reads from this one alone. */
    function ReadBack(): (r: seq<string>)
      ensures |r| >= 1
    {
      if Quoted? then [text] else SplitOn(text, ',')
    }
  }

  function RenderAll(cells: seq<Cell>): seq<string>
  {
    seq(|cells|, i requires 0 <= i < |cells| => cells[i].Render())
  }

  function ReadBackAll(cells: seq<Cell>): (r: seq<string>)
    ensures |r| >= |cells|
  {
    if cells == [] then [] else cells[0].ReadBack() + ReadBackAll(cells[1..])
  }

  predicate Unquoted(c: Cell)
  {
    c.Bare? ==> '"' !in c.text
  }

  /** One cell followed by the end of the line or by a comma. */
  lemma ScanCell(c: Cell, rest: string, fields: seq<string>)
    requires Unquoted(c)
    requires rest == [] || rest[0] == ','
    ensures var back := c.ReadBack();
      Scan(c.Render() + rest, false, [], fields) == Scan(rest, false, back[|back| - 1], fields + back[..|back| - 1])
  {
    var back := c.ReadBack();
    if c.Quoted? {
      ScanQuoted(c.text, rest, fields);
      assert back[..0] == [];
      assert fields + [] == fields;
    } else {
      ScanPlain(c.text, rest, [], fields);
      assert Prepend([], back) == back by {
        assert [] + back[0] == back[0];
      }
    }
  }

  /** How a line of cells joined by commas reads back: a quoted cell is one
      field, a bare cell is as many fields as it has commas plus one. */
  lemma {:induction false} ScanCells(cells: seq<Cell>, fields: seq<string>)
    requires |cells| >= 1
    requires forall i :: 0 <= i < |cells| ==> Unquoted(cells[i])
    ensures Scan(Join(RenderAll(cells), ","), false, [], fields) == fields + ReadBackAll(cells)
    decreases |cells|
  {
    var c := cells[0];
    if |cells| == 1 {
      OneCell(cells, fields);
    } else {
      var tail := Join(RenderAll(cells[1..]), ",");
      calc {
        Scan(Join(RenderAll(cells), ","), false, [], fields);
        { JoinRenderedCons(cells); }
        Scan(c.Render() + ("," + tail), false, [], fields);
        { CellThenComma(c, tail, fields); }
        Scan(tail, false, [], fields + c.ReadBack());
        { ScanCells(cells[1..], fields + c.ReadBack()); }
        fields + c.ReadBack() + ReadBackAll(cells[1..]);
        { ReadBackAllCons(cells); }
        fields + ReadBackAll(cells);
      }
    }
  }

  lemma OneCell(cells: seq<Cell>, fields: seq<string>)
    requires |cells| == 1 && Unquoted(cells[0])
    ensures Scan(Join(RenderAll(cells), ","), false, [], fields) == fields + ReadBackAll(cells)
  {
    assert Join(RenderAll(cells), ",") == cells[0].Render();
    LastCell(cells[0], fields);
    assert ReadBackAll(cells) == cells[0].ReadBack() + ReadBackAll([]);
  }

  lemma ReadBackAllCons(cells: seq<Cell>)
    requires |cells| >= 1
    ensures ReadBackAll(cells) == cells[0].ReadBack() + ReadBackAll(cells[1..])
  {
  }

  /** The last cell of a line closes the line with its fields. */
  lemma LastCell(c: Cell, fields: seq<string>)
    requires Unquoted(c)
    ensures Scan(c.Render(), false, [], fields) == fields + c.ReadBack()
  {
    var back := c.ReadBack();
    ScanCell(c, [], fields);
    assert c.Render() + [] == c.Render();
    assert fields + back[..|back| - 1] + [back[|back| - 1]] == fields + back;
  }

  /** A cell followed by a comma adds all its fields and starts a new one. */
  lemma CellThenComma(c: Cell, tail: string, fields: seq<string>)
    requires Unquoted(c)
    ensures Scan(c.Render() + ("," + tail), false, [], fields) == Scan(tail, false, [], fields + c.ReadBack())
  {
    var back := c.ReadBack();
    var last := back[|back| - 1];
    var done := fields + back[..|back| - 1];
    ScanCell(c, "," + tail, fields);
    ScanComma(tail, last, done);
    assert done + [last] == fields + back;
  }

  /** A line of two or more cells is the first cell, a comma, and the rest. */
  lemma JoinRenderedCons(cells: seq<Cell>)
    requires |cells| >= 2
    ensures Join(RenderAll(cells), ",") == cells[0].Render() + ("," + Join(RenderAll(cells[1..]), ","))
  {
    var rendered := RenderAll(cells);
    assert RenderAll(cells[1..]) == rendered[1..];
  }

  /** A comma outside quotes closes the field in progress. */
  lemma ScanComma(tail: string, current: string, fields: seq<string>)
    ensures Scan("," + tail, false, current, fields) == Scan(tail, false, [], fields + [current])
  {
    assert ("," + tail)[1..] == tail;
  }

  lemma {:induction false} ReadBackAllLength(cells: seq<Cell>, k: nat)
    requires k < |cells| && ',' in cells[k].text && cells[k].Bare?
    ensures |ReadBackAll(cells)| > |cells|
    decreases |cells|
  {
    if k == 0 {
      SplitOnCountsCommas(cells[0].text);
    } else {
      ReadBackAllLength(cells[1..], k - 1);
    }
  }

  lemma {:induction false} SplitOnCountsCommas(s: string)
    requires ',' in s
    ensures |SplitOn(s, ',')| >= 2
  {
    if s[0] != ',' {
      SplitOnCountsCommas(s[1..]);
    }
  }

  // ---------------------------------------------------------------------
  // The exporters' rows
  // ---------------------------------------------------------------------

  /** An id with a display text (`{id, name}`, or `{id, code}` for currencies). */
  datatype Named = Named(id: string, name: string)

  /** `items.find(x => x.id === id)?.name || ""`. */
  function NameFor(items: seq<Named>, id: string): (r: string)
    ensures r != [] ==> exists i :: 0 <= i < |items| && items[i].id == id && items[i].name == r
    ensures (forall i :: 0 <= i < |items| ==> items[i].id != id) ==> r == []
  {
    if items == [] then ""
    else if items[0].id == id then items[0].name
    else NameFor(items[1..], id)
  }

  function CycleName(cycle: int): string
  {
    if cycle == 1 then "Daily" else if cycle == 2 then "Weekly"
    else if cycle == 3 then "Monthly" else if cycle == 4 then "Yearly" else ""
  }

  function YesNo(b: bool): string
  {
    if b then "Yes" else "No"
  }

  const SubscriptionHeaders: seq<string> := [
    "Name", "Price", "Currency", "Cycle", "Frequency", "Next Payment",
    "Start Date", "Auto Renew", "Category", "Payment Method", "Paid By",
    "Notes", "URL", "Inactive"]

  const ExpenseHeaders: seq<string> := [
    "Name", "Amount", "Currency", "Date", "Category", "Payment Method", "Paid By", "Tags", "Notes"]

  /** The lookup tables the exporters receive. */
  datatype Lookups = Lookups(categories: seq<Named>, currencies: seq<Named>, paymentMethods: seq<Named>,
                             household: seq<Named>)

  /** exportAsCsv's cells for one subscription, as written: only the name
      and the notes are quoted. `priceText` is `s.price.toString()`. */
  function SubscriptionCells(s: Subscription, priceText: string, t: Lookups): (r: seq<Cell>)
    ensures |r| == |SubscriptionHeaders|
    ensures r[0] == Quoted(s.name) && r[11] == Quoted(s.notes)
    ensures forall i :: 0 <= i < |r| && i != 0 && i != 11 ==> r[i].Bare?
  {
    [Quoted(s.name), Bare(priceText), Bare(NameFor(t.currencies, s.currencyId)),
     Bare(CycleName(s.cycle)), Bare(IntToString(s.frequency)), Bare(s.nextPayment), Bare(s.startDate),
     Bare(YesNo(s.autoRenew)), Bare(NameFor(t.categories, s.categoryId)),
     Bare(NameFor(t.paymentMethods, s.paymentMethodId)), Bare(NameFor(t.household, s.payerUserId)),
     Quoted(s.notes), Bare(s.url), Bare(YesNo(s.inactive))]
  }

  /** One line of exportAsCsv's output. */
  function SubscriptionLine(s: Subscription, priceText: string, t: Lookups): string
  {
    Join(RenderAll(SubscriptionCells(s, priceText, t)), ",")
  }

  /** exportAsCsv's text: the header line, then one line per subscription. */
  function SubscriptionsCsv(subs: seq<Subscription>, priceText: Subscription -> string, t: Lookups): string
  {
    Join([Join(SubscriptionHeaders, ",")] + SubscriptionLines(subs, priceText, t), "\n")
  }

  function SubscriptionLines(subs: seq<Subscription>, priceText: Subscription -> string, t: Lookups): seq<string>
  {
    seq(|subs|, i requires 0 <= i < |subs| => SubscriptionLine(subs[i], priceText(subs[i]), t))
  }

  /** exportExpensesCsv's cells for one expense: the name and notes are
      escaped and quoted, the tags are joined with ", " and quoted without
      escaping. */
  function ExpenseCells(e: Expense, amountText: string, t: Lookups): (r: seq<string>)
    ensures |r| == |ExpenseHeaders|
    ensures r[0] == Quote(e.name) && r[8] == Quote(e.notes)
    ensures r[7] == "\"" + Join(e.tags, ", ") + "\""
  {
    [Quote(e.name), amountText, NameFor(t.currencies, e.currencyId), e.date,
     NameFor(t.categories, e.categoryId), NameFor(t.paymentMethods, e.paymentMethodId),
     NameFor(t.household, e.payerUserId), "\"" + Join(e.tags, ", ") + "\"", Quote(e.notes)]
  }

  function CellTexts(cells: seq<Cell>): seq<string>
  {
    seq(|cells|, i requires 0 <= i < |cells| => cells[i].text)
  }

  /** A subscription line reads back cell for cell as long as no bare cell
      holds a comma or a quote. */
  lemma SubscriptionLineReadsBack(s: Subscription, priceText: string, t: Lookups)
    requires forall c :: c in SubscriptionCells(s, priceText, t) && c.Bare? ==> '"' !in c.text && ',' !in c.text
    ensures Cells(SubscriptionLine(s, priceText, t)) == CellTexts(SubscriptionCells(s, priceText, t))
  {
    var cells := SubscriptionCells(s, priceText, t);
    CellsUnquoted(cells);
    ScanCells(cells, []);
    ReadBackSingles(cells);
    assert [] + ReadBackAll(cells) == ReadBackAll(cells);
  }

  lemma {:induction false} ReadBackSingles(cells: seq<Cell>)
    requires forall c :: c in cells && c.Bare? ==> ',' !in c.text
    ensures ReadBackAll(cells) == CellTexts(cells)
    decreases |cells|
  {
    if cells != [] {
      assert cells[0] in cells;
      if cells[0].Bare? {
        SplitOnNoSeparator(cells[0].text, ',');
      }
      forall c | c in cells[1..] && c.Bare?
        ensures ',' !in c.text
      {
        assert c in cells;
      }
      ReadBackSingles(cells[1..]);
    }
  }

  /** exportAsCsv's line with every cell quoted. */
  function CorrectedSubscriptionLine(s: Subscription, priceText: string, t: Lookups): string
  {
    QuotedRow(CellTexts(SubscriptionCells(s, priceText, t)))
  }

  /** With every cell quoted, each of the fourteen columns reads back as
      written, whatever commas and quotes the names contain. */
  lemma CorrectedLineReadsBack(s: Subscription, priceText: string, t: Lookups)
    ensures Cells(CorrectedSubscriptionLine(s, priceText, t)) == CellTexts(SubscriptionCells(s, priceText, t))
    ensures |Fields(CorrectedSubscriptionLine(s, priceText, t))| == |SubscriptionHeaders|
  {
    QuotedRowRoundTrip(CellTexts(SubscriptionCells(s, priceText, t)));
  }

  /** As written, a category name with a comma in it (and no quotes in the
      bare cells) makes the line read back with more columns than the
      header, so every later column shifts. */
  lemma CategoryWithCommaShiftsColumns(s: Subscription, priceText: string, t: Lookups)
    requires forall c :: c in SubscriptionCells(s, priceText, t) && c.Bare? ==> '"' !in c.text
    requires ',' in NameFor(t.categories, s.categoryId)
    ensures |Fields(SubscriptionLine(s, priceText, t))| > |SubscriptionHeaders|
  {
    var cells := SubscriptionCells(s, priceText, t);
    var line := SubscriptionLine(s, priceText, t);
    CellsUnquoted(cells);
    ScanCells(cells, []);
    assert Cells(line) == ReadBackAll(cells) by {
      assert [] + ReadBackAll(cells) == ReadBackAll(cells);
    }
    assert cells[8] == Bare(NameFor(t.categories, s.categoryId));
    ReadBackAllLength(cells, 8);
  }

  lemma CellsUnquoted(cells: seq<Cell>)
    requires forall c :: c in cells && c.Bare? ==> '"' !in c.text
    ensures forall i :: 0 <= i < |cells| ==> Unquoted(cells[i])
  {
    forall i | 0 <= i < |cells|
      ensures Unquoted(cells[i])
    {
      assert cells[i] in cells;
    }
  }

  // ---------------------------------------------------------------------
  // normalizeDate
  // ---------------------------------------------------------------------

  predicate AllDigits(s: string)
  {
    forall i :: 0 <= i < |s| ==> IsDigit(s[i])
  }

  /** `/^\d{4}-\d{2}-\d{2}/`: the text starts with a calendar date. */
  predicate IsoPrefixed(s: string)
  {
    |s| >= 10 && AllDigits(s[..4]) && s[4] == '-' && AllDigits(s[5..7]) && s[7] == '-' && AllDigits(s[8..10])
  }

  /** `padStart(2, "0")` on one or two digits. */
  function Pad2(s: string): (r: string)
    ensures |s| == 1 ==> r == "0" + s
    ensures |s| >= 2 ==> r == s
  {
    if |s| < 2 then "0" + s else s
  }

  /** `^(\d{1,2})<sep>(\d{1,2})<sep>(\d{4})$`: the three groups. */
  function DateGroups(s: string, sep: char): (r: Option<(string, string, string)>)
    requires !IsDigit(sep)
    ensures r.Some? ==> 1 <= |r.value.0| <= 2 && 1 <= |r.value.1| <= 2 && |r.value.2| == 4
    ensures r.Some? ==> AllDigits(r.value.0) && AllDigits(r.value.1) && AllDigits(r.value.2)
    ensures r.Some? ==> s == r.value.0 + [sep] + r.value.1 + [sep] + r.value.2
  {
    var parts := SplitOn(s, sep);
    if |parts| == 3 && 1 <= |parts[0]| <= 2 && 1 <= |parts[1]| <= 2 && |parts[2]| == 4
       && AllDigits(parts[0]) && AllDigits(parts[1]) && AllDigits(parts[2])
    then
      JoinSplitOn(s, sep);
      assert Join(parts[2..], [sep]) == parts[2];
      assert Join(parts[1..], [sep]) == parts[1] + [sep] + parts[2];
      assert Join(parts, [sep]) == parts[0] + [sep] + parts[1] + [sep] + parts[2];
      Some((parts[0], parts[1], parts[2]))
    else None
  }

  /** normalizeDate. `today` is the current date as YYYY-MM-DD and
      `parsed` what the Date constructor makes of the text, as a date. */
  function NormalizeDate(s: string, today: string, parsed: string -> Option<string>): (r: string)
  {
    if s == [] then today
    else if IsoPrefixed(s) then SplitOn(s, 'T')[0]
    else if DateGroups(s, '/').Some? then
      var g := DateGroups(s, '/').value;
      g.2 + "-" + Pad2(g.0) + "-" + Pad2(g.1)
    else if DateGroups(s, '.').Some? then
      var g := DateGroups(s, '.').value;
      g.2 + "-" + Pad2(g.1) + "-" + Pad2(g.0)
    else if parsed(s).Some? then parsed(s).value
    else today
  }

  /** Exactly YYYY-MM-DD. */
  predicate IsIsoDate(s: string)
  {
    |s| == 10 && IsoPrefixed(s)
  }

  lemma IsoPrefixHasNoT(s: string)
    requires IsoPrefixed(s)
    ensures 'T' !in s[..10]
  {
    forall i | 0 <= i < 10
      ensures s[..10][i] != 'T'
    {
      if i < 4 { assert s[i] == s[..4][i]; }
      else if 4 < i < 7 { assert s[i] == s[5..7][i - 5]; }
      else if 7 < i { assert s[i] == s[8..10][i - 8]; }
    }
  }

  lemma BeforeTKeepsDate(s: string)
    requires IsoPrefixed(s)
    ensures IsoPrefixed(SplitOn(s, 'T')[0]) && 'T' !in SplitOn(s, 'T')[0]
  {
    IsoPrefixHasNoT(s);
    SplitOnPrefixLength(s, 'T', 10);
    var piece := SplitOn(s, 'T')[0];
    assert piece[..10] == s[..10];
    assert piece[..4] == s[..4] && piece[5..7] == s[5..7] && piece[8..10] == s[8..10];
  }

  /** Splitting keeps, in the first piece, a prefix free of the separator. */
  lemma {:induction false} SplitOnPrefixLength(s: string, c: char, n: nat)
    requires n <= |s| && c !in s[..n]
    ensures |SplitOn(s, c)[0]| >= n && SplitOn(s, c)[0][..n] == s[..n]
  {
    if n > 0 {
      assert s[0] == s[..n][0];
      assert s[1..][..n - 1] == s[..n][1..];
      SplitOnPrefixLength(s[1..], c, n - 1);
    }
  }

  /** Every answer starts with a date, and normalising again changes
      nothing, whenever the clock and the Date fallback give plain dates. */
  lemma NormalizeDateIdempotent(s: string, today: string, parsed: string -> Option<string>)
    requires IsIsoDate(today)
    requires forall x :: parsed(x).Some? ==> IsIsoDate(parsed(x).value)
    ensures IsoPrefixed(NormalizeDate(s, today, parsed))
    ensures NormalizeDate(NormalizeDate(s, today, parsed), today, parsed) == NormalizeDate(s, today, parsed)
  {
    var r := NormalizeDate(s, today, parsed);
    if s != [] && IsoPrefixed(s) {
      BeforeTKeepsDate(s);
    } else {
      if s != [] && DateGroups(s, '/').Some? {
        var g := DateGroups(s, '/').value;
        GroupsMakeIsoDate(g.2, g.0, g.1);
      } else if s != [] && DateGroups(s, '.').Some? {
        var g := DateGroups(s, '.').value;
        GroupsMakeIsoDate(g.2, g.1, g.0);
      }
      assert IsIsoDate(r);
      IsoPrefixHasNoT(r);
      assert r[..10] == r;
    }
    SplitOnNoSeparator(r, 'T');
  }

  /** A four-digit year and a month and day of one or two digits make a
      YYYY-MM-DD date once padded. */
  lemma GroupsMakeIsoDate(y: string, m: string, d: string)
    requires |y| == 4 && 1 <= |m| <= 2 && 1 <= |d| <= 2
    requires AllDigits(y) && AllDigits(m) && AllDigits(d)
    ensures IsIsoDate(y + "-" + Pad2(m) + "-" + Pad2(d))
  {
    var pm, pd := Pad2(m), Pad2(d);
    Pad2Digits(m);
    Pad2Digits(d);
    var r := y + "-" + pm + "-" + pd;
    assert |r| == 10 && r[4] == '-' && r[7] == '-';
    assert r[..4] == y;
    assert r[5..7] == pm;
    assert r[8..10] == pd;
  }

  lemma Pad2Digits(s: string)
    requires 1 <= |s| <= 2 && AllDigits(s)
    ensures |Pad2(s)| == 2 && AllDigits(Pad2(s))
  {
    if |s| == 1 {
      assert Pad2(s) == ['0', s[0]];
    }
  }

  lemma DigitsHaveNo(s: string, c: char)
    requires AllDigits(s) && !IsDigit(c)
    ensures c !in s
  {
  }

  /** The same day written month first with slashes and day first with dots
      normalises to one date. */
  lemma UsAndEuropeanAgree(d: string, m: string, y: string, today: string, parsed: string -> Option<string>)
    requires 1 <= |d| <= 2 && 1 <= |m| <= 2 && |y| == 4
    requires AllDigits(d) && AllDigits(m) && AllDigits(y)
    ensures NormalizeDate(m + "/" + d + "/" + y, today, parsed) == y + "-" + Pad2(m) + "-" + Pad2(d)
    ensures NormalizeDate(d + "." + m + "." + y, today, parsed) == y + "-" + Pad2(m) + "-" + Pad2(d)
  {
    DigitsGroups(m, d, y, '/');
    DigitsGroups(d, m, y, '.');
    var dotted := d + "." + m + "." + y;
    DigitsHaveNo(d, '/');
    DigitsHaveNo(m, '/');
    DigitsHaveNo(y, '/');
    assert '/' !in dotted;
    SplitOnNoSeparator(dotted, '/');
  }

  /** Digit groups joined by a separator are read back as those groups, and
      the text does not start like an ISO date. */
  lemma DigitsGroups(a: string, b: string, y: string, sep: char)
    requires 1 <= |a| <= 2 && 1 <= |b| <= 2 && |y| == 4
    requires AllDigits(a) && AllDigits(b) && AllDigits(y) && !IsDigit(sep)
    ensures !IsoPrefixed(a + [sep] + b + [sep] + y)
    ensures DateGroups(a + [sep] + b + [sep] + y, sep) == Some((a, b, y))
  {
    var s := a + [sep] + b + [sep] + y;
    assert s[..4][|a|] == sep;
    DigitsHaveNo(a, sep);
    DigitsHaveNo(b, sep);
    DigitsHaveNo(y, sep);
    assert Join([b, y], [sep]) == b + [sep] + y;
    assert Join([a, b, y], [sep]) == a + [sep] + (b + [sep] + y);
    assert s == a + [sep] + (b + [sep] + y);
    SplitOnJoin([a, b, y], sep);
  }

  // ---------------------------------------------------------------------
  // importFromCsv
  // ---------------------------------------------------------------------

  /** `h.toLowerCase().replace(/[^a-z0-9_]/g, "_")`. */
  function HeaderKey(h: string): string
  {
    seq(|h|, i requires 0 <= i < |h| => KeyChar(LowerChar(h[i])))
  }

  function KeyChar(c: char): (r: char)
    ensures ('a' <= r <= 'z') || IsDigit(r) || r == '_'
    ensures ('a' <= c <= 'z') || IsDigit(c) || c == '_' ==> r == c
  {
    if ('a' <= c <= 'z') || IsDigit(c) || c == '_' then c else '_'
  }

  function HeaderKeys(hs: seq<string>): seq<string>
  {
    seq(|hs|, i requires 0 <= i < |hs| => HeaderKey(hs[i]))
  }

  function SpacesToUnderscores(s: string): string
  {
    if s == [] then [] else [if s[0] == ' ' then '_' else s[0]] + SpacesToUnderscores(s[1..])
  }

  /** `col(name)`: the first header equal to the name, or to the name with
      its spaces turned into underscores; -1 when neither is present. */
  function Column(headers: seq<string>, name: string): (r: int)
    ensures -1 <= r < |headers|
    ensures r >= 0 ==> headers[r] == name || headers[r] == SpacesToUnderscores(name)
    ensures r == -1 <==> name !in headers && SpacesToUnderscores(name) !in headers
  {
    var i := IndexOf(headers, name);
    if i >= 0 then i else IndexOf(headers, SpacesToUnderscores(name))
  }

  /** The column names importFromCsv looks up, in the order of its header. */
  const ImportKeys: seq<string> := [
    "name", "price", "currency", "cycle", "frequency", "next_payment", "start_date",
    "auto_renew", "category", "payment_method", "paid_by", "notes", "url", "inactive"]

  /** In a header without repeated names every name is found at its own position. */
  lemma ColumnOfDistinct(keys: seq<string>, k: nat)
    requires NoDuplicates(keys) && k < |keys|
    ensures Column(keys, keys[k]) == k
  {
    assert keys[k] in keys;
  }

  /** Text with no comma, no quote and no surrounding whitespace. */
  predicate PlainCell(s: string)
  {
    ',' !in s && '"' !in s && (s == [] || (!IsWhitespace(s[0]) && !IsWhitespace(s[|s| - 1])))
  }

  /** Trimming trimmed cells changes nothing. */
  lemma TrimAllOfTrimmed(cells: seq<string>)
    requires forall i :: 0 <= i < |cells| ==> PlainCell(cells[i])
    ensures TrimAll(cells) == cells
  {
    forall i | 0 <= i < |cells|
      ensures Trim(cells[i]) == cells[i]
    {
      TrimOfTrimmed(cells[i]);
    }
  }

  /** A row of plain cells joined by commas reads back as those cells. */
  lemma PlainRowFields(cells: seq<string>)
    requires |cells| >= 1
    requires forall i :: 0 <= i < |cells| ==> PlainCell(cells[i])
    ensures Fields(Join(cells, ",")) == cells
  {
    var line := Join(cells, ",");
    JoinHasNo(cells, ",", '"');
    CellsWithoutQuotes(line);
    SplitOnJoin(cells, ',');
    assert Cells(line) == cells;
    TrimAllOfTrimmed(cells);
  }

  /** No header of the exporter needs quoting (a few at a time). */
  lemma HeadersPlain0()
    ensures PlainCell(SubscriptionHeaders[0])
    ensures PlainCell(SubscriptionHeaders[1])
    ensures PlainCell(SubscriptionHeaders[2])
  {
    assert SubscriptionHeaders[0] == "Name";
    assert SubscriptionHeaders[1] == "Price";
    assert SubscriptionHeaders[2] == "Currency";
  }

  lemma HeadersPlain1()
    ensures PlainCell(SubscriptionHeaders[3])
    ensures PlainCell(SubscriptionHeaders[4])
    ensures PlainCell(SubscriptionHeaders[5])
  {
    assert SubscriptionHeaders[3] == "Cycle";
    assert SubscriptionHeaders[4] == "Frequency";
    assert SubscriptionHeaders[5] == "Next Payment";
  }

  lemma HeadersPlain2()
    ensures PlainCell(SubscriptionHeaders[6])
    ensures PlainCell(SubscriptionHeaders[7])
    ensures PlainCell(SubscriptionHeaders[8])
  {
    assert SubscriptionHeaders[6] == "Start Date";
    assert SubscriptionHeaders[7] == "Auto Renew";
    assert SubscriptionHeaders[8] == "Category";
  }

  lemma HeadersPlain3()
    ensures PlainCell(SubscriptionHeaders[9])
    ensures PlainCell(SubscriptionHeaders[10])
  {
    assert SubscriptionHeaders[9] == "Payment Method";
    assert SubscriptionHeaders[10] == "Paid By";
  }

  lemma HeadersPlain4()
    ensures PlainCell(SubscriptionHeaders[11])
    ensures PlainCell(SubscriptionHeaders[12])
    ensures PlainCell(SubscriptionHeaders[13])
  {
    assert SubscriptionHeaders[11] == "Notes";
    assert SubscriptionHeaders[12] == "URL";
    assert SubscriptionHeaders[13] == "Inactive";
  }


  /** The exporter's header line reads back as its own headers. */
  lemma ExportedHeaderFields()
    ensures Fields(Join(SubscriptionHeaders, ",")) == SubscriptionHeaders
  {
    HeadersPlain0();
    HeadersPlain1();
    HeadersPlain2();
    HeadersPlain3();
    HeadersPlain4();
    PlainRowFields(SubscriptionHeaders);
  }

  /** The keys of the exporter's header, a few names at a time. */
  lemma ExportedKeys0()
    ensures HeaderKey("Name") == "name" && HeaderKey("Price") == "price" && HeaderKey("Currency") == "currency" && HeaderKey("Cycle") == "cycle"
  {
    assert HeaderKey("Name") == "name";
    assert HeaderKey("Price") == "price";
    assert HeaderKey("Currency") == "currency";
    assert HeaderKey("Cycle") == "cycle";
  }

  lemma ExportedKeys1()
    ensures HeaderKey("Frequency") == "frequency" && HeaderKey("Next Payment") == "next_payment" && HeaderKey("Start Date") == "start_date"
  {
    assert HeaderKey("Frequency") == "frequency";
    assert HeaderKey("Next Payment") == "next_payment";
    assert HeaderKey("Start Date") == "start_date";
  }

  lemma ExportedKeys2()
    ensures HeaderKey("Auto Renew") == "auto_renew" && HeaderKey("Category") == "category" && HeaderKey("Payment Method") == "payment_method" && HeaderKey("Paid By") == "paid_by"
  {
    assert HeaderKey("Auto Renew") == "auto_renew";
    assert HeaderKey("Category") == "category";
    assert HeaderKey("Payment Method") == "payment_method";
    assert HeaderKey("Paid By") == "paid_by";
  }

  lemma ExportedKeys3()
    ensures HeaderKey("Notes") == "notes" && HeaderKey("URL") == "url" && HeaderKey("Inactive") == "inactive"
  {
    assert HeaderKey("Notes") == "notes";
    assert HeaderKey("URL") == "url";
    assert HeaderKey("Inactive") == "inactive";
  }

  /** The exporter's headers turn into exactly the keys the importer looks up. */
  lemma ExportedHeaderKeys()
    ensures HeaderKeys(SubscriptionHeaders) == ImportKeys
  {
    ExportedKeys0();
    ExportedKeys1();
    ExportedKeys2();
    ExportedKeys3();
  }

  lemma ImportKeysDistinct()
    ensures NoDuplicates(ImportKeys)
  {
  }

  /** Importing a file the exporter wrote finds every column where the
      exporter put it. */
  lemma ExportedHeadersRecognised()
    ensures ColumnsOf(HeaderKeys(Fields(Join(SubscriptionHeaders, ","))))
              == Columns(0, 1, 2, 3, 4, 5, 6, 7, 8, 9, 10, 11, 12, 13)
  {
    ExportedHeaderFields();
    ExportedHeaderKeys();
    ImportKeysDistinct();
    var keys := ImportKeys;
    ColumnOfDistinct(keys, 0);
    ColumnOfDistinct(keys, 1);
    ColumnOfDistinct(keys, 2);
    ColumnOfDistinct(keys, 3);
    ColumnOfDistinct(keys, 4);
    ColumnOfDistinct(keys, 5);
    ColumnOfDistinct(keys, 6);
    ColumnOfDistinct(keys, 7);
    ColumnOfDistinct(keys, 8);
    ColumnOfDistinct(keys, 9);
    ColumnOfDistinct(keys, 10);
    ColumnOfDistinct(keys, 11);
    ColumnOfDistinct(keys, 12);
    ColumnOfDistinct(keys, 13);
  }

  lemma {:induction false} JoinHasNo(parts: seq<string>, sep: string, c: char)
    requires c !in sep
    requires forall i :: 0 <= i < |parts| ==> c !in parts[i]
    ensures c !in Join(parts, sep)
    decreases |parts|
  {
    if |parts| > 1 {
      JoinHasNo(parts[1..], sep, c);
    }
  }

  /** `content.split(/\r?\n/)`: split at each newline, dropping a carriage
      return just before it. */
  function SplitLines(content: string): (r: seq<string>)
    ensures |r| >= 1
  {
    StripReturns(SplitOn(content, '\n'))
  }

  function StripReturns(pieces: seq<string>): (r: seq<string>)
    ensures |r| == |pieces|
  {
    if |pieces| <= 1 then pieces
    else
      var p := pieces[0];
      [if p != [] && p[|p| - 1] == '\r' then p[..|p| - 1] else p] + StripReturns(pieces[1..])
  }

  /** The non-blank lines. */
  function ContentLines(content: string): (r: seq<string>)
    ensures forall i :: 0 <= i < |r| ==> Trim(r[i]) != []
    ensures forall l :: l in r <==> l in SplitLines(content) && Trim(l) != []
  {
    Filter(SplitLines(content), (l: string) => Trim(l) != [])
  }

  /** What importFromCsv takes from its caller. */
  datatype ImportContext = ImportContext(
    categories: seq<Named>, currencies: seq<Named>, paymentMethods: seq<Named>, household: seq<Named>,
    defaultCategoryId: string, defaultCurrencyId: string, defaultPaymentMethodId: string,
    defaultPayerUserId: string)

  /** The column positions found in the header. */
  datatype Columns = Columns(
    name: int, price: int, currency: int, cycle: int, frequency: int, nextPayment: int, startDate: int,
    autoRenew: int, category: int, paymentMethod: int, paidBy: int, notes: int, url: int, inactive: int)

  function ColumnsOf(headers: seq<string>): Columns
  {
    Columns(Column(headers, "name"), Column(headers, "price"), Column(headers, "currency"),
            Column(headers, "cycle"), Column(headers, "frequency"), Column(headers, "next_payment"),
            Column(headers, "start_date"), Column(headers, "auto_renew"), Column(headers, "category"),
            Column(headers, "payment_method"), Column(headers, "paid_by"), Column(headers, "notes"),
            Column(headers, "url"), Column(headers, "inactive"))
  }

  /** `fields[i]`: undefined past the end of a short row. */
  function At(fields: seq<string>, i: int): Option<string>
  {
    if 0 <= i < |fields| then Some(fields[i]) else None
  }

  /** `fields[i] || ""`. */
  function TextAt(fields: seq<string>, i: int): string
  {
    if 0 <= i < |fields| then fields[i] else ""
  }

  /** `items.find(x => x.name.toLowerCase() === key.toLowerCase())?.id || fallback`.
      Comparing with an undefined cell throws, which happens as soon as
      there is an item to compare with; `None` is that exception. */
  function MatchId(items: seq<Named>, key: Option<string>, fallback: string): (r: Option<string>)
    ensures r.None? <==> items != [] && key.None?
    ensures r.Some? && r.value != fallback ==>
      exists i :: 0 <= i < |items| && items[i].id == r.value && LowerAscii(items[i].name) == LowerAscii(key.value)
  {
    if items == [] then Some(fallback)
    else if key.None? then None
    else if LowerAscii(items[0].name) == LowerAscii(key.value) then
      Some(if items[0].id != [] then items[0].id else fallback)
    else
      var r := MatchId(items[1..], key, fallback);
      assert r.Some? && r.value != fallback ==>
        exists i :: 0 <= i < |items[1..]| && items[1..][i].id == r.value && LowerAscii(items[1..][i].name) == LowerAscii(key.value);
      r
  }

  /** `cycleMap[cycleStr || "monthly"] || 3`. */
  function CycleOf(cell: Option<string>): (r: int)
    ensures 1 <= r <= 4
    ensures cell.None? ==> r == 3
    ensures cell.Some? && LowerAscii(cell.value) == "daily" ==> r == 1
    ensures cell.Some? && LowerAscii(cell.value) == "weekly" ==> r == 2
    ensures cell.Some? && LowerAscii(cell.value) == "yearly" ==> r == 4
    ensures cell.Some? && LowerAscii(cell.value) !in {"daily", "weekly", "yearly"} ==> r == 3
  {
    var key := if cell.Some? && cell.value != [] then LowerAscii(cell.value) else "monthly";
    if key == "daily" then 1 else if key == "weekly" then 2 else if key == "yearly" then 4 else 3
  }

  /** `parseInt(freqStr, 10) || 1`. */
  function FrequencyOf(cell: Option<string>): (r: int)
    ensures r != 0
    ensures cell.Some? && ParseInt(cell.value).Some? && ParseInt(cell.value).value != 0 ==> r == ParseInt(cell.value).value
    ensures cell.None? || ParseInt(cell.value).None? || ParseInt(cell.value).value == 0 ==> r == 1
  {
    if cell.Some? && ParseInt(cell.value).Some? && ParseInt(cell.value).value != 0 then ParseInt(cell.value).value else 1
  }

  /** A missing or unrecognised answer renews; only no/false/0 does not. */
  function AutoRenewOf(cell: Option<string>): (r: bool)
    ensures !r <==> cell.Some? && LowerAscii(cell.value) in {"no", "false", "0"}
  {
    !(cell.Some? && LowerAscii(cell.value) in {"no", "false", "0"})
  }

  /** Only yes/true/1 marks a subscription inactive. */
  function InactiveOf(cell: Option<string>): (r: bool)
    ensures r <==> cell.Some? && LowerAscii(cell.value) in {"yes", "true", "1"}
  {
    cell.Some? && LowerAscii(cell.value) in {"yes", "true", "1"}
  }

  /** What one data line turns into. */
  datatype RowResult = Skipped | Imported(sub: Subscription) | Throws

  /** The effect of the clock, the id generator and parseFloat on a row. */
  datatype ImportEnv = ImportEnv(today: string, nowIso: string, parsePrice: string -> real,
                                 parsedDate: string -> Option<string>)

  /** The loop body of importFromCsv for one line; `id` is the UUID the row
      would receive. */
  function ImportRow(line: string, c: Columns, ctx: ImportContext, env: ImportEnv, id: string): (r: RowResult)
    ensures r.Imported? ==>
      && r.sub.name != [] && Trim(r.sub.name) == r.sub.name && r.sub.id == id
      && 1 <= r.sub.cycle <= 4 && r.sub.frequency != 0
      && !r.sub.notify && r.sub.notifyDaysBefore == -1 && r.sub.logo == []
      && r.sub.tags == [] && !r.sub.favorite && r.sub.paymentHistory == []
  {
    var fields := Fields(line);
    FieldsAreTrimmed(line);
    var name := At(fields, c.name);
    if |fields| == 1 && fields[0] == [] then Skipped
    else if name.None? || name.value == [] then Skipped
    else
      var currencyId := MatchId(ctx.currencies, if c.currency >= 0 then At(fields, c.currency) else Some(""), ctx.defaultCurrencyId);
      var categoryId := MatchId(ctx.categories, if c.category >= 0 then At(fields, c.category) else Some(""), ctx.defaultCategoryId);
      var methodId := MatchId(ctx.paymentMethods, if c.paymentMethod >= 0 then At(fields, c.paymentMethod) else Some(""), ctx.defaultPaymentMethodId);
      var payerId := MatchId(ctx.household, if c.paidBy >= 0 then At(fields, c.paidBy) else Some(""), ctx.defaultPayerUserId);
      if currencyId.None? || categoryId.None? || methodId.None? || payerId.None? then Throws
      else
        var priceText := if c.price >= 0 then At(fields, c.price) else Some("0");
        var nextPayment := if c.nextPayment >= 0 then NormalizeDate(TextAt(fields, c.nextPayment), env.today, env.parsedDate) else env.today;
        var startDate := if c.startDate >= 0 then NormalizeDate(TextAt(fields, c.startDate), env.today, env.parsedDate) else nextPayment;
        Imported(Subscription(
          id := id, name := name.value, logo := "",
          price := if priceText.Some? then env.parsePrice(priceText.value) else 0.0,
          currencyId := currencyId.value, nextPayment := nextPayment, startDate := startDate,
          cycle := if c.cycle >= 0 then CycleOf(At(fields, c.cycle)) else 3,
          frequency := if c.frequency >= 0 then FrequencyOf(At(fields, c.frequency)) else 1,
          notes := if c.notes >= 0 then TextAt(fields, c.notes) else "",
          paymentMethodId := methodId.value, payerUserId := payerId.value, categoryId := categoryId.value,
          notify := false, notifyDaysBefore := -1, lastNotifiedDate := "",
          inactive := if c.inactive >= 0 then InactiveOf(At(fields, c.inactive)) else false,
          autoRenew := if c.autoRenew >= 0 then AutoRenewOf(At(fields, c.autoRenew)) else true,
          url := if c.url >= 0 then TextAt(fields, c.url) else "",
          cancellationDate := None, replacementSubscriptionId := None, createdAt := env.nowIso,
          tags := [], favorite := false, paymentHistory := []))
  }

  /** The subscriptions imported from the data lines, in order; `None` when
      some row throws. The k-th imported row receives `ids(k)`. */
  function ImportedRows(lines: seq<string>, c: Columns, ctx: ImportContext, env: ImportEnv, ids: nat -> string): (r: Option<seq<Subscription>>)
    ensures r.Some? ==> |r.value| <= |lines|
    ensures r.Some? ==> NumberedAndNamed(r.value, ids)
  {
    if lines == [] then Some([])
    else
      match ImportedRows(lines[..|lines| - 1], c, ctx, env, ids)
      case None => None
      case Some(acc) =>
        var row := ImportRow(lines[|lines| - 1], c, ctx, env, ids(|acc|));
        if row.Skipped? then Some(acc)
        else if row.Throws? then None
        else
          NumberedAndNamedAppend(acc, row.sub, ids);
          Some(acc + [row.sub])
  }

  /** The k-th subscription has id `ids(k)` and a name. */
  predicate NumberedAndNamed(subs: seq<Subscription>, ids: nat -> string)
  {
    forall k :: 0 <= k < |subs| ==> subs[k].id == ids(k) && subs[k].name != []
  }

  lemma NumberedAndNamedAppend(subs: seq<Subscription>, s: Subscription, ids: nat -> string)
    requires NumberedAndNamed(subs, ids)
    requires s.id == ids(|subs|) && s.name != []
    ensures NumberedAndNamed(subs + [s], ids)
  {
  }

  /** importFromCsv on the text of the chosen file. */
  method ImportFromCsv(content: string, ctx: ImportContext, env: ImportEnv, ids: nat -> string)
    returns (r: Option<seq<Subscription>>)
    ensures var lines := ContentLines(content);
      r == (if |lines| < 2 then None
            else
              var c := ColumnsOf(HeaderKeys(Fields(lines[0])));
              if c.name < 0 then None
              else
                var rows := ImportedRows(lines[1..], c, ctx, env, ids);
                if rows.None? || rows.value == [] then None else rows)
    ensures r != Some([])
  {
    var lines := ContentLines(content);
    if |lines| < 2 {
      return None;
    }
    var headerFields := ParseCsvLine(lines[0]);
    var c := ColumnsOf(HeaderKeys(headerFields));
    if c.name < 0 {
      return None;
    }
    var rows := ImportLines(lines[1..], c, ctx, env, ids);
    return if rows.None? || rows.value == [] then None else rows;
  }

  /** The loop of importFromCsv over the data lines. */
  method ImportLines(data: seq<string>, c: Columns, ctx: ImportContext, env: ImportEnv, ids: nat -> string)
    returns (r: Option<seq<Subscription>>)
    ensures r == ImportedRows(data, c, ctx, env, ids)
  {
    var subs: seq<Subscription> := [];
    var i := 0;
    while i < |data|
      invariant 0 <= i <= |data|
      invariant ImportedRows(data[..i], c, ctx, env, ids) == Some(subs)
    {
      var row := ImportRow(data[i], c, ctx, env, ids(|subs|));
      ImportedRowsStep(data, i, c, ctx, env, ids);
      if row.Throws? {
        ThrowAborts(data, i + 1, c, ctx, env, ids);
        return None;
      }
      if row.Imported? {
        subs := subs + [row.sub];
      }
      i := i + 1;
    }
    assert data[..|data|] == data;
    return Some(subs);
  }

  /** One more data line: the import so far, extended by that line's row. */
  lemma ImportedRowsStep(data: seq<string>, i: nat, c: Columns, ctx: ImportContext, env: ImportEnv, ids: nat -> string)
    requires i < |data|
    ensures var prefix := ImportedRows(data[..i], c, ctx, env, ids);
      ImportedRows(data[..i + 1], c, ctx, env, ids)
        == if prefix.None? then None
           else
             var row := ImportRow(data[i], c, ctx, env, ids(|prefix.value|));
             if row.Skipped? then prefix else if row.Throws? then None else Some(prefix.value + [row.sub])
  {
    assert data[..i + 1][..i] == data[..i];
  }

  /** Once a row throws, the whole import gives nothing. */
  lemma {:induction false} ThrowAborts(lines: seq<string>, n: nat, c: Columns, ctx: ImportContext, env: ImportEnv, ids: nat -> string)
    requires n <= |lines| && ImportedRows(lines[..n], c, ctx, env, ids).None?
    ensures ImportedRows(lines, c, ctx, env, ids).None?
    decreases |lines| - n
  {
    if n < |lines| {
      assert lines[..n + 1][..n] == lines[..n];
      ThrowAborts(lines, n + 1, c, ctx, env, ids);
    } else {
      assert lines[..n] == lines;
    }
  }
}
