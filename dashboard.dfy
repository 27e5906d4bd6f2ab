// Dashboard.tsx: per-project totals, the portfolio figures above the project
// table, and the CSV report of one project with its download file name.
// Number and date formatting (toFixed, toLocaleDateString and the plain
// number-to-text conversion) stay abstract: they come in as a Formatting value.

module Dashboard {
  import opened Types
  import opened Collections
  import opened Budget

  // ---------------------------------------------------------------------------
  // Per-project and portfolio totals

  /** getProjectTotals: a reduce with two running sums that skips lines whose
      part is not in the catalogue; the sums are the shared engine's totals. */
  method GetProjectTotals(parts: seq<Part>, project: Project) returns (cost: real, sale: real)
    ensures cost == Total(parts, project.items, Cost)
    ensures sale == Total(parts, project.items, Sale)
  {
    var items := project.items;
    cost, sale := 0.0, 0.0;
    var i := 0;
    while i < |items|
      invariant 0 <= i <= |items|
      invariant cost == Total(parts, items[..i], Cost)
      invariant sale == Total(parts, items[..i], Sale)
    {
      TotalStep(parts, items, i, Cost);
      TotalStep(parts, items, i, Sale);
      cost, sale := AddLineTotals(parts, items[i], cost, sale);
      i := i + 1;
    }
    assert items[..i] == items;
  }

  /** The sum, over the saved projects, of one side of each project's totals
      (totalRevenue for the sale side, totalCost for the cost side). */
  function PortfolioTotal(parts: seq<Part>, projects: seq<Project>, side: Side): real
    decreases |projects|
  {
    if projects == [] then 0.0
    else PortfolioTotal(parts, projects[..|projects| - 1], side) + Total(parts, projects[|projects| - 1].items, side)
  }

  /** totalProfit: revenue minus cost over the whole portfolio. */
  function PortfolioProfit(parts: seq<Part>, projects: seq<Project>): real {
    PortfolioTotal(parts, projects, Sale) - PortfolioTotal(parts, projects, Cost)
  }

  /** The sum of the per-project profits, as the project table shows them. */
  function ProfitsSum(parts: seq<Part>, projects: seq<Project>): real
    decreases |projects|
  {
    if projects == [] then 0.0
    else ProfitsSum(parts, projects[..|projects| - 1]) + ComputeBudget(parts, projects[|projects| - 1].items).profit
  }

  /** The accumulated profit is the sum of the profits of the projects. */
  lemma {:induction false} PortfolioProfitIsSumOfProfits(parts: seq<Part>, projects: seq<Project>)
    ensures PortfolioProfit(parts, projects) == ProfitsSum(parts, projects)
    decreases |projects|
  {
    if projects != [] {
      PortfolioProfitIsSumOfProfits(parts, projects[..|projects| - 1]);
    }
  }

  /** Saving a project (appended at the end of the list) raises the portfolio
      revenue and cost by that project's own totals. */
  lemma PortfolioGrowsBySavedProject(parts: seq<Part>, projects: seq<Project>, p: Project, side: Side)
    ensures PortfolioTotal(parts, projects + [p], side) == PortfolioTotal(parts, projects, side) + Total(parts, p.items, side)
  {
    assert (projects + [p])[..|projects|] == projects;
  }

  /** The portfolio does not depend on the order of the projects (the table
      lists them newest first, the sums run oldest first). */
  lemma {:induction false} PortfolioOrderIndependent(parts: seq<Part>, a: seq<Project>, b: seq<Project>, side: Side)
    requires multiset(a) == multiset(b)
    ensures PortfolioTotal(parts, a, side) == PortfolioTotal(parts, b, side)
    decreases |a|
  {
    if a == [] {
      assert |multiset(b)| == 0;
    } else {
      var last := |a| - 1;
      var x := a[last];
      assert x in multiset(b);
      var j :| 0 <= j < |b| && b[j] == x;
      MultisetRemoveAt(a, last);
      MultisetRemoveAt(b, j);
      assert a[..last] + a[last + 1..] == a[..last];
      PortfolioOrderIndependent(parts, a[..last], b[..j] + b[j + 1..], side);
      PortfolioRemoveAt(parts, b, j, side);
      PortfolioRemoveAt(parts, a, last, side);
    }
  }

  lemma {:induction false} PortfolioConcat(parts: seq<Part>, a: seq<Project>, b: seq<Project>, side: Side)
    ensures PortfolioTotal(parts, a + b, side) == PortfolioTotal(parts, a, side) + PortfolioTotal(parts, b, side)
    decreases |b|
  {
    if b == [] {
      assert a + b == a;
    } else {
      var b', x := b[..|b| - 1], b[|b| - 1];
      assert a + b == (a + b') + [x];
      assert b == b' + [x];
      PortfolioGrowsBySavedProject(parts, a + b', x, side);
      PortfolioGrowsBySavedProject(parts, b', x, side);
      PortfolioConcat(parts, a, b', side);
    }
  }

  lemma PortfolioRemoveAt(parts: seq<Part>, b: seq<Project>, j: nat, side: Side)
    requires j < |b|
    ensures PortfolioTotal(parts, b, side) == PortfolioTotal(parts, b[..j] + b[j + 1..], side) + Total(parts, b[j].items, side)
  {
    var left, right := b[..j], b[j + 1..];
    assert b == (left + [b[j]]) + right;
    PortfolioConcat(parts, left + [b[j]], right, side);
    PortfolioGrowsBySavedProject(parts, left, b[j], side);
    PortfolioConcat(parts, left, right, side);
  }

  // ---------------------------------------------------------------------------
  // The CSV report

  /** The text conversions the report uses: `String(n)` for a quantity,
      `toFixed(2)` and `toFixed(1)` for money and the margin, and the
      Portuguese short date for a timestamp. */
  datatype Formatting = Formatting(
    number: real -> string,
    fixed2: real -> string,
    fixed1: real -> string,
    date: int -> string)

  /** One item row of the report. */
  datatype CsvRow = CsvRow(name: string, category: string, quantity: real, unit: string, unitPrice: real, subtotal: real)

  /** The row for a line whose part is `p`. */
  function RowOf(p: Part, x: ProjectItem): (r: CsvRow)
    ensures r.subtotal == r.unitPrice * r.quantity
    ensures r.name == p.name && r.category == p.category && r.unit == p.unit
    ensures r.unitPrice == p.price && r.quantity == x.quantity
  {
    CsvRow(p.name, p.category, x.quantity, p.unit, p.price, p.price * x.quantity)
  }

  /** The forEach over the lines: a row for each line whose part is found,
      nothing for the others. */
  function CsvRows(parts: seq<Part>, items: seq<ProjectItem>): (rows: seq<CsvRow>)
    ensures |rows| <= |items|
  {
    if items == [] then []
    else
      match FindPart(parts, items[0].partId)
      case None => CsvRows(parts, items[1..])
      case Some(p) => [RowOf(p, items[0])] + CsvRows(parts, items[1..])
  }

  lemma {:induction false} CsvRowsConcat(parts: seq<Part>, a: seq<ProjectItem>, b: seq<ProjectItem>)
    ensures CsvRows(parts, a + b) == CsvRows(parts, a) + CsvRows(parts, b)
  {
    if a != [] {
      assert (a + b)[1..] == a[1..] + b;
      assert (a + b)[0] == a[0];
      CsvRowsConcat(parts, a[1..], b);
    } else {
      assert a + b == b;
    }
  }

  /** The lines of a project whose part is in the catalogue, in order. */
  function Resolved(parts: seq<Part>, items: seq<ProjectItem>): (r: seq<ProjectItem>)
    ensures forall x :: x in r <==> x in items && FindPart(parts, x.partId).Some?
  {
    Filter(items, (x: ProjectItem) => FindPart(parts, x.partId).Some?)
  }

  /** `rows` are, one for one and in order, the rows of `lines`, every one of
      which has its part in the catalogue. */
  ghost predicate RowsMatch(parts: seq<Part>, lines: seq<ProjectItem>, rows: seq<CsvRow>) {
    |rows| == |lines|
    && forall i :: 0 <= i < |lines| ==>
      FindPart(parts, lines[i].partId).Some? && rows[i] == RowOf(FindPart(parts, lines[i].partId).value, lines[i])
  }

  lemma RowsMatchCons(parts: seq<Part>, x: ProjectItem, p: Part, lines: seq<ProjectItem>, rows: seq<CsvRow>)
    requires FindPart(parts, x.partId) == Some(p)
    requires RowsMatch(parts, lines, rows)
    ensures RowsMatch(parts, [x] + lines, [RowOf(p, x)] + rows)
  {
    var lines', rows' := [x] + lines, [RowOf(p, x)] + rows;
    forall i | 0 <= i < |lines'|
      ensures FindPart(parts, lines'[i].partId).Some? && rows'[i] == RowOf(FindPart(parts, lines'[i].partId).value, lines'[i])
    {
      if i > 0 {
        assert lines'[i] == lines[i - 1] && rows'[i] == rows[i - 1];
      }
    }
  }

  /** Exactly one row per line whose part is found, in line order, each the
      row of that line's part. */
  lemma {:induction false} CsvRowsFollowResolvedLines(parts: seq<Part>, items: seq<ProjectItem>)
    ensures RowsMatch(parts, Resolved(parts, items), CsvRows(parts, items))
  {
    if items != [] {
      CsvRowsFollowResolvedLines(parts, items[1..]);
      var rest := Resolved(parts, items[1..]);
      var restRows := CsvRows(parts, items[1..]);
      match FindPart(parts, items[0].partId)
      case None =>
        assert Resolved(parts, items) == rest;
      case Some(p) =>
        assert Resolved(parts, items) == [items[0]] + rest;
        assert CsvRows(parts, items) == [RowOf(p, items[0])] + restRows;
        RowsMatchCons(parts, items[0], p, rest, restRows);
    }
  }

  /** The sum of the subtotal column. */
  function SubtotalSum(rows: seq<CsvRow>): real {
    if rows == [] then 0.0 else rows[0].subtotal + SubtotalSum(rows[1..])
  }

  /** The first line contributes its sale amount to the subtotal column. */
  lemma SubtotalSumCons(parts: seq<Part>, items: seq<ProjectItem>)
    requires items != []
    ensures SubtotalSum(CsvRows(parts, items)) == LineAmount(parts, items[0], Sale) + SubtotalSum(CsvRows(parts, items[1..]))
  {
    match FindPart(parts, items[0].partId)
    case None =>
    case Some(p) =>
      var rows := CsvRows(parts, items);
      assert rows == [RowOf(p, items[0])] + CsvRows(parts, items[1..]);
      assert rows[1..] == CsvRows(parts, items[1..]);
  }

  /** Totals seen from the front: the first line's amount plus the rest. */
  lemma TotalCons(parts: seq<Part>, items: seq<ProjectItem>, side: Side)
    requires items != []
    ensures Total(parts, items, side) == LineAmount(parts, items[0], side) + Total(parts, items[1..], side)
  {
    assert items == [items[0]] + items[1..];
    TotalConcat(parts, [items[0]], items[1..], side);
    TotalSnoc(parts, [], items[0], side);
    assert [] + [items[0]] == [items[0]];
  }

  /** The subtotal column adds up to the summary's sale total. */
  lemma {:induction false} SubtotalsSumToSale(parts: seq<Part>, items: seq<ProjectItem>)
    ensures SubtotalSum(CsvRows(parts, items)) == Total(parts, items, Sale)
  {
    if items != [] {
      SubtotalsSumToSale(parts, items[1..]);
      SubtotalSumCons(parts, items);
      TotalCons(parts, items, Sale);
    }
  }

  const ReportTitle := "Orçamentos JP - Relatório de Projeto"
  const SummaryTitle := "RESUMO FINANCEIRO"

  /** The titles of the six columns, written `;`-separated under the header. */
  const Columns: seq<string> := ["PEÇA", "CATEGORIA", "QUANTIDADE", "UNIDADE", "PREÇO UNIT. (VENDA)", "SUBTOTAL (VENDA)"]

  function Join(names: seq<string>, sep: char): string {
    if |names| <= 1 then (if names == [] then "" else names[0])
    else names[0] + [sep] + Join(names[1..], sep)
  }

  /** One `caption;value` line, the value followed by its unit. */
  function Field(caption: string, value: string, unit: string): string {
    caption + ";" + value + unit + "\n"
  }

  /** The title, the project's name and date, a blank line and the column headers. */
  function HeaderText(project: Project, f: Formatting): string {
    ReportTitle + "\n" + Field("Projeto:", project.name, "") + Field("Data:", f.date(project.createdAt), "\n")
      + Join(Columns, ';') + "\n"
  }

  /** One row: six fields separated by `;`, the money ones followed by `€`. */
  function RowText(r: CsvRow, f: Formatting): string {
    r.name + ";" + r.category + ";" + f.number(r.quantity) + ";" + r.unit + ";"
      + f.fixed2(r.unitPrice) + "€;" + f.fixed2(r.subtotal) + "€\n"
  }

  function RowsText(rows: seq<CsvRow>, f: Formatting): string {
    if rows == [] then "" else RowText(rows[0], f) + RowsText(rows[1..], f)
  }

  lemma {:induction false} RowsTextConcat(a: seq<CsvRow>, b: seq<CsvRow>, f: Formatting)
    ensures RowsText(a + b, f) == RowsText(a, f) + RowsText(b, f)
  {
    if a != [] {
      assert (a + b)[1..] == a[1..] + b;
      assert (a + b)[0] == a[0];
      RowsTextConcat(a[1..], b, f);
    } else {
      assert a + b == b;
    }
  }

  /** The financial summary: cost, sale and profit to two decimals, the margin
      to one. */
  function SummaryText(b: Budget, f: Formatting): string {
    "\n" + SummaryTitle + "\n" + SummaryFields(b, f)
  }

  function SummaryFields(b: Budget, f: Formatting): string {
    Field("CUSTO TOTAL DE MATERIAIS:", f.fixed2(b.totalCost), "€")
      + Field("VALOR TOTAL DO ORÇAMENTO:", f.fixed2(b.totalSale), "€")
      + Field("LUCRO BRUTO ESTIMADO:", f.fixed2(b.profit), "€")
      + Field("MARGEM DE LUCRO:", f.fixed1(b.margin), "%")
  }

  /** How many times `c` occurs in `s`. */
  function Count(s: string, c: char): nat {
    if s == [] then 0 else (if s[0] == c then 1 else 0) + Count(s[1..], c)
  }

  lemma {:induction false} CountConcat(a: string, b: string, c: char)
    ensures Count(a + b, c) == Count(a, c) + Count(b, c)
  {
    if a != [] {
      assert (a + b)[1..] == a[1..] + b;
      CountConcat(a[1..], b, c);
    } else {
      assert a + b == b;
    }
  }

  /** A character is counted 0 times exactly when it does not occur. */
  lemma {:induction false} CountZero(s: string, c: char)
    ensures Count(s, c) == 0 <==> c !in s
  {
    if s != [] {
      CountZero(s[1..], c);
      assert s == [s[0]] + s[1..];
    }
  }

  /** A text made of a piece without `c`, then `tail`, counts `c` as `tail` does. */
  lemma CountAfterPlain(head: string, tail: string, c: char)
    requires c !in head
    ensures Count(head + tail, c) == Count(tail, c)
  {
    CountZero(head, c);
    CountConcat(head, tail, c);
  }

  /** A text that is a piece without `c` followed by `c` holds `c` once. */
  lemma CountOnceAtEnd(s: string, body: string, c: char)
    requires s == body + [c] && c !in body
    ensures Count(s, c) == 1
  {
    CountAfterPlain(body, [c], c);
    assert [c][1..] == [];
  }

  /** The occurrences of `c` in a row: those of its six field texts plus those
      of its punctuation (four `;`, then `€;` and `€` with the line break). */
  lemma RowTextCount(r: CsvRow, f: Formatting, c: char)
    ensures Count(RowText(r, f), c)
         == Count(r.name, c) + Count(r.category, c) + Count(f.number(r.quantity), c) + Count(r.unit, c)
          + Count(f.fixed2(r.unitPrice), c) + Count(f.fixed2(r.subtotal), c)
          + 4 * Count(";", c) + Count("€;", c) + Count("€\n", c)
  {
    var s1 := r.name + ";";
    var s2 := s1 + r.category;
    var s3 := s2 + ";";
    var s4 := s3 + f.number(r.quantity);
    var s5 := s4 + ";";
    var s6 := s5 + r.unit;
    var s7 := s6 + ";";
    var s8 := s7 + f.fixed2(r.unitPrice);
    var s9 := s8 + "€;";
    var s10 := s9 + f.fixed2(r.subtotal);
    var s11 := s10 + "€\n";
    assert RowText(r, f) == s11;
    CountConcat(r.name, ";", c);
    CountConcat(s1, r.category, c);
    CountConcat(s2, ";", c);
    CountConcat(s3, f.number(r.quantity), c);
    CountConcat(s4, ";", c);
    CountConcat(s5, r.unit, c);
    CountConcat(s6, ";", c);
    CountConcat(s7, f.fixed2(r.unitPrice), c);
    CountConcat(s8, "€;", c);
    CountConcat(s9, f.fixed2(r.subtotal), c);
    CountConcat(s10, "€\n", c);
  }

  /** No field of a row holds `c`. */
  predicate PlainRow(r: CsvRow, f: Formatting, c: char) {
    c !in r.name && c !in r.category && c !in r.unit
    && c !in f.number(r.quantity) && c !in f.fixed2(r.unitPrice) && c !in f.fixed2(r.subtotal)
  }

  /** Nothing is escaped: a row splits into exactly its six columns if and
      only if no field text contains the separator `;` (a part named "A;B"
      shifts every later column of its row), and it is exactly one line if and
      only if no field contains a line break. It always ends with a line break. */
  lemma RowTextColumns(r: CsvRow, f: Formatting)
    ensures Count(RowText(r, f), ';') == 5 <==> PlainRow(r, f, ';')
    ensures Count(RowText(r, f), '\n') == 1 <==> PlainRow(r, f, '\n')
    ensures RowText(r, f)[|RowText(r, f)| - 1] == '\n'
  {
    RowTextCount(r, f, ';');
    RowTextCount(r, f, '\n');
    assert Count(";", ';') == 1 && Count("€;", ';') == 1 && Count("€\n", ';') == 0;
    assert Count(";", '\n') == 0 && Count("€;", '\n') == 0 && Count("€\n", '\n') == 1;
    CountZero(r.name, ';');
    CountZero(r.category, ';');
    CountZero(r.unit, ';');
    CountZero(f.number(r.quantity), ';');
    CountZero(f.fixed2(r.unitPrice), ';');
    CountZero(f.fixed2(r.subtotal), ';');
    CountZero(r.name, '\n');
    CountZero(r.category, '\n');
    CountZero(r.unit, '\n');
    CountZero(f.number(r.quantity), '\n');
    CountZero(f.fixed2(r.unitPrice), '\n');
    CountZero(f.fixed2(r.subtotal), '\n');
  }

  /** Rows without line breaks in their fields give one line each. */
  lemma {:induction false} RowsTextLines(rows: seq<CsvRow>, f: Formatting)
    requires forall i :: 0 <= i < |rows| ==> PlainRow(rows[i], f, '\n')
    ensures Count(RowsText(rows, f), '\n') == |rows|
  {
    if rows != [] {
      RowsTextLines(rows[1..], f);
      RowTextColumns(rows[0], f);
      CountConcat(RowText(rows[0], f), RowsText(rows[1..], f), '\n');
    }
  }

  /** The separators of a joined list: one `sep` between each two names, and
      no other `c` when no name holds `c`. */
  lemma {:induction false} JoinCount(names: seq<string>, sep: char, c: char)
    requires names != [] && forall i :: 0 <= i < |names| ==> c !in names[i]
    ensures Count(Join(names, sep), c) == if c == sep then |names| - 1 else 0
  {
    if |names| == 1 {
      CountZero(names[0], c);
    } else {
      JoinCount(names[1..], sep, c);
      CountAfterPlain(names[0], [sep] + Join(names[1..], sep), c);
      assert names[0] + [sep] + Join(names[1..], sep) == names[0] + ([sep] + Join(names[1..], sep));
      CountConcat([sep], Join(names[1..], sep), c);
      assert [sep][1..] == [];
    }
  }

  lemma ColumnsPlain()
    ensures forall i :: 0 <= i < |Columns| ==> ';' !in Columns[i] && '\n' !in Columns[i]
  {
  }

  /** The column line names as many columns as a row has fields: five `;`
      and no line break. */
  lemma ColumnLine()
    ensures Count(Join(Columns, ';'), ';') == 5
    ensures Count(Join(Columns, ';'), '\n') == 0
  {
    ColumnsPlain();
    JoinCount(Columns, ';', ';');
    JoinCount(Columns, ';', '\n');
  }

  /** The occurrences of `c` in one `caption;value` line whose caption and
      value hold no `c`: those of its separator, its unit and its line break. */
  lemma FieldCount(caption: string, value: string, unit: string, c: char)
    requires c !in caption && c !in value
    ensures Count(Field(caption, value, unit), c) == Count(";", c) + Count(unit, c) + Count("\n", c)
  {
    assert Field(caption, value, unit) == caption + (";" + (value + (unit + "\n")));
    CountAfterPlain(caption, ";" + (value + (unit + "\n")), c);
    CountConcat(";", value + (unit + "\n"), c);
    CountAfterPlain(value, unit + "\n", c);
    CountConcat(unit, "\n", c);
  }

  /** `c` does not occur in `s`, stated position by position. */
  predicate Lacks(s: string, c: char) {
    forall i :: 0 <= i < |s| ==> s[i] != c
  }

  lemma TitlesPlain()
    ensures Lacks(ReportTitle, '\n') && Lacks("Projeto:", '\n') && Lacks("Data:", '\n')
    ensures Lacks(SummaryTitle, '\n') && Lacks(SummaryTitle, ';')
  {
  }

  /** The header is five lines (the title, the project's name, its date, a
      blank line and the column titles) when neither the name nor the date
      holds a line break. */
  lemma HeaderLines(project: Project, f: Formatting)
    requires '\n' !in project.name && '\n' !in f.date(project.createdAt)
    ensures Count(HeaderText(project, f), '\n') == 5
  {
    var title := ReportTitle + "\n";
    var name := Field("Projeto:", project.name, "");
    var date := Field("Data:", f.date(project.createdAt), "\n");
    var columns := Join(Columns, ';') + "\n";
    TitlesPlain();
    ColumnLine();
    CountZero(Join(Columns, ';'), '\n');
    assert "\n"[1..] == [] && "\n\n"[1..] == "\n";
    FieldCount("Projeto:", project.name, "", '\n');
    FieldCount("Data:", f.date(project.createdAt), "\n", '\n');
    CountOnceAtEnd(title, ReportTitle, '\n');
    CountOnceAtEnd(columns, Join(Columns, ';'), '\n');
    CountConcat(title, name, '\n');
    CountConcat(title + name, date, '\n');
    assert HeaderText(project, f) == title + name + date + columns;
    CountConcat(title + name + date, columns, '\n');
  }

  /** In a text laid out as the header is, the value of the first field sits
      right after the title, the break, the caption and its `;`. */
  lemma FieldValueAt(title: string, br: string, caption: string, value: string, unit: string,
                     next: string, columns: string, end: string)
    ensures var h := title + br + Field(caption, value, unit) + next + columns + end;
      var k := |title| + |br| + |caption| + 1;
      k + |value| <= |h| && h[k..k + |value|] == value
  {
    var front := title + br + caption + ";";
    var h := title + br + Field(caption, value, unit) + next + columns + end;
    var back := unit + "\n" + next + columns + end;
    assert h == front + value + back;
    assert (front + value + back)[|front|..|front| + |value|] == value;
  }

  /** The project's name can be read back from the header, right after the
      title line and the `Projeto:` caption and its `;`. */
  lemma HeaderNamesProject(project: Project, f: Formatting)
    ensures var h := HeaderText(project, f); var k := |ReportTitle| + |"\nProjeto:;"|;
      k + |project.name| <= |h| && h[k..k + |project.name|] == project.name
  {
    FieldValueAt(ReportTitle, "\n", "Projeto:", project.name, "", Field("Data:", f.date(project.createdAt), "\n"),
                 Join(Columns, ';'), "\n");
  }

  lemma CaptionsPlain()
    ensures Lacks("CUSTO TOTAL DE MATERIAIS:", '\n') && Lacks("CUSTO TOTAL DE MATERIAIS:", ';')
    ensures Lacks("VALOR TOTAL DO ORÇAMENTO:", '\n') && Lacks("VALOR TOTAL DO ORÇAMENTO:", ';')
    ensures Lacks("LUCRO BRUTO ESTIMADO:", '\n') && Lacks("LUCRO BRUTO ESTIMADO:", ';')
    ensures Lacks("MARGEM DE LUCRO:", '\n') && Lacks("MARGEM DE LUCRO:", ';')
  {
  }

  /** The four value lines of the summary hold one `;` and one line break
      each, when no formatted value holds `c`. */
  lemma SummaryFieldsCount(b: Budget, f: Formatting, c: char)
    requires c == ';' || c == '\n'
    requires c !in f.fixed2(b.totalCost) && c !in f.fixed2(b.totalSale)
    requires c !in f.fixed2(b.profit) && c !in f.fixed1(b.margin)
    ensures Count(SummaryFields(b, f), c) == 4
  {
    var l1 := Field("CUSTO TOTAL DE MATERIAIS:", f.fixed2(b.totalCost), "€");
    var l2 := Field("VALOR TOTAL DO ORÇAMENTO:", f.fixed2(b.totalSale), "€");
    var l3 := Field("LUCRO BRUTO ESTIMADO:", f.fixed2(b.profit), "€");
    var l4 := Field("MARGEM DE LUCRO:", f.fixed1(b.margin), "%");
    CaptionsPlain();
    assert Count(";", c) + Count("€", c) + Count("\n", c) == 1;
    assert Count(";", c) + Count("%", c) + Count("\n", c) == 1;
    FieldCount("CUSTO TOTAL DE MATERIAIS:", f.fixed2(b.totalCost), "€", c);
    FieldCount("VALOR TOTAL DO ORÇAMENTO:", f.fixed2(b.totalSale), "€", c);
    FieldCount("LUCRO BRUTO ESTIMADO:", f.fixed2(b.profit), "€", c);
    FieldCount("MARGEM DE LUCRO:", f.fixed1(b.margin), "%", c);
    CountConcat(l1, l2, c);
    CountConcat(l1 + l2, l3, c);
    CountConcat(l1 + l2 + l3, l4, c);
  }

  /** The summary is six lines (a blank one, the title, then cost, sale,
      profit and margin) with one `caption;value` pair on each of the last
      four, when the formatted numbers hold no line break, and no `;`. */
  lemma SummaryLines(b: Budget, f: Formatting, c: char)
    requires c == ';' || c == '\n'
    requires c !in f.fixed2(b.totalCost) && c !in f.fixed2(b.totalSale)
    requires c !in f.fixed2(b.profit) && c !in f.fixed1(b.margin)
    ensures Count(SummaryText(b, f), c) == if c == '\n' then 6 else 4
  {
    var fields := SummaryFields(b, f);
    SummaryFieldsCount(b, f, c);
    TitlesPlain();
    assert SummaryText(b, f) == "\n" + (SummaryTitle + "\n" + fields);
    assert "\n"[1..] == [];
    CountConcat("\n", SummaryTitle + "\n" + fields, c);
    if c == '\n' {
      CountOnceAtEnd(SummaryTitle + "\n", SummaryTitle, c);
      CountConcat(SummaryTitle + "\n", fields, c);
    } else {
      CountAfterPlain(SummaryTitle + "\n", fields, c);
    }
  }

  /** The whole report: five header lines, one line per item whose part is
      found, and six summary lines, when no text put into it holds a line
      break. */
  lemma ReportLines(parts: seq<Part>, project: Project, f: Formatting)
    requires '\n' !in project.name && '\n' !in f.date(project.createdAt)
    requires forall i :: 0 <= i < |CsvRows(parts, project.items)| ==> PlainRow(CsvRows(parts, project.items)[i], f, '\n')
    requires var b := ComputeBudget(parts, project.items);
      '\n' !in f.fixed2(b.totalCost) && '\n' !in f.fixed2(b.totalSale)
      && '\n' !in f.fixed2(b.profit) && '\n' !in f.fixed1(b.margin)
    ensures var rows := CsvRows(parts, project.items);
      Count(HeaderText(project, f) + RowsText(rows, f) + SummaryText(ComputeBudget(parts, project.items), f), '\n')
      == 11 + |rows|
  {
    var rows := CsvRows(parts, project.items);
    var b := ComputeBudget(parts, project.items);
    HeaderLines(project, f);
    RowsTextLines(rows, f);
    SummaryLines(b, f, '\n');
    CountConcat(HeaderText(project, f), RowsText(rows, f), '\n');
    CountConcat(HeaderText(project, f) + RowsText(rows, f), SummaryText(b, f), '\n');
  }

  // ---------------------------------------------------------------------------
  // The file name

  /** `\s` of JavaScript regular expressions: the ECMAScript white space and
      line terminator characters. */
  predicate IsJsSpace(c: char) {
    c == ' ' || c == '\t' || c == '\n' || c == '\r' || c as int == 0x0B || c as int == 0x0C
    || c as int == 0xA0 || c as int == 0x1680 || 0x2000 <= c as int <= 0x200A
    || c as int == 0x2028 || c as int == 0x2029 || c as int == 0x202F || c as int == 0x205F
    || c as int == 0x3000 || c as int == 0xFEFF
  }

  /** `s` without its leading run of white space. */
  function SkipSpaces(s: string): (r: string)
    ensures |r| <= |s|
    ensures s != [] && IsJsSpace(s[0]) ==> |r| < |s|
    ensures r == [] || !IsJsSpace(r[0])
  {
    if s != [] && IsJsSpace(s[0]) then SkipSpaces(s[1..]) else s
  }

  /** `s.replace(/\s+/g, '_')`: each maximal run of white space becomes one `_`. */
  function UnderscoreSpaces(s: string): (r: string)
    ensures forall i :: 0 <= i < |r| ==> !IsJsSpace(r[i])
    ensures |r| <= |s|
    decreases |s|
  {
    if s == [] then ""
    else if IsJsSpace(s[0]) then "_" + UnderscoreSpaces(SkipSpaces(s))
    else [s[0]] + UnderscoreSpaces(s[1..])
  }

  /** A name without white space is used as it is. */
  lemma {:induction false} UnderscoreSpacesKeepsPlainNames(s: string)
    requires forall i :: 0 <= i < |s| ==> !IsJsSpace(s[i])
    ensures UnderscoreSpaces(s) == s
  {
    if s != [] {
      UnderscoreSpacesKeepsPlainNames(s[1..]);
    }
  }

  /** Replacing twice changes nothing more. */
  lemma UnderscoreSpacesIdempotent(s: string)
    ensures UnderscoreSpaces(UnderscoreSpaces(s)) == UnderscoreSpaces(s)
  {
    UnderscoreSpacesKeepsPlainNames(UnderscoreSpaces(s));
  }

  /** A run of white space between two words, however long, turns into a
      single `_`: the words are converted on their own and joined by it. */
  lemma {:induction false} RunBecomesOneUnderscore(a: string, w: string, b: string)
    requires forall i :: 0 <= i < |a| ==> !IsJsSpace(a[i])
    requires w != [] && forall i :: 0 <= i < |w| ==> IsJsSpace(w[i])
    requires b == [] || !IsJsSpace(b[0])
    ensures UnderscoreSpaces(a + w + b) == a + "_" + UnderscoreSpaces(b)
    decreases |a|
  {
    if a == [] {
      assert a + w + b == w + b;
      SkipRun(w, b);
    } else {
      assert (a + w + b)[1..] == a[1..] + w + b;
      assert (a + w + b)[0] == a[0];
      RunBecomesOneUnderscore(a[1..], w, b);
    }
  }

  lemma {:induction false} SkipRun(w: string, b: string)
    requires forall i :: 0 <= i < |w| ==> IsJsSpace(w[i])
    requires b == [] || !IsJsSpace(b[0])
    ensures SkipSpaces(w + b) == b
    decreases |w|
  {
    if w == [] {
      assert w + b == b;
    } else {
      assert (w + b)[1..] == w[1..] + b;
      SkipRun(w[1..], b);
    }
  }

  /** The download name: `Orcamento_JP_`, the converted project name, `.csv`. */
  function ExportFileName(name: string): (r: string)
    ensures forall i :: 0 <= i < |r| ==> !IsJsSpace(r[i])
  {
    "Orcamento_JP_" + UnderscoreSpaces(name) + ".csv"
  }

  /** The text one line adds to the report: its row, or nothing when its part
      is not found. */
  function LineText(parts: seq<Part>, x: ProjectItem, f: Formatting): string {
    match FindPart(parts, x.partId)
    case None => ""
    case Some(p) => RowText(RowOf(p, x), f)
  }

  lemma RowsTextStep(parts: seq<Part>, items: seq<ProjectItem>, i: nat, f: Formatting)
    requires i < |items|
    ensures RowsText(CsvRows(parts, items[..i + 1]), f) == RowsText(CsvRows(parts, items[..i]), f) + LineText(parts, items[i], f)
  {
    var x := items[i];
    assert items[..i + 1] == items[..i] + [x];
    CsvRowsConcat(parts, items[..i], [x]);
    RowsTextConcat(CsvRows(parts, items[..i]), CsvRows(parts, [x]), f);
    match FindPart(parts, x.partId)
    case None =>
      assert CsvRows(parts, [x]) == [];
    case Some(p) =>
      assert CsvRows(parts, [x]) == [RowOf(p, x)];
      assert RowsText([RowOf(p, x)], f) == RowText(RowOf(p, x), f) + RowsText([], f);
  }

  /** The forEach of exportToCSV: the rows of the lines whose part is found,
      in line order, appended one after the other. */
  method WriteRows(parts: seq<Part>, items: seq<ProjectItem>, f: Formatting) returns (text: string)
    ensures text == RowsText(CsvRows(parts, items), f)
  {
    text := "";
    var i := 0;
    while i < |items|
      invariant 0 <= i <= |items|
      invariant text == RowsText(CsvRows(parts, items[..i]), f)
    {
      var item := items[i];
      RowsTextStep(parts, items, i, f);
      var part := FindPart(parts, item.partId);
      if part.Some? {
        text := text + RowText(RowOf(part.value, item), f);
      } else {
        assert LineText(parts, item, f) == "";
        assert text + "" == text;
      }
      i := i + 1;
    }
    assert items[..i] == items;
  }

  /** The header, appended piece by piece as exportToCSV does. */
  method WriteHeader(project: Project, f: Formatting) returns (text: string)
    ensures text == HeaderText(project, f)
  {
    text := ReportTitle + "\n";
    text := text + Field("Projeto:", project.name, "");
    text := text + Field("Data:", f.date(project.createdAt), "\n");
    text := text + Join(Columns, ';') + "\n";
  }

  /** The summary, appended line by line as exportToCSV does. */
  method WriteSummary(b: Budget, f: Formatting) returns (text: string)
    ensures text == SummaryText(b, f)
  {
    text := "\n" + SummaryTitle + "\n";
    text := text + Field("CUSTO TOTAL DE MATERIAIS:", f.fixed2(b.totalCost), "€");
    text := text + Field("VALOR TOTAL DO ORÇAMENTO:", f.fixed2(b.totalSale), "€");
    text := text + Field("LUCRO BRUTO ESTIMADO:", f.fixed2(b.profit), "€");
    text := text + Field("MARGEM DE LUCRO:", f.fixed1(b.margin), "%");
  }

  /** exportToCSV: the totals from getProjectTotals, the guarded margin, then
      the report assembled by appending the header, one row per line whose part
      is found, and the summary; and the download file name. The text is
      handed to the browser for download (left out). */
  method ExportToCsv(parts: seq<Part>, project: Project, f: Formatting) returns (content: string, fileName: string)
    ensures content == HeaderText(project, f) + RowsText(CsvRows(parts, project.items), f) + SummaryText(ComputeBudget(parts, project.items), f)
    ensures fileName == ExportFileName(project.name)
  {
    var cost, sale := GetProjectTotals(parts, project);
    var profit := sale - cost;
    var margin := if sale > 0.0 then (profit / sale) * 100.0 else 0.0;
    BudgetFromTotals(parts, project.items, cost, sale);
    var budget := Budget(cost, sale, profit, margin);
    assert budget == ComputeBudget(parts, project.items);

    content := WriteHeader(project, f);
    var rows := WriteRows(parts, project.items, f);
    content := content + rows;
    var summary := WriteSummary(budget, f);
    content := content + summary;

    fileName := ExportFileName(project.name);
  }
}
