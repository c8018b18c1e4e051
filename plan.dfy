// What the project-sheet builder of sheets_api.py (both copies) is meant to
// send to the service, as pure functions: the placeholder fixes of one section,
// the calls made for one section, the E2 formula, and the whole plan.  The
// lemmas state the row arithmetic, the formula and the fixes in terms of the
// templates.

module BuildPlan {
  import opened Text
  import opened Sheets

  /** The text replaced in the section template. */
  const Placeholder: string := "{sectionName}"

  /** The section every project sheet ends with. */
  const OtherSection: string := "Прочее"

  /** The width of the block copied for a section (`'endColumnIndex': 10`). */
  const BlockColumns: nat := 10

  /** `sections + ['Прочее']`. */
  function AllSections(sections: seq<string>): (r: seq<string>)
    ensures |r| == |sections| + 1 && r[..|sections|] == sections && r[|sections|] == OtherSection
  {
    sections + [OtherSection]
  }

  /** `len(top_values) + 1 if top_values else 4`: the 1-based row of the first section. */
  function StartRow(topRows: nat): (r: nat)
    ensures r >= 2
    ensures topRows > 0 ==> r == topRows + 1
    ensures topRows == 0 ==> r == 4
  {
    if topRows > 0 then topRows + 1 else 4
  }

  /** The 1-based row at which the section with index `i` starts: `current_row` after `i` passes of
    * `rows` rows each. */
  function SectionRow(start: nat, rows: nat, i: nat): nat {
    if i == 0 then start else SectionRow(start, rows, i - 1) + rows
  }

  /** Each section starts `rows` rows after the previous one. */
  lemma SectionRowNext(start: nat, rows: nat, i: nat)
    ensures SectionRow(start, rows, i + 1) == SectionRow(start, rows, i) + rows
  {
  }

  /** The row of section `i` is `start + i * rows`. */
  lemma {:induction false} SectionRowClosedForm(start: nat, rows: nat, i: nat)
    ensures SectionRow(start, rows, i) == start + i * rows
  {
    if i > 0 {
      SectionRowClosedForm(start, rows, i - 1);
      assert i * rows == (i - 1) * rows + rows;
    }
  }

  // ---------------------------------------------------------------------------
  // Placeholder fixes
  // ---------------------------------------------------------------------------

  /** A cell holding entered text that contains the placeholder. */
  predicate HasPlaceholder(cell: Cell) {
    cell.Entered? && cell.value.StringValue? && Contains(cell.value.s, Placeholder)
  }

  /** The request that rewrites one cell of the new sheet: row `row`, column `column`, with the
    * placeholder of `text` replaced by `title`. */
  function Fix(text: string, row: int, column: nat, sheetId: nat, title: string): Request {
    UpdateCells(GridRange(sheetId, row, row + 1, column, column + 1), StringValue(ReplaceAll(text, Placeholder, title)))
  }

  /** The fixes for the first `j` cells of one template row, destined for row `row`. */
  function RowFixes(cells: seq<Cell>, j: nat, row: int, sheetId: nat, title: string): seq<Request>
    requires j <= |cells|
  {
    if j == 0 then []
    else
      RowFixes(cells, j - 1, row, sheetId, title)
      + (if HasPlaceholder(cells[j - 1]) then [Fix(cells[j - 1].value.s, row, j - 1, sheetId, title)] else [])
  }

  /** The fixes for the first `k` rows of the template grid, whose row 0 lands on the 1-based row
    * `currentRow` of the new sheet (0-based `currentRow - 1`). */
  function GridFixes(grid: seq<seq<Cell>>, k: nat, currentRow: int, sheetId: nat, title: string): seq<Request>
    requires k <= |grid|
  {
    if k == 0 then []
    else
      GridFixes(grid, k - 1, currentRow, sheetId, title)
      + RowFixes(grid[k - 1], |grid[k - 1]|, currentRow - 1 + (k - 1), sheetId, title)
  }

  /** A row yields exactly one fix per placeholder cell, aimed at that cell's column. */
  lemma {:induction false} RowFixesExact(cells: seq<Cell>, j: nat, row: int, sheetId: nat, title: string)
    requires j <= |cells|
    ensures forall q :: q in RowFixes(cells, j, row, sheetId, title) <==>
      exists c :: 0 <= c < j && HasPlaceholder(cells[c]) && q == Fix(cells[c].value.s, row, c, sheetId, title)
  {
    if j > 0 {
      RowFixesExact(cells, j - 1, row, sheetId, title);
    }
  }

  /** The fixes are exactly one per placeholder cell of the template, each aimed at that cell shifted
    * down to the section's rows of the new sheet, with the placeholder replaced by `title`. */
  lemma {:induction false} GridFixesExact(grid: seq<seq<Cell>>, k: nat, currentRow: int, sheetId: nat, title: string)
    requires k <= |grid|
    ensures forall q :: q in GridFixes(grid, k, currentRow, sheetId, title) <==>
      exists r, c :: 0 <= r < k && 0 <= c < |grid[r]| && HasPlaceholder(grid[r][c])
        && q == Fix(grid[r][c].value.s, currentRow - 1 + r, c, sheetId, title)
  {
    if k > 0 {
      GridFixesExact(grid, k - 1, currentRow, sheetId, title);
      var row := grid[k - 1];
      RowFixesExact(row, |row|, currentRow - 1 + (k - 1), sheetId, title);
      forall q | q in GridFixes(grid, k, currentRow, sheetId, title)
        ensures
          exists r, c :: 0 <= r < k && 0 <= c < |grid[r]| && HasPlaceholder(grid[r][c])
            && q == Fix(grid[r][c].value.s, currentRow - 1 + r, c, sheetId, title)
      {
        if q !in GridFixes(grid, k - 1, currentRow, sheetId, title) {
          var c :| 0 <= c < |row| && HasPlaceholder(row[c]) && q == Fix(row[c].value.s, currentRow - 1 + (k - 1), c, sheetId, title);
          assert grid[k - 1][c] == row[c];
        }
      }
      forall r, c | 0 <= r < k && 0 <= c < |grid[r]| && HasPlaceholder(grid[r][c])
        ensures Fix(grid[r][c].value.s, currentRow - 1 + r, c, sheetId, title) in GridFixes(grid, k, currentRow, sheetId, title)
      {
        if r == k - 1 {
          assert Fix(row[c].value.s, currentRow - 1 + (k - 1), c, sheetId, title)
              in RowFixes(row, |row|, currentRow - 1 + (k - 1), sheetId, title);
        }
      }
    }
  }

  /** Every fix request is a text update of the new sheet. */
  lemma FixesAreTextUpdates(grid: seq<seq<Cell>>, currentRow: int, sheetId: nat, title: string)
    ensures forall q :: q in GridFixes(grid, |grid|, currentRow, sheetId, title) ==>
      q.UpdateCells? && q.range.sheetId == sheetId && q.value.StringValue?
  {
    GridFixesExact(grid, |grid|, currentRow, sheetId, title);
  }

  /** When the template has no more rows than `read_values` reports and at most 10 columns, every fix
    * lands inside the block copied for the section: rows `[currentRow - 1, currentRow - 1 + rows)`,
    * columns `[0, 10)`. */
  lemma FixesInsideBlock(grid: seq<seq<Cell>>, rows: nat, currentRow: int, sheetId: nat, title: string)
    requires |grid| <= rows
    requires forall r :: 0 <= r < |grid| ==> |grid[r]| <= BlockColumns
    ensures forall q :: q in GridFixes(grid, |grid|, currentRow, sheetId, title) ==>
      && q.UpdateCells?
      && CopyBlock(sheetId, sheetId, currentRow, rows).destination.startRow <= q.range.startRow
      && q.range.endRow <= CopyBlock(sheetId, sheetId, currentRow, rows).destination.endRow
      && 0 <= q.range.startColumn && q.range.endColumn <= BlockColumns
  {
    GridFixesExact(grid, |grid|, currentRow, sheetId, title);
  }

  // ---------------------------------------------------------------------------
  // The calls for one section
  // ---------------------------------------------------------------------------

  /** The copy of a section: scratch rows `[0, rows)` onto rows `[currentRow - 1, currentRow - 1 + rows)`
    * of the new sheet, ten columns wide. */
  function CopyBlock(scratchId: nat, sheetId: nat, currentRow: int, rows: nat): Request {
    CopyPaste(GridRange(scratchId, 0, rows, 0, BlockColumns),
              GridRange(sheetId, currentRow - 1, currentRow - 1 + rows, 0, BlockColumns))
  }

  /** The batch of fixes, sent only when there is at least one. */
  function FixBatch(fixes: seq<Request>): seq<Call> {
    if fixes == [] then [] else [BatchUpdate(fixes)]
  }

  /** The calls made for a non-empty section template: the grid read, the copy, then the fixes. */
  function FilledSection(section: string, currentRow: int, rows: nat, grid: seq<seq<Cell>>,
                         sheetId: nat, scratchId: nat): seq<Call> {
    [FetchScratchGrid(scratchId), BatchUpdate([CopyBlock(scratchId, sheetId, currentRow, rows)])]
    + FixBatch(GridFixes(grid, |grid|, currentRow, sheetId, Title(section)))
  }

  /** Every call made for one section: copy the template to a scratch sheet, read it, copy its rows
    * and fix its text when it has rows, and delete the scratch sheet in every case. */
  function SectionCalls(section: string, currentRow: int, rows: nat, grid: seq<seq<Cell>>,
                        sheetId: nat, scratchId: nat): seq<Call> {
    [FetchTemplate(SectionTemplate), CopyTemplate(SectionTemplate), ReadScratch(scratchId)]
    + (if rows > 0 then FilledSection(section, currentRow, rows, grid, sheetId, scratchId) else [])
    + [BatchUpdate([DeleteSheet(scratchId)])]
  }

  /** The calls for the first `k` sections; section `i` starts at `SectionRow(start, rows, i)` and its
    * scratch sheet gets the id `sheetId + 1 + i`. */
  function SectionsCalls(sections: seq<string>, k: nat, start: nat, rows: nat, grid: seq<seq<Cell>>,
                         sheetId: nat): seq<Call>
    requires k <= |sections|
  {
    if k == 0 then []
    else
      SectionsCalls(sections, k - 1, start, rows, grid, sheetId)
      + SectionCalls(sections[k - 1], SectionRow(start, rows, k - 1), rows, grid, sheetId, sheetId + k)
  }

  /** The calls for fewer sections are a prefix of the calls for more. */
  lemma {:induction false} SectionsCallsPrefix(sections: seq<string>, i: nat, j: nat, start: nat, rows: nat,
                                               grid: seq<seq<Cell>>, sheetId: nat)
    requires i <= j <= |sections|
    ensures SectionsCalls(sections, i, start, rows, grid, sheetId) <= SectionsCalls(sections, j, start, rows, grid, sheetId)
    decreases j
  {
    if i < j {
      SectionsCallsPrefix(sections, i, j - 1, start, rows, grid, sheetId);
      PrefixGrows(SectionsCalls(sections, i, start, rows, grid, sheetId),
                  SectionsCalls(sections, j - 1, start, rows, grid, sheetId),
                  SectionCalls(sections[j - 1], SectionRow(start, rows, j - 1), rows, grid, sheetId, sheetId + j));
    }
  }

  /** After a header, the calls for `k + 1` sections are those for `k` sections followed by the calls
    * for section `k`. */
  lemma SectionsCallsStep(head: seq<Call>, sections: seq<string>, k: nat, start: nat, rows: nat,
                          grid: seq<seq<Cell>>, sheetId: nat)
    requires k < |sections|
    ensures head + SectionsCalls(sections, k, start, rows, grid, sheetId)
              + SectionCalls(sections[k], SectionRow(start, rows, k), rows, grid, sheetId, sheetId + (k + 1))
         == head + SectionsCalls(sections, k + 1, start, rows, grid, sheetId)
  {
    AppendAssoc(head, SectionsCalls(sections, k, start, rows, grid, sheetId),
                SectionCalls(sections[k], SectionRow(start, rows, k), rows, grid, sheetId, sheetId + (k + 1)));
  }

  /** A prefix of `b` is a prefix of `b` extended. */
  lemma PrefixGrows<T>(a: seq<T>, b: seq<T>, c: seq<T>)
    requires a <= b
    ensures a <= b + c
  {
    assert (b + c)[..|a|] == b[..|a|];
  }

  // ---------------------------------------------------------------------------
  // The formula
  // ---------------------------------------------------------------------------

  /** `formula_parts` after `count` sections: `E<row>` appended for each section's first row. */
  function FormulaParts(start: nat, rows: nat, count: nat): (parts: seq<string>)
    ensures |parts| == count
  {
    if count == 0 then [] else FormulaParts(start, rows, count - 1) + ["E" + NatStr(SectionRow(start, rows, count - 1))]
  }

  /** One more section appends its own term. */
  lemma FormulaPartsNext(start: nat, rows: nat, i: nat, row: nat)
    requires row == SectionRow(start, rows, i)
    ensures FormulaParts(start, rows, i) + ["E" + NatStr(row)] == FormulaParts(start, rows, i + 1)
  {
  }

  /** Term `i` names the first row of section `i`. */
  lemma {:induction false} FormulaPartsAt(start: nat, rows: nat, count: nat)
    ensures forall i :: 0 <= i < count ==> FormulaParts(start, rows, count)[i] == "E" + NatStr(SectionRow(start, rows, i))
  {
    if count > 0 {
      FormulaPartsAt(start, rows, count - 1);
    }
  }

  /** `'=' + '+'.join(formula_parts)`. */
  function Formula(parts: seq<string>): string {
    "=" + Join("+", parts)
  }

  /** The request writing the formula into E2 (row 1, column 4). */
  function FormulaCall(sheetId: nat, parts: seq<string>): Call {
    BatchUpdate([UpdateCells(GridRange(sheetId, 1, 2, 4, 5), FormulaValue(Formula(parts)))])
  }

  /** The formula can be read back: after the `=`, splitting on `+` gives one `E<digits>` term per
    * section, and each term names the first row of its section. */
  lemma FormulaReadsBack(start: nat, rows: nat, count: nat)
    requires count >= 1
    ensures var parts := FormulaParts(start, rows, count);
      var f := Formula(parts);
      && f[0] == '='
      && Split(f[1..], '+') == parts
      && forall i :: 0 <= i < count ==>
           && |parts[i]| >= 2 && parts[i][0] == 'E'
           && (forall k :: 1 <= k < |parts[i]| ==> IsDigit(parts[i][k]))
           && ParseNat(parts[i][1..]) == SectionRow(start, rows, i)
  {
    var parts := FormulaParts(start, rows, count);
    FormulaPartsAt(start, rows, count);
    forall i | 0 <= i < count
      ensures '+' !in parts[i]
      ensures parts[i][1..] == NatStr(SectionRow(start, rows, i))
    {
      var digits := NatStr(SectionRow(start, rows, i));
      assert parts[i] == "E" + digits;
      assert parts[i][1..] == digits;
    }
    SplitJoin(parts, '+');
    assert Formula(parts)[1..] == Join("+", parts);
    forall i | 0 <= i < count
      ensures ParseNat(parts[i][1..]) == SectionRow(start, rows, i)
    {
      ParseNatStr(SectionRow(start, rows, i));
    }
  }

  /** The blocks of consecutive sections touch without overlapping, and the formula term of each
    * section names the first row (1-based) of that section's block. */
  lemma BlocksTile(start: nat, rows: nat, count: nat, sheetId: nat, i: nat)
    requires i + 1 < count
    ensures var here := CopyBlock(sheetId + 1 + i, sheetId, SectionRow(start, rows, i), rows).destination;
      var next := CopyBlock(sheetId + 2 + i, sheetId, SectionRow(start, rows, i + 1), rows).destination;
      && here.endRow == next.startRow
      && here.endRow - here.startRow == rows
      && FormulaParts(start, rows, count)[i] == "E" + NatStr(here.startRow + 1)
  {
    FormulaPartsAt(start, rows, count);
  }

  // ---------------------------------------------------------------------------
  // The whole build
  // ---------------------------------------------------------------------------

  /** The header: fetch and copy the top template, rename the copy, read its column A. */
  function HeadCalls(sheetId: nat, title: string): seq<Call> {
    [FetchTemplate(TopTemplate), CopyTemplate(TopTemplate), BatchUpdate([UpdateTitle(sheetId, title)]), ReadTopColumn]
  }

  /** Every call of a successful build of the sheet `title` with the given sections, the new sheet
    * receiving the id `sheetId`. */
  function BuildCalls(title: string, sections: seq<string>, sheetId: nat,
                      topRows: nat, rows: nat, grid: seq<seq<Cell>>): seq<Call> {
    var all := AllSections(sections);
    HeadCalls(sheetId, title)
    + SectionsCalls(all, |all|, StartRow(topRows), rows, grid, sheetId)
    + [FormulaCall(sheetId, FormulaParts(StartRow(topRows), rows, |all|))]
  }

  /** A batch of requests on cells leaves the sheet titles alone. */
  lemma {:induction false} CellRequestsKeepSheets(sheets: map<nat, string>, requests: seq<Request>)
    requires forall i :: 0 <= i < |requests| ==> requests[i].UpdateCells? || requests[i].CopyPaste?
    ensures ApplyAll(sheets, requests) == sheets
    decreases |requests|
  {
    if requests != [] {
      CellRequestsKeepSheets(sheets, requests[1..]);
    }
  }
}
