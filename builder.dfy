// The project-sheet builder of `GoogleSheetsAPI` (bot/sheets_api.py and
// deploy/bot_server/bot/sheets_api.py) as methods on the service stand-in:
// the placeholder scan, one section, the whole build, the bot's retrying
// wrapper and the deploy variant that re-raises.  Each method is proved to make
// exactly the calls of the matching plan in BuildPlan, stopping at the first
// failure, and to leave every sheet that existed before untouched.

module Builder {
  import opened Wrappers
  import opened Text
  import opened Sheets
  import opened Runs
  import opened SheetTitles
  import opened BuildPlan

  /** Every sheet of `before` is still in `after`, under the same title. */
  predicate Keeps(before: map<nat, string>, after: map<nat, string>) {
    forall id :: id in before ==> id in after && after[id] == before[id]
  }

  /** Adding a sheet under a new id keeps the others. */
  lemma KeepsAdded(before: map<nat, string>, key: nat, value: string)
    requires key !in before
    ensures Keeps(before, before[key := value])
  {
  }

  /** Keeping is transitive. */
  lemma KeepsTrans(a: map<nat, string>, b: map<nat, string>, c: map<nat, string>)
    requires Keeps(a, b) && Keeps(b, c)
    ensures Keeps(a, c)
  {
  }

  /** `head + b` is a prefix of `head + c + tail` when `b` is a prefix of `c`. */
  lemma PrefixConcat(head: seq<Call>, b: seq<Call>, c: seq<Call>, tail: seq<Call>)
    requires b <= c
    ensures head + b <= head + c + tail
  {
    assert (head + c + tail)[..|head + b|] == head + c[..|b|];
  }

  /** Renaming a sheet that was just added is adding it under the new name. */
  lemma RenameCopy(m: map<nat, string>, key: nat, first: string, second: string)
    ensures m[key := first][key := second] == m[key := second]
  {
    assert m[key := first][key := second].Keys == m[key := second].Keys;
  }

  /** A build whose header failed failed as a whole. */
  lemma HeadFailed(oracle: map<nat, Status>, log0: seq<Call>, log1: seq<Call>, title: string, sections: seq<string>,
                   sheetId: nat, topRows: nat, rows: nat, grid: seq<seq<Cell>>, status: Status)
    requires Ran(oracle, log0, log1, HeadCalls(sheetId, title), status)
    requires status != Success
    ensures Ran(oracle, log0, log1, BuildCalls(title, sections, sheetId, topRows, rows, grid), status)
  {
    var head := HeadCalls(sheetId, title);
    var all := AllSections(sections);
    var rest := SectionsCalls(all, |all|, StartRow(topRows), rows, grid, sheetId)
      + [FormulaCall(sheetId, FormulaParts(StartRow(topRows), rows, |all|))];
    assert BuildCalls(title, sections, sheetId, topRows, rows, grid) == head + rest;
    PrefixGrows(head, head, rest);
    RanPrefix(oracle, log0, log1, head, head + rest, status);
  }

  /** A pass over section `i` appended to the passes over the sections before it is the run over one
    * more section. */
  lemma NextSection(oracle: map<nat, Status>, log0: seq<Call>, log1: seq<Call>, log2: seq<Call>, title: string,
                    sections: seq<string>, i: nat, start: nat, rows: nat, grid: seq<seq<Cell>>, sheetId: nat,
                    status: Status)
    requires i < |AllSections(sections)|
    requires Ran(oracle, log0, log1,
                 HeadCalls(sheetId, title) + SectionsCalls(AllSections(sections), i, start, rows, grid, sheetId),
                 Success)
    requires Ran(oracle, log1, log2,
                 SectionCalls(AllSections(sections)[i], SectionRow(start, rows, i), rows, grid, sheetId, sheetId + (i + 1)),
                 status)
    ensures Ran(oracle, log0, log2,
                HeadCalls(sheetId, title) + SectionsCalls(AllSections(sections), i + 1, start, rows, grid, sheetId),
                status)
  {
    var head := HeadCalls(sheetId, title);
    var all := AllSections(sections);
    var done := HeadCalls(sheetId, title) + SectionsCalls(all, i, start, rows, grid, sheetId);
    var pass := SectionCalls(all[i], SectionRow(start, rows, i), rows, grid, sheetId, sheetId + (i + 1));
    RanThen(oracle, log0, log1, log2, done, pass, status);
    SectionsCallsStep(head, all, i, start, rows, grid, sheetId);
  }

  /** A run that failed within the passes over the first `k` sections failed within the passes over
    * all of them. */
  lemma SectionsStopped(oracle: map<nat, Status>, log0: seq<Call>, log1: seq<Call>, title: string,
                        sections: seq<string>, k: nat, start: nat, rows: nat, grid: seq<seq<Cell>>, sheetId: nat,
                        status: Status)
    requires k <= |AllSections(sections)|
    requires Ran(oracle, log0, log1,
                 HeadCalls(sheetId, title) + SectionsCalls(AllSections(sections), k, start, rows, grid, sheetId),
                 status)
    requires status != Success
    ensures Ran(oracle, log0, log1,
                HeadCalls(sheetId, title)
                + SectionsCalls(AllSections(sections), |AllSections(sections)|, start, rows, grid, sheetId),
                status)
  {
    var head := HeadCalls(sheetId, title);
    var all := AllSections(sections);
    var some := SectionsCalls(all, k, start, rows, grid, sheetId);
    var every := SectionsCalls(all, |all|, start, rows, grid, sheetId);
    SectionsCallsPrefix(all, k, |all|, start, rows, grid, sheetId);
    assert (head + every)[..|head + some|] == head + some;
    RanPrefix(oracle, log0, log1, head + some, head + every, status);
  }

  /** A build that failed before the formula failed as a whole. */
  lemma BuildStopped(oracle: map<nat, Status>, log0: seq<Call>, log1: seq<Call>, title: string, sections: seq<string>,
                     topRows: nat, rows: nat, grid: seq<seq<Cell>>, sheetId: nat, status: Status)
    requires Ran(oracle, log0, log1,
                 HeadCalls(sheetId, title)
                 + SectionsCalls(AllSections(sections), |AllSections(sections)|, StartRow(topRows), rows, grid, sheetId),
                 status)
    requires status != Success
    ensures Ran(oracle, log0, log1, BuildCalls(title, sections, sheetId, topRows, rows, grid), status)
  {
    var all := AllSections(sections);
    var done := HeadCalls(sheetId, title) + SectionsCalls(all, |all|, StartRow(topRows), rows, grid, sheetId);
    var tail := [FormulaCall(sheetId, FormulaParts(StartRow(topRows), rows, |all|))];
    PrefixGrows(done, done, tail);
    RanPrefix(oracle, log0, log1, done, done + tail, status);
  }

  /** Before the first section, the run is the header alone. */
  lemma NoSectionsYet(oracle: map<nat, Status>, log0: seq<Call>, log1: seq<Call>, title: string, sections: seq<string>,
                      topRows: nat, rows: nat, grid: seq<seq<Cell>>, sheetId: nat)
    requires Ran(oracle, log0, log1, HeadCalls(sheetId, title), Success)
    ensures Ran(oracle, log0, log1,
                HeadCalls(sheetId, title) + SectionsCalls(AllSections(sections), 0, StartRow(topRows), rows, grid, sheetId),
                Success)
  {
    assert HeadCalls(sheetId, title) + SectionsCalls(AllSections(sections), 0, StartRow(topRows), rows, grid, sheetId)
        == HeadCalls(sheetId, title);
  }

  /** The formula after every section completes the build. */
  lemma FormulaLast(oracle: map<nat, Status>, log0: seq<Call>, log1: seq<Call>, title: string, sections: seq<string>,
                    topRows: nat, rows: nat, grid: seq<seq<Cell>>, sheetId: nat, call: Call)
    requires Ran(oracle, log0, log1,
                 HeadCalls(sheetId, title)
                 + SectionsCalls(AllSections(sections), |AllSections(sections)|, StartRow(topRows), rows, grid, sheetId),
                 Success)
    requires call == FormulaCall(sheetId, FormulaParts(StartRow(topRows), rows, |AllSections(sections)|))
    ensures Ran(oracle, log0, log1 + [call], BuildCalls(title, sections, sheetId, topRows, rows, grid), Outcome(oracle, |log1|))
  {
    var done := HeadCalls(sheetId, title)
      + SectionsCalls(AllSections(sections), |AllSections(sections)|, StartRow(topRows), rows, grid, sheetId);
    RanStep(oracle, log0, log1, done, call);
    assert done + [call] == BuildCalls(title, sections, sheetId, topRows, rows, grid);
  }

  /** Removing a key that was just added gives back the map it was added to. */
  lemma AddThenRemove(m: map<nat, string>, key: nat, value: string)
    requires key !in m
    ensures m[key := value] - {key} == m
  {
    assert (m[key := value] - {key}).Keys == m.Keys;
  }

  // ---------------------------------------------------------------------------
  // One section
  // ---------------------------------------------------------------------------

  /** The scan of `rowData` for text cells holding the placeholder, row by row and cell by cell. */
  method CollectFixes(grid: seq<seq<Cell>>, currentRow: int, sheetId: nat, section: string)
    returns (requests: seq<Request>)
    ensures requests == GridFixes(grid, |grid|, currentRow, sheetId, Title(section))
  {
    var title := Title(section);
    requests := [];
    var rowIdx := 0;
    while rowIdx < |grid|
      invariant 0 <= rowIdx <= |grid|
      invariant requests == GridFixes(grid, rowIdx, currentRow, sheetId, title)
    {
      var row := grid[rowIdx];
      var colIdx := 0;
      while colIdx < |row|
        invariant 0 <= colIdx <= |row|
        invariant requests == GridFixes(grid, rowIdx, currentRow, sheetId, title)
                              + RowFixes(row, colIdx, currentRow - 1 + rowIdx, sheetId, title)
      {
        var cell := row[colIdx];
        if cell.Entered? && cell.value.StringValue? && Contains(cell.value.s, Placeholder) {
          var range := GridRange(sheetId, currentRow - 1 + rowIdx, currentRow + rowIdx, colIdx, colIdx + 1);
          requests := requests + [UpdateCells(range, StringValue(ReplaceAll(cell.value.s, Placeholder, title)))];
        }
        colIdx := colIdx + 1;
      }
      rowIdx := rowIdx + 1;
    }
  }

  /**
   * The part of a pass for a section template with rows: read its grid, copy its rows to
   * `currentRow`, then send the placeholder fixes when there are any.  Only cells change.
   */
  method FillSection(svc: Service, section: string, sheetId: nat, currentRow: int, scratchId: nat)
    returns (status: Status)
    requires svc.Valid()
    modifies svc
    ensures svc.Valid()
    ensures Ran(svc.oracle, old(svc.log), svc.log,
                FilledSection(section, currentRow, svc.scratchRows, svc.scratchGrid, sheetId, scratchId), status)
    ensures svc.sheets == old(svc.sheets) && svc.nextId == old(svc.nextId)
  {
    ghost var log0 := svc.log;
    ghost var before := svc.sheets;
    ghost var done: seq<Call> := [];
    ghost var plan := FilledSection(section, currentRow, svc.scratchRows, svc.scratchGrid, sheetId, scratchId);
    RanNothing(svc.oracle, log0);

    ghost var log1 := svc.log;
    var grid;
    status, grid := svc.FetchGrid(scratchId);
    RanStep(svc.oracle, log0, log1, done, FetchScratchGrid(scratchId));
    done := done + [FetchScratchGrid(scratchId)];
    if status != Success {
      RanPrefix(svc.oracle, log0, svc.log, done, plan, status);
      return;
    }
    var fixes := CollectFixes(grid, currentRow, sheetId, section);

    log1 := svc.log;
    var copy := CopyBlock(scratchId, sheetId, currentRow, svc.scratchRows);
    assert plan == done + [BatchUpdate([copy])] + FixBatch(fixes);
    status := svc.Update([copy]);
    CellRequestsKeepSheets(before, [copy]);
    RanStep(svc.oracle, log0, log1, done, BatchUpdate([copy]));
    done := done + [BatchUpdate([copy])];
    if status != Success {
      RanPrefix(svc.oracle, log0, svc.log, done, plan, status);
      return;
    }

    if fixes != [] {
      log1 := svc.log;
      status := svc.Update(fixes);
      FixesAreTextUpdates(grid, currentRow, sheetId, Title(section));
      assert forall i :: 0 <= i < |fixes| ==> fixes[i] in fixes;
      CellRequestsKeepSheets(before, fixes);
      RanStep(svc.oracle, log0, log1, done, BatchUpdate(fixes));
      done := done + [BatchUpdate(fixes)];
    }
  }

  /** The start of a pass: fetch the section template, copy it to a scratch sheet, read its rows. */
  method OpenScratch(svc: Service) returns (status: Status, scratchId: nat, sectionRows: nat)
    requires svc.Valid()
    modifies svc
    ensures svc.Valid()
    ensures Ran(svc.oracle, old(svc.log), svc.log,
                [FetchTemplate(SectionTemplate), CopyTemplate(SectionTemplate), ReadScratch(old(svc.nextId))], status)
    ensures status == Success ==>
      && scratchId == old(svc.nextId) && svc.nextId == old(svc.nextId) + 1
      && svc.sheets == old(svc.sheets)[scratchId := svc.copyTitle] && sectionRows == svc.scratchRows
    ensures Keeps(old(svc.sheets), svc.sheets)
  {
    ghost var log0 := svc.log;
    ghost var plan := [FetchTemplate(SectionTemplate), CopyTemplate(SectionTemplate), ReadScratch(svc.nextId)];
    scratchId, sectionRows := svc.nextId, 0;
    RanStart(svc.oracle, log0, plan);

    status := svc.Record(FetchTemplate(SectionTemplate));
    RanNext(svc.oracle, log0, log0, plan, 0);
    if status != Success {
      return;
    }

    ghost var log1 := svc.log;
    status, scratchId := svc.Copy(SectionTemplate);
    RanNext(svc.oracle, log0, log1, plan, 1);
    if status != Success {
      return;
    }
    KeepsAdded(old(svc.sheets), scratchId, svc.copyTitle);

    log1 := svc.log;
    status, sectionRows := svc.ReadScratchRows(scratchId);
    RanNext(svc.oracle, log0, log1, plan, 2);
  }

  /**
   * One pass of the loop over `all_sections`: copy the section template to a scratch sheet, read it,
   * and when it has rows copy them to `currentRow` and fix their placeholders; delete the scratch
   * sheet.  `rowsAdded` is what `current_row` grows by.
   */
  method CopySection(svc: Service, section: string, sheetId: nat, currentRow: int)
    returns (status: Status, rowsAdded: nat)
    requires svc.Valid()
    modifies svc
    ensures svc.Valid()
    ensures Ran(svc.oracle, old(svc.log), svc.log,
                SectionCalls(section, currentRow, svc.scratchRows, svc.scratchGrid, sheetId, old(svc.nextId)), status)
    ensures status == Success ==>
      && svc.sheets == old(svc.sheets) && svc.nextId == old(svc.nextId) + 1 && rowsAdded == svc.scratchRows
    ensures Keeps(old(svc.sheets), svc.sheets)
  {
    ghost var log0 := svc.log;
    ghost var before := svc.sheets;
    ghost var scratch := svc.nextId;
    ghost var opening := [FetchTemplate(SectionTemplate), CopyTemplate(SectionTemplate), ReadScratch(scratch)];
    ghost var middle :=
      if svc.scratchRows > 0 then FilledSection(section, currentRow, svc.scratchRows, svc.scratchGrid, sheetId, scratch)
      else [];
    ghost var closing := [BatchUpdate([DeleteSheet(scratch)])];
    ghost var plan := SectionCalls(section, currentRow, svc.scratchRows, svc.scratchGrid, sheetId, scratch);
    assert plan == opening + middle + closing;
    rowsAdded := 0;

    var scratchId, sectionRows;
    status, scratchId, sectionRows := OpenScratch(svc);
    if status != Success {
      PrefixGrows(opening, opening, middle + closing);
      RanPrefix(svc.oracle, log0, svc.log, opening, plan, status);
      return;
    }
    ghost var withScratch := svc.sheets;
    ghost var log1 := svc.log;

    if sectionRows > 0 {
      status := FillSection(svc, section, sheetId, currentRow, scratchId);
      RanThen(svc.oracle, log0, log1, svc.log, opening, middle, status);
      if status != Success {
        PrefixGrows(opening + middle, opening + middle, closing);
        RanPrefix(svc.oracle, log0, svc.log, opening + middle, plan, status);
        return;
      }
      rowsAdded := sectionRows;
    } else {
      assert opening + middle == opening;
    }
    ghost var done := opening + middle;

    log1 := svc.log;
    status := svc.Update([DeleteSheet(scratchId)]);
    ApplySingle(withScratch, DeleteSheet(scratchId));
    AddThenRemove(before, scratchId, svc.copyTitle);
    RanStep(svc.oracle, log0, log1, done, BatchUpdate([DeleteSheet(scratchId)]));
    done := done + [BatchUpdate([DeleteSheet(scratchId)])];
    assert done == plan;
  }

  // ---------------------------------------------------------------------------
  // The whole sheet
  // ---------------------------------------------------------------------------

  /** The first two calls of the header: fetch the top template and copy it into the main
    * spreadsheet, where the copy receives the next id. */
  method CopyTop(svc: Service, title: string) returns (status: Status, sheetId: nat)
    requires svc.Valid()
    modifies svc
    ensures svc.Valid()
    ensures sheetId == old(svc.nextId)
    ensures status != Success ==>
      Ran(svc.oracle, old(svc.log), svc.log, HeadCalls(sheetId, title), status) && svc.sheets == old(svc.sheets)
    ensures status == Success ==>
      && Ran(svc.oracle, old(svc.log), svc.log, HeadCalls(sheetId, title)[..2], Success)
      && svc.nextId == sheetId + 1 && svc.sheets == old(svc.sheets)[sheetId := svc.copyTitle]
  {
    ghost var log0 := svc.log;
    sheetId := svc.nextId;
    ghost var plan := HeadCalls(sheetId, title);
    RanStart(svc.oracle, log0, plan);
    status := svc.Record(FetchTemplate(TopTemplate));
    RanNext(svc.oracle, log0, log0, plan, 0);
    if status == Success {
      ghost var log1 := svc.log;
      var newSheetId;
      status, newSheetId := svc.Copy(TopTemplate);
      RanNext(svc.oracle, log0, log1, plan, 1);
    }
  }

  /** The header of a build: fetch the top template, copy it, rename the copy to `title`, and read
    * the template's column A. */
  method OpenProjectSheet(svc: Service, title: string) returns (status: Status, sheetId: nat, topRows: nat)
    requires svc.Valid()
    modifies svc
    ensures svc.Valid()
    ensures sheetId == old(svc.nextId)
    ensures Ran(svc.oracle, old(svc.log), svc.log, HeadCalls(sheetId, title), status)
    ensures status == Success ==>
      && svc.nextId == sheetId + 1 && svc.sheets == old(svc.sheets)[sheetId := title] && topRows == svc.topRows
    ensures Keeps(old(svc.sheets), svc.sheets)
  {
    ghost var log0 := svc.log;
    topRows := 0;
    status, sheetId := CopyTop(svc, title);
    if status == Success {
      ghost var plan := HeadCalls(sheetId, title);
      ghost var copied := svc.sheets;
      KeepsAdded(old(svc.sheets), sheetId, svc.copyTitle);
      ghost var log1 := svc.log;
      status := svc.Update([UpdateTitle(sheetId, title)]);
      ApplySingle(copied, UpdateTitle(sheetId, title));
      RenameCopy(old(svc.sheets), sheetId, svc.copyTitle, title);
      KeepsAdded(old(svc.sheets), sheetId, title);
      RanNext(svc.oracle, log0, log1, plan, 2);
      if status == Success {
        log1 := svc.log;
        status, topRows := svc.ReadTop();
        RanNext(svc.oracle, log0, log1, plan, 3);
      }
    }
  }

  /**
   * Where a build stands after the header and `i` passes of the loop over `all_sections`: the run
   * covers those passes however it ended, the sheets that existed are untouched, and while every call
   * has succeeded `current_row` and the formula's terms are those of the first `i` sections.
   */
  ghost predicate Progress(svc: Service, log0: seq<Call>, title: string, sections: seq<string>, sheetId: nat,
                           sheets0: map<nat, string>, i: nat, status: Status, currentRow: nat, formulaParts: seq<string>)
    reads svc
  {
    && i <= |AllSections(sections)|
    && svc.Valid() && Keeps(sheets0, svc.sheets)
    && Ran(svc.oracle, log0, svc.log,
           HeadCalls(sheetId, title)
           + SectionsCalls(AllSections(sections), i, StartRow(svc.topRows), svc.scratchRows, svc.scratchGrid, sheetId),
           status)
    && (status == Success ==>
          && svc.sheets == sheets0 && svc.nextId == sheetId + 1 + i
          && currentRow == SectionRow(StartRow(svc.topRows), svc.scratchRows, i)
          && formulaParts == FormulaParts(StartRow(svc.topRows), svc.scratchRows, i))
  }

  /**
   * Pass `i` of the loop over `all_sections` inside a build that has made the header and the passes
   * before it: append the term `E<current_row>` to the formula, copy the section, and advance
   * `current_row` by the section's rows.  The run then covers one more section, however it ended.
   */
  method SectionPass(svc: Service, ghost log0: seq<Call>, title: string, sections: seq<string>, sheetId: nat,
                     ghost sheets0: map<nat, string>, i: nat, currentRow: nat, formulaParts: seq<string>)
    returns (status: Status, nextRow: nat, nextParts: seq<string>)
    requires i < |AllSections(sections)|
    requires Progress(svc, log0, title, sections, sheetId, sheets0, i, Success, currentRow, formulaParts)
    modifies svc
    ensures Progress(svc, log0, title, sections, sheetId, sheets0, i + 1, status, nextRow, nextParts)
  {
    assert svc.sheets == sheets0 && svc.nextId == sheetId + 1 + i;
    FormulaPartsNext(StartRow(svc.topRows), svc.scratchRows, i, currentRow);
    nextParts := formulaParts + ["E" + NatStr(currentRow)];
    ghost var log1 := svc.log;
    var rowsAdded;
    status, rowsAdded := CopySection(svc, AllSections(sections)[i], sheetId, currentRow);
    NextSection(svc.oracle, log0, log1, svc.log, title, sections, i, StartRow(svc.topRows), svc.scratchRows,
                svc.scratchGrid, sheetId, status);
    SectionRowNext(StartRow(svc.topRows), svc.scratchRows, i);
    nextRow := currentRow + rowsAdded;
  }

  /**
   * The loop over `all_sections` of a build whose header has been made: one pass per section, with
   * `current_row` starting below the top block and advancing by each section's rows, collecting the
   * formula's terms.  The run stops at the first failed call.
   */
  method BuildSections(svc: Service, ghost log0: seq<Call>, title: string, sections: seq<string>, sheetId: nat,
                       topRows: nat) returns (status: Status, formulaParts: seq<string>, ghost passes: nat)
    requires svc.Valid() && svc.nextId == sheetId + 1 && topRows == svc.topRows
    requires Ran(svc.oracle, log0, svc.log, HeadCalls(sheetId, title), Success)
    modifies svc
    ensures svc.Valid()
    ensures Keeps(old(svc.sheets), svc.sheets)
    ensures passes <= |AllSections(sections)|
    ensures Ran(svc.oracle, log0, svc.log,
                HeadCalls(sheetId, title)
                + SectionsCalls(AllSections(sections), passes, StartRow(svc.topRows), svc.scratchRows, svc.scratchGrid, sheetId),
                status)
    ensures status == Success ==>
      && passes == |AllSections(sections)| && svc.sheets == old(svc.sheets)
      && formulaParts == FormulaParts(StartRow(svc.topRows), svc.scratchRows, |AllSections(sections)|)
  {
    NoSectionsYet(svc.oracle, log0, svc.log, title, sections, svc.topRows, svc.scratchRows, svc.scratchGrid, sheetId);
    status := Success;
    var currentRow: nat := if topRows > 0 then topRows + 1 else 4;
    formulaParts := [];
    var allSections := sections + [OtherSection];
    var i := 0;
    while i < |allSections| && status == Success
      invariant allSections == AllSections(sections)
      invariant Progress(svc, log0, title, sections, sheetId, old(svc.sheets), i, status, currentRow, formulaParts)
    {
      status, currentRow, formulaParts := SectionPass(svc, log0, title, sections, sheetId, old(svc.sheets), i,
                                                      currentRow, formulaParts);
      i := i + 1;
    }
    passes := i;
  }

  /**
   * The body of `create_project_sheet_with_retry` (bot) and `create_project_sheet` (deploy) after the
   * title is chosen: the header, one pass per section of `sections + ['Прочее']`, then the sum formula
   * in E2.  On success the new sheet is the only change to the main spreadsheet; in every case the
   * sheets that existed are untouched.
   */
  method BuildSheet(svc: Service, title: string, sections: seq<string>) returns (status: Status, sheetId: nat)
    requires svc.Valid()
    modifies svc
    ensures svc.Valid()
    ensures sheetId == old(svc.nextId)
    ensures Ran(svc.oracle, old(svc.log), svc.log,
                BuildCalls(title, sections, sheetId, svc.topRows, svc.scratchRows, svc.scratchGrid), status)
    ensures status == Success ==> svc.sheets == old(svc.sheets)[sheetId := title]
    ensures Keeps(old(svc.sheets), svc.sheets)
  {
    var topRows;
    status, sheetId, topRows := OpenProjectSheet(svc, title);
    if status != Success {
      HeadFailed(svc.oracle, old(svc.log), svc.log, title, sections, sheetId, svc.topRows, svc.scratchRows,
                 svc.scratchGrid, status);
      return;
    }
    ghost var named := svc.sheets;
    var formulaParts;
    ghost var passes;
    status, formulaParts, passes := BuildSections(svc, old(svc.log), title, sections, sheetId, topRows);
    KeepsTrans(old(svc.sheets), named, svc.sheets);
    if status != Success {
      SectionsStopped(svc.oracle, old(svc.log), svc.log, title, sections, passes, StartRow(svc.topRows), svc.scratchRows,
                      svc.scratchGrid, sheetId, status);
      BuildStopped(svc.oracle, old(svc.log), svc.log, title, sections, svc.topRows, svc.scratchRows, svc.scratchGrid,
                   sheetId, status);
      return;
    }

    ghost var log1 := svc.log;
    var formula := "=" + Join("+", formulaParts);
    var formulaRequest := UpdateCells(GridRange(sheetId, 1, 2, 4, 5), FormulaValue(formula));
    status := svc.Update([formulaRequest]);
    CellRequestsKeepSheets(named, [formulaRequest]);
    FormulaLast(svc.oracle, old(svc.log), log1, title, sections, svc.topRows, svc.scratchRows, svc.scratchGrid,
                sheetId, BatchUpdate([formulaRequest]));
  }
}
