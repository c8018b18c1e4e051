// An in-memory stand-in for the Google Sheets service that both copies of
// `GoogleSheetsAPI` (bot/sheets_api.py and deploy/bot_server/bot/sheets_api.py)
// talk to.  The main spreadsheet is a map from sheet id to title; the two
// template spreadsheets are fixed data.  Each call is appended to a log, and
// whether it succeeds is decided by an oracle indexed by the call's position in
// that log, so failures and retries can be stated exactly.

module Sheets {
  import opened Wrappers

  /** How a call to the service ended: normally, with an `HttpError` of the given status code, or
    * with any other exception. */
  datatype Status = Success | HttpError(code: int) | OtherError

  /** The two template spreadsheets named by `template_top` and `template_section`. */
  datatype Template = TopTemplate | SectionTemplate

  /** The `userEnteredValue` of a cell. */
  datatype CellValue = StringValue(s: string) | FormulaValue(formula: string) | OtherValue

  /** A cell of `rowData[..].values`: with or without a `userEnteredValue`. */
  datatype Cell = Blank | Entered(value: CellValue)

  /** The status of the call at position `j` of the log: the calls listed in `oracle` end as listed,
    * every other call succeeds. */
  function Outcome(oracle: map<nat, Status>, j: nat): Status {
    if j in oracle then oracle[j] else Success
  }

  /** A `GridRange`: rows and columns are 0-based and the ends exclusive. */
  datatype GridRange = GridRange(sheetId: nat, startRow: int, endRow: int, startColumn: int, endColumn: int)

  /** The requests of a `batchUpdate` that the builder sends. */
  datatype Request =
    | UpdateTitle(sheetId: nat, title: string)              // updateSheetProperties, fields 'title'
    | CopyPaste(source: GridRange, destination: GridRange)  // copyPaste, PASTE_NORMAL
    | UpdateCells(range: GridRange, value: CellValue)       // updateCells, fields 'userEnteredValue'
    | DeleteSheet(sheetId: nat)

  /** One call to the service, as it is recorded in the log. */
  datatype Call =
    | FetchSheets                       // spreadsheets().get(main) for the sheet titles
    | FetchTemplate(template: Template) // spreadsheets().get(template) for its first sheet id
    | CopyTemplate(template: Template)  // sheets().copyTo(template -> main)
    | ReadTopColumn                     // read_values(template_top, 'A1:A')
    | ReadScratch(sheetId: nat)         // read_values(main, '<scratch>!A1:J')
    | FetchScratchGrid(sheetId: nat)    // spreadsheets().get(main, '<scratch>!A1:J', includeGridData)
    | BatchUpdate(requests: seq<Request>)

  /** The effect of one request on the sheet titles of the main spreadsheet; requests on cells leave
    * the titles alone. */
  function ApplyRequest(sheets: map<nat, string>, request: Request): (r: map<nat, string>)
    ensures r.Keys <= sheets.Keys
    ensures forall id :: id in r && !(request.UpdateTitle? && request.sheetId == id) ==> r[id] == sheets[id]
  {
    match request
    case UpdateTitle(id, title) => if id in sheets then sheets[id := title] else sheets
    case DeleteSheet(id) => sheets - {id}
    case _ => sheets
  }

  /** The effect of a whole batch, request by request. */
  function ApplyAll(sheets: map<nat, string>, requests: seq<Request>): (r: map<nat, string>)
    ensures r.Keys <= sheets.Keys
    decreases |requests|
  {
    if requests == [] then sheets else ApplyAll(ApplyRequest(sheets, requests[0]), requests[1..])
  }

  /** A batch of one request has that request's effect. */
  lemma ApplySingle(sheets: map<nat, string>, request: Request)
    ensures ApplyAll(sheets, [request]) == ApplyRequest(sheets, request)
  {
    assert [request][1..] == [];
  }

  /** The service.  `sheets` is the main spreadsheet, `nextId` the id its next copied sheet receives,
    * `log` every call made so far; the remaining fields are the templates' contents and the oracle. */
  class Service {
    var sheets: map<nat, string>
    var nextId: nat
    var log: seq<Call>
    /** The calls that raise, by their position in the log; every other call succeeds. */
    const oracle: map<nat, Status>
    /** The title a copied template sheet receives. */
    const copyTitle: string
    /** The number of values in column A of the top template (`len(read_values(top, 'A1:A'))`). */
    const topRows: nat
    /** The number of rows `read_values` returns for a copy of the section template. */
    const scratchRows: nat
    /** The `rowData` of a copy of the section template. */
    const scratchGrid: seq<seq<Cell>>

    /** Every existing sheet id was handed out before `nextId`. */
    predicate Valid()
      reads this
    {
      forall id :: id in sheets ==> id < nextId
    }

    /** The titles of the main spreadsheet's sheets. */
    function Titles(): set<string>
      reads this
    {
      sheets.Values
    }

    constructor (sheets0: map<nat, string>, nextId0: nat, oracle: map<nat, Status>, copyTitle: string,
                 topRows: nat, scratchRows: nat, scratchGrid: seq<seq<Cell>>)
      requires forall id :: id in sheets0 ==> id < nextId0
      ensures Valid()
      ensures sheets == sheets0 && nextId == nextId0 && log == []
      ensures this.oracle == oracle && this.copyTitle == copyTitle
      ensures this.topRows == topRows && this.scratchRows == scratchRows && this.scratchGrid == scratchGrid
    {
      sheets := sheets0;
      nextId := nextId0;
      log := [];
      this.oracle := oracle;
      this.copyTitle := copyTitle;
      this.topRows := topRows;
      this.scratchRows := scratchRows;
      this.scratchGrid := scratchGrid;
    }

    /** Records `call` and answers with the oracle's verdict for it. */
    method Record(call: Call) returns (status: Status)
      modifies this
      ensures log == old(log) + [call]
      ensures status == Outcome(oracle, |old(log)|)
      ensures sheets == old(sheets) && nextId == old(nextId)
    {
      status := Outcome(oracle, |log|);
      log := log + [call];
    }

    /** `spreadsheets().get(main)`: the titles of the main spreadsheet. */
    method FetchTitles() returns (status: Status, titles: set<string>)
      modifies this
      ensures log == old(log) + [FetchSheets]
      ensures status == Outcome(oracle, |old(log)|)
      ensures sheets == old(sheets) && nextId == old(nextId)
      ensures titles == sheets.Values
    {
      status := Record(FetchSheets);
      titles := sheets.Values;
    }

    /** `sheets().copyTo`: a copy of the template's first sheet is added to the main spreadsheet under a
      * fresh id. */
    method Copy(template: Template) returns (status: Status, sheetId: nat)
      requires Valid()
      modifies this
      ensures Valid()
      ensures log == old(log) + [CopyTemplate(template)]
      ensures status == Outcome(oracle, |old(log)|)
      ensures status == Success ==>
        && sheetId == old(nextId) && nextId == old(nextId) + 1
        && sheets == old(sheets)[sheetId := copyTitle]
      ensures status != Success ==> sheets == old(sheets) && nextId == old(nextId)
    {
      status := Record(CopyTemplate(template));
      sheetId := nextId;
      if status == Success {
        sheets := sheets[sheetId := copyTitle];
        nextId := nextId + 1;
      }
    }

    /** `read_values(template_top, 'A1:A')`: the number of values in column A. */
    method ReadTop() returns (status: Status, rows: nat)
      modifies this
      ensures log == old(log) + [ReadTopColumn]
      ensures status == Outcome(oracle, |old(log)|)
      ensures sheets == old(sheets) && nextId == old(nextId)
      ensures rows == topRows
    {
      status := Record(ReadTopColumn);
      rows := topRows;
    }

    /** `read_values(main, '<scratch>!A1:J')`: the number of rows of the scratch sheet. */
    method ReadScratchRows(sheetId: nat) returns (status: Status, rows: nat)
      modifies this
      ensures log == old(log) + [ReadScratch(sheetId)]
      ensures status == Outcome(oracle, |old(log)|)
      ensures sheets == old(sheets) && nextId == old(nextId)
      ensures rows == scratchRows
    {
      status := Record(ReadScratch(sheetId));
      rows := scratchRows;
    }

    /** `spreadsheets().get(..., includeGridData=True)`: the scratch sheet's `rowData`. */
    method FetchGrid(sheetId: nat) returns (status: Status, grid: seq<seq<Cell>>)
      modifies this
      ensures log == old(log) + [FetchScratchGrid(sheetId)]
      ensures status == Outcome(oracle, |old(log)|)
      ensures sheets == old(sheets) && nextId == old(nextId)
      ensures grid == scratchGrid
    {
      status := Record(FetchScratchGrid(sheetId));
      grid := scratchGrid;
    }

    /** `spreadsheets().batchUpdate(main, {'requests': requests})`. */
    method Update(requests: seq<Request>) returns (status: Status)
      requires Valid()
      modifies this
      ensures Valid()
      ensures log == old(log) + [BatchUpdate(requests)]
      ensures status == Outcome(oracle, |old(log)|)
      ensures nextId == old(nextId)
      ensures sheets == if status == Success then ApplyAll(old(sheets), requests) else old(sheets)
    {
      status := Record(BatchUpdate(requests));
      if status == Success {
        sheets := ApplyAll(sheets, requests);
      }
    }
  }
}
