// The public entry points of `GoogleSheetsAPI` that build a project sheet:
// the bot's `create_project_sheet` / `create_project_sheet_with_retry`
// (bot/sheets_api.py), which read the configuration on every attempt, retry a
// 503 twice with a doubling delay and answer with the sheet's link or None, and
// the deploy copy's `create_project_sheet` (deploy/bot_server/bot/sheets_api.py),
// which builds once and answers with the new sheet id or re-raises.

module ProjectSheets {
  import opened Wrappers
  import opened Text
  import opened Sheets
  import opened Runs
  import opened SheetTitles
  import opened BuildPlan
  import opened Builder

  // ---------------------------------------------------------------------------
  // Configuration and links
  // ---------------------------------------------------------------------------

  /** The `installed` section of credentials/client_secrets.json; `None` when the file is missing,
    * is not valid JSON or has no `installed` section. */
  type Config = Option<map<string, string>>

  /** The configuration names the main spreadsheet and both templates. */
  predicate ConfigComplete(config: Config) {
    && config.Some?
    && "main_sheet" in config.value
    && "template_top" in config.value
    && "template_section" in config.value
  }

  const UrlPrefix: string := "https://docs.google.com/spreadsheets/d/"
  const UrlGid: string := "/edit#gid="

  /** The link to sheet `sheetId` of the spreadsheet `main`. */
  function SheetUrl(main: string, sheetId: nat): (url: string)
    ensures UrlPrefix <= url
  {
    UrlPrefix + main + UrlGid + NatStr(sheetId)
  }

  /** The link determines the sheet: two different sheets of one spreadsheet never share a link. */
  lemma SheetUrlInjective(main: string, a: nat, b: nat)
    requires SheetUrl(main, a) == SheetUrl(main, b)
    ensures a == b
  {
    var n := |UrlPrefix + main + UrlGid|;
    assert SheetUrl(main, a)[n..] == NatStr(a);
    assert SheetUrl(main, b)[n..] == NatStr(b);
    NatStrInjective(a, b);
  }

  // ---------------------------------------------------------------------------
  // Distinct titles
  // ---------------------------------------------------------------------------

  /** No two sheets of the main spreadsheet share a title. */
  predicate DistinctTitles(sheets: map<nat, string>) {
    forall a, b :: a in sheets && b in sheets && a != b ==> sheets[a] != sheets[b]
  }

  /** A sheet added under a new id with a title no sheet has keeps the titles distinct. */
  lemma AddFresh(sheets: map<nat, string>, id: nat, title: string)
    requires DistinctTitles(sheets)
    requires id !in sheets && title !in sheets.Values
    ensures DistinctTitles(sheets[id := title])
  {
    var after := sheets[id := title];
    forall a, b | a in after && b in after && a != b
      ensures after[a] != after[b]
    {
      if a == id {
        assert after[b] == sheets[b] && sheets[b] in sheets.Values;
      } else if b == id {
        assert after[a] == sheets[a] && sheets[a] in sheets.Values;
      }
    }
  }

  /** A successful build under the free title adds one sheet whose title no sheet had. */
  lemma FreshTitleSheet(sheets: map<nat, string>, id: nat, base: string)
    requires id !in sheets
    ensures FreeTitle(base, sheets.Values) !in sheets.Values
    ensures DistinctTitles(sheets) ==> DistinctTitles(sheets[id := FreeTitle(base, sheets.Values)])
  {
    FreeTitleProperties(base, sheets.Values);
    if DistinctTitles(sheets) {
      AddFresh(sheets, id, FreeTitle(base, sheets.Values));
    }
  }

  // ---------------------------------------------------------------------------
  // bot/sheets_api.py
  // ---------------------------------------------------------------------------

  /**
   * `get_sheet_info`: one fetch of the main spreadsheet, then a scan of its sheets for the one whose
   * id reads as `sheetId`.  The answer is that sheet's id and title, or `None` when no sheet has that
   * id or the fetch raised.  Ids are distinct numbers, so at most one sheet matches and the order of
   * the scan does not matter.
   */
  method GetSheetInfo(svc: Service, sheetId: string) returns (info: Option<(nat, string)>)
    modifies svc
    ensures svc.log == old(svc.log) + [FetchSheets]
    ensures svc.sheets == old(svc.sheets) && svc.nextId == old(svc.nextId)
    ensures Outcome(svc.oracle, |old(svc.log)|) != Success ==> info == None
    ensures info.Some? ==>
      var (id, title) := info.value; id in svc.sheets && NatStr(id) == sheetId && title == svc.sheets[id]
    ensures Outcome(svc.oracle, |old(svc.log)|) == Success ==>
      forall id :: id in svc.sheets && NatStr(id) == sheetId ==> info == Some((id, svc.sheets[id]))
  {
    var status, titles := svc.FetchTitles();
    if status != Success {
      return None;
    }
    var rest := svc.sheets.Keys;
    while rest != {}
      invariant rest <= svc.sheets.Keys
      invariant forall id :: id in svc.sheets && id !in rest ==> NatStr(id) != sheetId
      decreases rest
    {
      var id :| id in rest;
      if NatStr(id) == sheetId {
        forall other | other in svc.sheets && NatStr(other) == sheetId
          ensures other == id
        {
          NatStrInjective(other, id);
        }
        return Some((id, svc.sheets[id]));
      }
      rest := rest - {id};
    }
    return None;
  }

  /** The sheet a link points at is the one `get_sheet_info` finds for the link's `gid`. */
  lemma LinkFindsSheet(main: string, sheets: map<nat, string>, id: nat)
    requires id in sheets
    ensures var url := SheetUrl(main, id); var gid := url[|UrlPrefix + main + UrlGid|..];
      gid == NatStr(id) && forall other :: other in sheets && NatStr(other) == gid ==> other == id
  {
    var gid := SheetUrl(main, id)[|UrlPrefix + main + UrlGid|..];
    assert gid == NatStr(id);
    forall other | other in sheets && NatStr(other) == gid
      ensures other == id
    {
      NatStrInjective(other, id);
    }
  }

  /** How one pass through the body of the retry loop ended: the configuration was incomplete, a call
    * raised, or the sheet was built and its link returned. */
  datatype Attempt = ConfigMissing | Raised(status: Status) | Built(url: string)

  /** Every call of one successful pass: the fetches of the title search, then the build. */
  function AttemptCalls(base: string, sections: seq<string>, titles: set<string>, sheetId: nat,
                        topRows: nat, rows: nat, grid: seq<seq<Cell>>): seq<Call> {
    Fetches(FreeIndex(base, titles) + 1) + BuildCalls(FreeTitle(base, titles), sections, sheetId, topRows, rows, grid)
  }

  /** A finished title search followed by a build runs the whole pass. */
  lemma AttemptThen(oracle: map<nat, Status>, log0: seq<Call>, log1: seq<Call>, log2: seq<Call>,
                    base: string, sections: seq<string>, titles: set<string>, sheetId: nat,
                    topRows: nat, rows: nat, grid: seq<seq<Cell>>, status: Status)
    requires Ran(oracle, log0, log1, Fetches(FreeIndex(base, titles) + 1), Success)
    requires Ran(oracle, log1, log2, BuildCalls(FreeTitle(base, titles), sections, sheetId, topRows, rows, grid), status)
    ensures Ran(oracle, log0, log2, AttemptCalls(base, sections, titles, sheetId, topRows, rows, grid), status)
  {
    RanThen(oracle, log0, log1, log2, Fetches(FreeIndex(base, titles) + 1),
            BuildCalls(FreeTitle(base, titles), sections, sheetId, topRows, rows, grid), status);
  }

  /** A title search that failed ends the whole pass. */
  lemma AttemptStopped(oracle: map<nat, Status>, log0: seq<Call>, log1: seq<Call>,
                       base: string, sections: seq<string>, titles: set<string>, sheetId: nat,
                       topRows: nat, rows: nat, grid: seq<seq<Cell>>, status: Status)
    requires Ran(oracle, log0, log1, Fetches(FreeIndex(base, titles) + 1), status)
    requires status != Success
    ensures Ran(oracle, log0, log1, AttemptCalls(base, sections, titles, sheetId, topRows, rows, grid), status)
  {
    RanStopped(oracle, log0, log1, Fetches(FreeIndex(base, titles) + 1),
               BuildCalls(FreeTitle(base, titles), sections, sheetId, topRows, rows, grid), status);
  }

  /**
   * One pass through the body of the retry loop: check the configuration, choose a free title by
   * fetching the sheet list once per candidate, build the sheet, and answer with its link.
   */
  method AttemptBot(svc: Service, config: Config, projectName: string, sections: seq<string>)
    returns (result: Attempt)
    requires svc.Valid()
    modifies svc
    ensures svc.Valid()
    ensures Keeps(old(svc.sheets), svc.sheets)
    ensures !ConfigComplete(config) <==> result == ConfigMissing
    ensures !ConfigComplete(config) ==> svc.log == old(svc.log) && svc.sheets == old(svc.sheets)
    ensures result.Raised? ==> result.status != Success
    ensures ConfigComplete(config) ==>
      Ran(svc.oracle, old(svc.log), svc.log,
          AttemptCalls(projectName, sections, old(svc.sheets).Values, old(svc.nextId),
                       svc.topRows, svc.scratchRows, svc.scratchGrid),
          if result.Built? then Success else result.status)
    ensures result.Built? ==>
      && result.url == SheetUrl(config.value["main_sheet"], old(svc.nextId))
      && svc.sheets == old(svc.sheets)[old(svc.nextId) := FreeTitle(projectName, old(svc.sheets).Values)]
      && (DistinctTitles(old(svc.sheets)) ==> DistinctTitles(svc.sheets))
  {
    if !ConfigComplete(config) {
      return ConfigMissing;
    }
    var main := config.value["main_sheet"];
    ghost var log0 := svc.log;
    ghost var titles := svc.sheets.Values;
    var status, name := UniqueTitleRefetching(svc, projectName);
    if status != Success {
      AttemptStopped(svc.oracle, log0, svc.log, projectName, sections, titles, svc.nextId,
                     svc.topRows, svc.scratchRows, svc.scratchGrid, status);
      return Raised(status);
    }
    ghost var log1 := svc.log;
    var sheetId;
    status, sheetId := BuildSheet(svc, name, sections);
    AttemptThen(svc.oracle, log0, log1, svc.log, projectName, sections, titles, sheetId,
                svc.topRows, svc.scratchRows, svc.scratchGrid, status);
    if status != Success {
      return Raised(status);
    }
    FreshTitleSheet(old(svc.sheets), sheetId, projectName);
    result := Built(SheetUrl(main, sheetId));
  }

  /**
   * One pass as the retry loop sees it: it took the log from `log0` to `log1` and the sheets from
   * `before` to `after`, starting with `nextId` as the next sheet id, and ended with `result`.  A
   * pass with a complete configuration ran the calls of `AttemptCalls` for the titles it found and
   * stopped at the first failure; a built pass added exactly the sheet with the free title, and its
   * link points at that sheet; a pass without configuration did nothing.
   */
  predicate PassRan(svc: Service, config: Config, projectName: string, sections: seq<string>,
                    log0: seq<Call>, log1: seq<Call>, before: map<nat, string>, after: map<nat, string>,
                    nextId: nat, result: Attempt)
  {
    && Keeps(before, after)
    && (!ConfigComplete(config) <==> result == ConfigMissing)
    && (!ConfigComplete(config) ==> log1 == log0 && after == before)
    && (result.Raised? ==> result.status != Success)
    && (ConfigComplete(config) ==>
          Ran(svc.oracle, log0, log1,
              AttemptCalls(projectName, sections, before.Values, nextId, svc.topRows, svc.scratchRows, svc.scratchGrid),
              if result.Built? then Success else result.status))
    && (result.Built? ==>
          && result.url == SheetUrl(config.value["main_sheet"], nextId)
          && after == before[nextId := FreeTitle(projectName, before.Values)])
  }

  /** Pass `k` of a retry ran from `logs[k]`, `states[k]` and `ids[k]` to `logs[k + 1]` and
    * `states[k + 1]`, and ended with `attempts[k]`. */
  predicate PassAt(svc: Service, config: Config, projectName: string, sections: seq<string>,
                   attempts: seq<Attempt>, logs: seq<seq<Call>>, states: seq<map<nat, string>>, ids: seq<nat>, k: nat)
    requires k < |attempts| && |logs| == |states| == |attempts| + 1 && |ids| == |attempts|
  {
    PassRan(svc, config, projectName, sections, logs[k], logs[k + 1], states[k], states[k + 1], ids[k], attempts[k])
  }

  /** Every pass of a retry ran as `PassAt` says. */
  predicate PassesRan(svc: Service, config: Config, projectName: string, sections: seq<string>,
                      attempts: seq<Attempt>, logs: seq<seq<Call>>, states: seq<map<nat, string>>, ids: seq<nat>)
  {
    && |logs| == |states| == |attempts| + 1 && |ids| == |attempts|
    && forall k: nat :: k < |attempts| ==> PassAt(svc, config, projectName, sections, attempts, logs, states, ids, k)
  }

  /** One pass of the retry loop, the body of `create_project_sheet_with_retry`'s `try`, whose run is
    * added to the record of the passes before it. */
  method TracedPass(svc: Service, config: Config, projectName: string, sections: seq<string>,
                    ghost attempts: seq<Attempt>, ghost logs: seq<seq<Call>>,
                    ghost states: seq<map<nat, string>>, ghost ids: seq<nat>)
    returns (result: Attempt, ghost attempts': seq<Attempt>, ghost logs': seq<seq<Call>>,
             ghost states': seq<map<nat, string>>, ghost ids': seq<nat>)
    requires svc.Valid()
    requires PassesRan(svc, config, projectName, sections, attempts, logs, states, ids)
    requires logs[|attempts|] == svc.log && states[|attempts|] == svc.sheets
    modifies svc
    ensures svc.Valid() && Keeps(old(svc.sheets), svc.sheets)
    ensures attempts' == attempts + [result] && logs' == logs + [svc.log]
    ensures states' == states + [svc.sheets] && ids' == ids + [old(svc.nextId)]
    ensures PassesRan(svc, config, projectName, sections, attempts', logs', states', ids')
    ensures !ConfigComplete(config) <==> result == ConfigMissing
    ensures !ConfigComplete(config) ==> svc.log == old(svc.log)
  {
    result := AttemptBot(svc, config, projectName, sections);
    attempts', logs', states', ids' := attempts + [result], logs + [svc.log], states + [svc.sheets], ids + [old(svc.nextId)];
    assert PassAt(svc, config, projectName, sections, attempts', logs', states', ids', |attempts|);
    forall k: nat | k < |attempts|
      ensures PassAt(svc, config, projectName, sections, attempts', logs', states', ids', k)
    {
      assert PassAt(svc, config, projectName, sections, attempts, logs, states, ids, k);
    }
  }

  /** The last pass of a record that ended with a built sheet added exactly that sheet, and the link
    * it answers with points at it. */
  lemma LastPassBuilt(svc: Service, config: Config, projectName: string, sections: seq<string>,
                      attempts: seq<Attempt>, logs: seq<seq<Call>>, states: seq<map<nat, string>>, ids: seq<nat>)
    requires PassesRan(svc, config, projectName, sections, attempts, logs, states, ids)
    requires attempts != [] && attempts[|attempts| - 1].Built?
    ensures ConfigComplete(config)
    ensures attempts[|attempts| - 1].url == SheetUrl(config.value["main_sheet"], ids[|attempts| - 1])
    ensures states[|attempts|] == states[|attempts| - 1][ids[|attempts| - 1] := FreeTitle(projectName, states[|attempts| - 1].Values)]
  {
    assert PassAt(svc, config, projectName, sections, attempts, logs, states, ids, |attempts| - 1);
  }

  /** When the service answers every call with success, every pass of a complete configuration
    * builds the sheet, so the retry answers after its first pass. */
  lemma FaultlessPassesBuild(svc: Service, config: Config, projectName: string, sections: seq<string>,
                             attempts: seq<Attempt>, logs: seq<seq<Call>>, states: seq<map<nat, string>>, ids: seq<nat>)
    requires PassesRan(svc, config, projectName, sections, attempts, logs, states, ids)
    requires ConfigComplete(config)
    requires forall j :: j !in svc.oracle || svc.oracle[j] == Success
    ensures forall k :: 0 <= k < |attempts| ==> attempts[k].Built?
  {
    forall k | 0 <= k < |attempts| ensures attempts[k].Built? {
      assert PassAt(svc, config, projectName, sections, attempts, logs, states, ids, k);
    }
  }

  /** A pass that raised made at least one call, and the service answered its last call with the
    * status the pass raised: a retried 503 is the service's own answer. */
  lemma RaisedPassFailedCall(svc: Service, config: Config, projectName: string, sections: seq<string>,
                             attempts: seq<Attempt>, logs: seq<seq<Call>>, states: seq<map<nat, string>>,
                             ids: seq<nat>, k: nat)
    requires PassesRan(svc, config, projectName, sections, attempts, logs, states, ids)
    requires k < |attempts| && attempts[k].Raised?
    ensures |logs[k]| < |logs[k + 1]|
    ensures Outcome(svc.oracle, |logs[k + 1]| - 1) == attempts[k].status
  {
    assert PassAt(svc, config, projectName, sections, attempts, logs, states, ids, k);
  }

  /** `max_retries`. */
  const MaxRetries: nat := 3
  /** The first `retry_delay`, in seconds; it doubles after every wait. */
  const FirstDelay: nat := 2

  /** The pass is retried: a 503 from the service. */
  predicate Unavailable(a: Attempt) {
    a == Raised(HttpError(503))
  }

  /** The waits before passes 2, 3, ...: `retry_delay` starts at 2 and doubles after each wait. */
  function Delays(k: nat): (r: seq<nat>)
    ensures |r| == k
    ensures forall i :: 0 < i < k ==> r[i] == 2 * r[i - 1]
    ensures k > 0 ==> r[0] == FirstDelay
  {
    if k == 0 then [] else Delays(k - 1) + [if k == 1 then FirstDelay else 2 * Delays(k - 1)[k - 2]]
  }

  /**
   * `create_project_sheet_with_retry`: up to three passes.  A pass that fails with a 503 before the
   * last pass is followed by a wait (recorded in `delays`) and a new pass; any other outcome is the
   * answer: the link when the sheet was built, `None` otherwise.  Pass `k` ended with
   * `attempts[k]`, after the calls from `logs[k]` to `logs[k + 1]`, on the sheets `states[k]` with
   * `ids[k]` as the next sheet id.
   */
  method CreateProjectSheetWithRetry(svc: Service, config: Config, projectName: string, sections: seq<string>)
    returns (url: Option<string>, delays: seq<nat>, ghost attempts: seq<Attempt>,
             ghost logs: seq<seq<Call>>, ghost states: seq<map<nat, string>>, ghost ids: seq<nat>)
    requires svc.Valid()
    modifies svc
    ensures svc.Valid()
    ensures 1 <= |attempts| <= MaxRetries
    ensures PassesRan(svc, config, projectName, sections, attempts, logs, states, ids)
    ensures logs[0] == old(svc.log) && logs[|attempts|] == svc.log
    ensures states[0] == old(svc.sheets) && states[|attempts|] == svc.sheets && ids[0] == old(svc.nextId)
    ensures Keeps(old(svc.sheets), svc.sheets)
    ensures delays == Delays(|attempts| - 1)
    ensures forall k :: 0 <= k < |attempts| - 1 ==> Unavailable(attempts[k])
    ensures url.Some? <==> attempts[|attempts| - 1].Built?
    ensures url.Some? ==>
      && ConfigComplete(config)
      && url.value == SheetUrl(config.value["main_sheet"], ids[|attempts| - 1])
      && svc.sheets == states[|attempts| - 1][ids[|attempts| - 1] := FreeTitle(projectName, states[|attempts| - 1].Values)]
    ensures Unavailable(attempts[|attempts| - 1]) ==> |attempts| == MaxRetries
    ensures !ConfigComplete(config) ==> attempts == [ConfigMissing] && url == None && svc.log == old(svc.log)
  {
    var retryDelay: nat := FirstDelay;
    var attempt: nat := 0;
    delays := [];
    var result;
    result, attempts, logs, states, ids := TracedPass(svc, config, projectName, sections, [], [svc.log], [svc.sheets], []);
    while Unavailable(result) && attempt < MaxRetries - 1
      invariant attempt + 1 == |attempts| <= MaxRetries && attempts[attempt] == result
      invariant PassesRan(svc, config, projectName, sections, attempts, logs, states, ids)
      invariant logs[0] == old(svc.log) && logs[|attempts|] == svc.log
      invariant states[0] == old(svc.sheets) && states[|attempts|] == svc.sheets && ids[0] == old(svc.nextId)
      invariant svc.Valid() && Keeps(old(svc.sheets), svc.sheets)
      invariant delays == Delays(attempt)
      invariant retryDelay == if attempt == 0 then FirstDelay else 2 * delays[attempt - 1]
      invariant forall k :: 0 <= k < attempt ==> Unavailable(attempts[k])
      invariant !ConfigComplete(config) ==> attempts == [ConfigMissing] && svc.log == old(svc.log)
      decreases MaxRetries - attempt
    {
      delays := delays + [retryDelay];
      retryDelay := retryDelay * 2;
      attempt := attempt + 1;
      ghost var before := svc.sheets;
      result, attempts, logs, states, ids := TracedPass(svc, config, projectName, sections, attempts, logs, states, ids);
      KeepsTrans(old(svc.sheets), before, svc.sheets);
    }
    assert attempts[|attempts| - 1] == result;
    url := if result.Built? then Some(result.url) else None;
    if result.Built? {
      LastPassBuilt(svc, config, projectName, sections, attempts, logs, states, ids);
    }
  }

  /** The project data the bot passes to `create_project_sheet`: `sections` may be absent. */
  datatype ProjectRequest = ProjectRequest(projectName: string, sections: Option<seq<string>>)

  /** `project_data.get("sections", [])`. */
  function RequestSections(data: ProjectRequest): (r: seq<string>)
    ensures data.sections.None? ==> r == []
    ensures data.sections.Some? ==> r == data.sections.value
  {
    match data.sections
    case None => []
    case Some(s) => s
  }

  /** `create_project_sheet` of the bot: unpacks the project data, an absent section list standing for
    * none, and retries as `create_project_sheet_with_retry`; a request without sections builds a sheet
    * whose only section is "Прочее". */
  method CreateProjectSheetBot(svc: Service, config: Config, data: ProjectRequest)
    returns (url: Option<string>, delays: seq<nat>, ghost attempts: seq<Attempt>,
             ghost logs: seq<seq<Call>>, ghost states: seq<map<nat, string>>, ghost ids: seq<nat>)
    requires svc.Valid()
    modifies svc
    ensures svc.Valid()
    ensures 1 <= |attempts| <= MaxRetries
    ensures PassesRan(svc, config, data.projectName, RequestSections(data), attempts, logs, states, ids)
    ensures logs[0] == old(svc.log) && logs[|attempts|] == svc.log
    ensures states[0] == old(svc.sheets) && states[|attempts|] == svc.sheets && ids[0] == old(svc.nextId)
    ensures Keeps(old(svc.sheets), svc.sheets)
    ensures delays == Delays(|attempts| - 1)
    ensures forall k :: 0 <= k < |attempts| - 1 ==> Unavailable(attempts[k])
    ensures url.Some? <==> attempts[|attempts| - 1].Built?
    ensures url.Some? ==>
      && ConfigComplete(config)
      && url.value == SheetUrl(config.value["main_sheet"], ids[|attempts| - 1])
      && svc.sheets == states[|attempts| - 1][ids[|attempts| - 1] := FreeTitle(data.projectName, states[|attempts| - 1].Values)]
    ensures Unavailable(attempts[|attempts| - 1]) ==> |attempts| == MaxRetries
    ensures !ConfigComplete(config) ==> attempts == [ConfigMissing] && url == None && svc.log == old(svc.log)
  {
    url, delays, attempts, logs, states, ids :=
      CreateProjectSheetWithRetry(svc, config, data.projectName, RequestSections(data));
  }

  // ---------------------------------------------------------------------------
  // deploy/bot_server/bot/sheets_api.py
  // ---------------------------------------------------------------------------

  /**
   * `create_project_sheet` of the deploy copy: a configuration without the three keys raises before
   * any call; otherwise one fetch chooses the title, the sheet is built, and its id is returned.  Any
   * failure is re-raised to the caller, without retrying.
   */
  method CreateProjectSheetDeploy(svc: Service, config: Config, projectName: string, sections: seq<string>)
    returns (result: Result<nat, Status>)
    requires svc.Valid()
    modifies svc
    ensures svc.Valid()
    ensures Keeps(old(svc.sheets), svc.sheets)
    ensures result.Err? ==> result.error != Success
    ensures !ConfigComplete(config) ==>
      result == Err(OtherError) && svc.log == old(svc.log) && svc.sheets == old(svc.sheets)
    ensures ConfigComplete(config) ==>
      Ran(svc.oracle, old(svc.log), svc.log,
          [FetchSheets] + BuildCalls(FreeTitle(projectName, old(svc.sheets).Values), sections, old(svc.nextId),
                                     svc.topRows, svc.scratchRows, svc.scratchGrid),
          if result.Ok? then Success else result.error)
    ensures result.Ok? ==>
      && result.value == old(svc.nextId)
      && svc.sheets == old(svc.sheets)[result.value := FreeTitle(projectName, old(svc.sheets).Values)]
      && (DistinctTitles(old(svc.sheets)) ==> DistinctTitles(svc.sheets))
  {
    if !ConfigComplete(config) {
      return Err(OtherError);
    }
    ghost var log0 := svc.log;
    ghost var titles := svc.sheets.Values;
    var status, name := UniqueTitleSingleFetch(svc, projectName);
    ghost var build := BuildCalls(FreeTitle(projectName, titles), sections, svc.nextId,
                                  svc.topRows, svc.scratchRows, svc.scratchGrid);
    if status != Success {
      RanStopped(svc.oracle, log0, svc.log, [FetchSheets], build, status);
      return Err(status);
    }
    ghost var log1 := svc.log;
    var sheetId;
    status, sheetId := BuildSheet(svc, name, sections);
    RanThen(svc.oracle, log0, log1, svc.log, [FetchSheets], build, status);
    if status != Success {
      return Err(status);
    }
    FreshTitleSheet(old(svc.sheets), sheetId, projectName);
    result := Ok(sheetId);
  }
}
