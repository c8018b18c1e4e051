// The choice of a free sheet title: `_get_unique_sheet_name` in both copies of
// sheets_api.py.

module SheetTitles {
  import opened Text
  import opened Sheets
  import opened Runs

  // ---------------------------------------------------------------------------
  // Free titles
  // ---------------------------------------------------------------------------

  /** The `k`-th title tried: the base name itself, then `base-1`, `base-2`, ... */
  function Candidate(base: string, k: nat): string {
    if k == 0 then base else base + "-" + NatStr(k)
  }

  /** Different attempts never produce the same title. */
  lemma CandidateInjective(base: string, i: nat, j: nat)
    requires Candidate(base, i) == Candidate(base, j)
    ensures i == j
  {
    if i != 0 && j != 0 {
      var n := |base| + 1;
      assert Candidate(base, i)[n..] == NatStr(i);
      assert Candidate(base, j)[n..] == NatStr(j);
      NatStrInjective(i, j);
    }
  }

  /** The first `k` candidates. */
  function Candidates(base: string, k: nat): set<string> {
    set j | 0 <= j < k :: Candidate(base, j)
  }

  /** The first `k` candidates are `k` different titles. */
  lemma {:induction false} CandidatesSize(base: string, k: nat)
    ensures |Candidates(base, k)| == k
  {
    if k > 0 {
      CandidatesSize(base, k - 1);
      assert Candidates(base, k) == Candidates(base, k - 1) + {Candidate(base, k - 1)};
      if Candidate(base, k - 1) in Candidates(base, k - 1) {
        var j :| 0 <= j < k - 1 && Candidate(base, j) == Candidate(base, k - 1);
        CandidateInjective(base, j, k - 1);
      }
    }
  }

  /** A subset is no larger than its superset. */
  lemma {:induction false} SubsetSize<T>(a: set<T>, b: set<T>)
    requires a <= b
    ensures |a| <= |b|
    decreases a
  {
    if a != {} {
      var x :| x in a;
      SubsetSize(a - {x}, b - {x});
    }
  }

  /** `k` is the attempt at which `_get_unique_sheet_name` stops: its candidate is free and every
    * earlier one is taken. */
  predicate FirstFree(base: string, titles: set<string>, k: nat) {
    && Candidate(base, k) !in titles
    && forall j :: 0 <= j < k ==> Candidate(base, j) in titles
  }

  /** There is at most one such attempt. */
  lemma FirstFreeUnique(base: string, titles: set<string>, k1: nat, k2: nat)
    requires FirstFree(base, titles, k1) && FirstFree(base, titles, k2)
    ensures k1 == k2
  {
  }

  /** The first free attempt at or after `k`, when every attempt before `k` is taken.  It exists
    * because the taken candidates are distinct titles of the finite set `titles`. */
  function FreeIndexFrom(base: string, titles: set<string>, k: nat): (r: nat)
    requires forall j :: 0 <= j < k ==> Candidate(base, j) in titles
    ensures k <= r && FirstFree(base, titles, r)
    decreases |titles| - k
  {
    if Candidate(base, k) !in titles then k
    else
      assert Candidates(base, k + 1) <= titles;
      CandidatesSize(base, k + 1);
      SubsetSize(Candidates(base, k + 1), titles);
      FreeIndexFrom(base, titles, k + 1)
  }

  /** The attempt at which `_get_unique_sheet_name` stops. */
  function FreeIndex(base: string, titles: set<string>): (k: nat)
    ensures FirstFree(base, titles, k)
  {
    FreeIndexFrom(base, titles, 0)
  }

  /** The title `_get_unique_sheet_name` returns. */
  function FreeTitle(base: string, titles: set<string>): string {
    Candidate(base, FreeIndex(base, titles))
  }

  /** The chosen title is never taken; it is the base name when that is free, and otherwise the
    * suffixed name with the smallest free number. */
  lemma FreeTitleProperties(base: string, titles: set<string>)
    ensures FreeTitle(base, titles) !in titles
    ensures base !in titles ==> FreeTitle(base, titles) == base
    ensures base in titles ==>
      exists n: nat :: 1 <= n && FreeTitle(base, titles) == base + "-" + NatStr(n)
        && base + "-" + NatStr(n) !in titles
        && forall m :: 1 <= m < n ==> base + "-" + NatStr(m) in titles
  {
    var k := FreeIndex(base, titles);
    if base !in titles {
      FirstFreeUnique(base, titles, k, 0);
    } else {
      assert Candidate(base, 0) in titles;
      assert k != 0;
      forall m | 1 <= m < k
        ensures base + "-" + NatStr(m) in titles
      {
        assert Candidate(base, m) in titles;
      }
    }
  }

  /** `k` fetches of the sheet list. */
  function Fetches(k: nat): (r: seq<Call>)
    ensures |r| == k
    ensures forall i :: 0 <= i < k ==> r[i] == FetchSheets
  {
    seq(k, _ => FetchSheets)
  }

  /**
   * `_get_unique_sheet_name` of bot/sheets_api.py: a `while True` loop that fetches the sheet list
   * again on every attempt.  It fetches once per attempt up to the free title, and any failed fetch
   * ends it.
   */
  method UniqueTitleRefetching(svc: Service, base: string) returns (status: Status, name: string)
    modifies svc
    ensures svc.sheets == old(svc.sheets) && svc.nextId == old(svc.nextId)
    ensures Ran(svc.oracle, old(svc.log), svc.log, Fetches(FreeIndex(base, svc.sheets.Values) + 1), status)
    ensures status == Success ==> name == FreeTitle(base, svc.sheets.Values)
  {
    ghost var titles := svc.sheets.Values;
    ghost var last := FreeIndex(base, titles);
    ghost var attempt: nat := 0;
    name := base;
    var counter := 1;
    RanNothing(svc.oracle, svc.log);
    while true
      invariant svc.sheets == old(svc.sheets) && svc.nextId == old(svc.nextId)
      invariant counter == attempt + 1 && name == Candidate(base, attempt)
      invariant attempt <= last
      invariant forall j :: 0 <= j < attempt ==> Candidate(base, j) in titles
      invariant Ran(svc.oracle, old(svc.log), svc.log, Fetches(attempt), Success)
      decreases last - attempt
    {
      ghost var log1 := svc.log;
      var fetched, sheetTitles := svc.FetchTitles();
      RanCall(svc.oracle, log1, FetchSheets);
      assert Fetches(attempt) + [FetchSheets] == Fetches(attempt + 1);
      RanThen(svc.oracle, old(svc.log), log1, svc.log, Fetches(attempt), [FetchSheets], fetched);
      if fetched != Success {
        assert Fetches(last + 1) == Fetches(attempt + 1) + Fetches(last - attempt);
        RanStopped(svc.oracle, old(svc.log), svc.log, Fetches(attempt + 1), Fetches(last - attempt), fetched);
        return fetched, name;
      }
      if name !in sheetTitles {
        FirstFreeUnique(base, titles, attempt, last);
        return Success, name;
      }
      name := base + "-" + NatStr(counter);
      counter := counter + 1;
      attempt := attempt + 1;
    }
  }

  /**
   * `_get_unique_sheet_name` of deploy/bot_server/bot/sheets_api.py: one fetch of `existing_names`,
   * then a loop that bumps the counter while `base-counter` is taken.
   */
  method UniqueTitleSingleFetch(svc: Service, base: string) returns (status: Status, name: string)
    modifies svc
    ensures svc.sheets == old(svc.sheets) && svc.nextId == old(svc.nextId)
    ensures Ran(svc.oracle, old(svc.log), svc.log, [FetchSheets], status)
    ensures status == Success ==> name == FreeTitle(base, svc.sheets.Values)
  {
    ghost var log0 := svc.log;
    var existing;
    status, existing := svc.FetchTitles();
    RanCall(svc.oracle, log0, FetchSheets);
    if status != Success {
      return status, base;
    }
    ghost var last := FreeIndex(base, existing);
    if base !in existing {
      FirstFreeUnique(base, existing, 0, last);
      return Success, base;
    }
    var counter := 1;
    while base + "-" + NatStr(counter) in existing
      invariant 1 <= counter <= last
      invariant forall j :: 0 <= j < counter ==> Candidate(base, j) in existing
      decreases last - counter
    {
      assert Candidate(base, counter) in existing;
      counter := counter + 1;
    }
    FirstFreeUnique(base, existing, counter, last);
    name := base + "-" + NatStr(counter);
  }

  /** Both variants choose the same title when the sheet list does not change between fetches. */
  lemma VariantsAgree(base: string, titles: set<string>, k: nat)
    requires FirstFree(base, titles, k)
    ensures Candidate(base, k) == FreeTitle(base, titles)
  {
    FirstFreeUnique(base, titles, k, FreeIndex(base, titles));
  }
}
