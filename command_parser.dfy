/**
 * The regular-expression command parser (`CommandParser`): it normalises a
 * chat command, takes the project name that follows "таблицу" and the
 * comma-separated sections that follow "разделы".
 *
 * The two patterns are fixed, so each is modelled by a function that follows
 * the backtracking order of Python's `re.search` for that pattern:
 *   project:  (?:таблицу\s+)([^,]+?)(?:\s*,\s*добавь\s+разделы|\s*$)
 *   sections: (?:разделы\s+)(.+)$
 * A match is searched from the leftmost start position; at a position the
 * greedy `\s+` is tried longest first, the lazy `[^,]+?` shortest first and
 * the greedy `.+` longest first. `$` matches at the end of the text or just
 * before a final newline; `.` does not match a newline.
 */
module CommandParser {
  import opened Wrappers
  import opened Text

  /* ---------------------------------------------------------------- */
  /* clean_text                                                        */
  /* ---------------------------------------------------------------- */

  /** Every whitespace character is a plain space. */
  predicate PlainSpaces(x: string) {
    forall i :: 0 <= i < |x| && IsSpace(x[i]) ==> x[i] == ' '
  }

  /** No two whitespace characters are adjacent. */
  predicate NoDoubleSpace(x: string) {
    forall i, j {:trigger x[i], x[j]} :: 0 <= i < |x| && j == i + 1 && j < |x| ==> !(IsSpace(x[i]) && IsSpace(x[j]))
  }

  predicate SingleSpaced(x: string) {
    PlainSpaces(x) && NoDoubleSpace(x)
  }

  /** No whitespace at either end. */
  predicate Trimmed(x: string) {
    x == [] || (!IsSpace(x[0]) && !IsSpace(x[|x| - 1]))
  }

  /** `re.sub(r'\s+', ' ', text)`: each maximal whitespace run becomes one space. */
  function CollapseSpaces(s: string): (r: string)
    ensures s == [] <==> r == []
    ensures s != [] ==> (IsSpace(r[0]) <==> IsSpace(s[0]))
    ensures s != [] && !IsSpace(s[0]) ==> r[0] == s[0]
    decreases |s|
  {
    if s == [] then []
    else if IsSpace(s[0]) then [' '] + CollapseSpaces(StripLeft(s))
    else [s[0]] + CollapseSpaces(s[1..])
  }

  /** After collapsing, whitespace is single plain spaces. */
  lemma {:induction false} CollapseSingleSpaced(s: string)
    ensures SingleSpaced(CollapseSpaces(s))
    decreases |s|
  {
    if s != [] {
      if IsSpace(s[0]) {
        CollapseSingleSpaced(StripLeft(s));
        ConsSingleSpaced(' ', CollapseSpaces(StripLeft(s)));
      } else {
        CollapseSingleSpaced(s[1..]);
        ConsSingleSpaced(s[0], CollapseSpaces(s[1..]));
      }
    }
  }

  /** A character put in front of a single-spaced text keeps it single-spaced when it is not
    * whitespace, or is a plain space in front of a text that does not start with whitespace. */
  lemma ConsSingleSpaced(c: char, t: string)
    requires SingleSpaced(t)
    requires IsSpace(c) ==> c == ' ' && (t == [] || !IsSpace(t[0]))
    ensures SingleSpaced([c] + t)
  {
    var r := [c] + t;
    forall i | 0 <= i < |r| && IsSpace(r[i]) ensures r[i] == ' ' {
      if i > 0 { assert r[i] == t[i - 1]; }
    }
    forall i, j | 0 <= i < |r| && j == i + 1 && j < |r| ensures !(IsSpace(r[i]) && IsSpace(r[j])) {
      if i > 0 { assert r[i] == t[i - 1] && r[j] == t[j - 1]; }
    }
  }

  /** A whitespace run cannot cross the end of a text that ends in a non-space character, so
    * collapsing distributes over the concatenation. */
  lemma {:induction false} CollapseAppend(u: string, t: string)
    requires u == [] || !IsSpace(u[|u| - 1])
    ensures CollapseSpaces(u + t) == CollapseSpaces(u) + CollapseSpaces(t)
    decreases |u|
  {
    if u == [] {
      assert u + t == t;
    } else if IsSpace(u[0]) {
      var l := StripLeft(u);
      assert l != [] && l[|l| - 1] == u[|u| - 1] by {
        assert !IsSpace(u[|u| - 1]);
      }
      StripLeftAppend(u, t);
      CollapseAppend(l, t);
      assert CollapseSpaces(u + t) == [' '] + CollapseSpaces(l + t);
      assert CollapseSpaces(u) == [' '] + CollapseSpaces(l);
      AppendAssoc([' '], CollapseSpaces(l), CollapseSpaces(t));
    } else {
      assert (u + t)[1..] == u[1..] + t;
      CollapseAppend(u[1..], t);
      assert CollapseSpaces(u + t) == [u[0]] + CollapseSpaces(u[1..] + t);
      assert CollapseSpaces(u) == [u[0]] + CollapseSpaces(u[1..]);
      AppendAssoc([u[0]], CollapseSpaces(u[1..]), CollapseSpaces(t));
    }
  }

  /**
   * Each whitespace run between two words becomes exactly one plain space:
   * `u + w + v` collapses to the collapse of `u`, one `' '`, and the collapse
   * of `v`, when `w` is a non-empty run of whitespace and neither `u` nor `v`
   * has whitespace next to it.
   */
  lemma CollapseRun(u: string, w: string, v: string)
    requires u == [] || !IsSpace(u[|u| - 1])
    requires w != [] && forall i :: 0 <= i < |w| ==> IsSpace(w[i])
    requires v == [] || !IsSpace(v[0])
    ensures CollapseSpaces(u + w + v) == CollapseSpaces(u) + " " + CollapseSpaces(v)
  {
    AppendAssoc(u, w, v);
    CollapseAppend(u, w + v);
    CollapseLeadingRun(w, v);
    AppendAssoc(CollapseSpaces(u), " ", CollapseSpaces(v));
  }

  /** A leading whitespace run collapses to one plain space before the rest. */
  lemma CollapseLeadingRun(w: string, v: string)
    requires w != [] && forall i :: 0 <= i < |w| ==> IsSpace(w[i])
    requires v == [] || !IsSpace(v[0])
    ensures CollapseSpaces(w + v) == " " + CollapseSpaces(v)
  {
    StripLeftRun(w, v);
    assert (w + v)[0] == w[0];
  }

  /** `clean_text`: collapse whitespace runs, lower-case, strip. */
  function CleanText(text: string): (r: string)
    ensures SingleSpaced(r) && Trimmed(r)
    ensures forall i :: 0 <= i < |r| ==> !IsUpper(r[i])
  {
    CleanTextShape(text);
    Strip(Lower(CollapseSpaces(text)))
  }

  lemma CleanTextShape(text: string)
    ensures var r := Strip(Lower(CollapseSpaces(text)));
      SingleSpaced(r) && forall i :: 0 <= i < |r| ==> !IsUpper(r[i])
  {
    var c := CollapseSpaces(text);
    CollapseSingleSpaced(text);
    var l := Lower(c);
    LowerSingleSpaced(c);
    StripSingleSpaced(l);
  }

  lemma LowerSingleSpaced(x: string)
    requires SingleSpaced(x)
    ensures SingleSpaced(Lower(x))
  {
    var l := Lower(x);
    forall i, j | 0 <= i && j == i + 1 && j < |l| ensures !(IsSpace(l[i]) && IsSpace(l[j])) {
      assert !(IsSpace(x[i]) && IsSpace(x[j]));
    }
  }

  lemma StripSingleSpaced(x: string)
    requires SingleSpaced(x)
    ensures SingleSpaced(Strip(x))
  {
    var r := Strip(x);
    var k := |x| - |StripLeft(x)|;
    forall i, j | 0 <= i && j == i + 1 && j < |r| ensures !(IsSpace(r[i]) && IsSpace(r[j])) {
      assert !(IsSpace(x[k + i]) && IsSpace(x[k + j]));
    }
  }

  /** The non-whitespace characters of `s`, in order. */
  function NonSpace(s: string): string {
    if s == [] then [] else (if IsSpace(s[0]) then [] else [s[0]]) + NonSpace(s[1..])
  }

  lemma {:induction false} NonSpaceAppend(a: string, b: string)
    ensures NonSpace(a + b) == NonSpace(a) + NonSpace(b)
    decreases |a|
  {
    if a != [] {
      NonSpaceAppend(a[1..], b);
      assert (a + b)[0] == a[0] && (a + b)[1..] == a[1..] + b;
    } else {
      assert a + b == b;
    }
  }

  lemma {:induction false} NonSpaceStripLeft(s: string)
    ensures NonSpace(StripLeft(s)) == NonSpace(s)
    decreases |s|
  {
    if s != [] && IsSpace(s[0]) {
      NonSpaceStripLeft(s[1..]);
    }
  }

  lemma {:induction false} NonSpaceStripRight(s: string)
    ensures NonSpace(StripRight(s)) == NonSpace(s)
    decreases |s|
  {
    if s != [] && IsSpace(s[|s| - 1]) {
      var m := |s| - 1;
      NonSpaceStripRight(s[..m]);
      assert s == s[..m] + [s[m]];
      NonSpaceAppend(s[..m], [s[m]]);
      assert NonSpace([s[m]]) == [];
    }
  }

  /** Collapsing whitespace keeps every other character, in order. */
  lemma {:induction false} NonSpaceCollapse(s: string)
    ensures NonSpace(CollapseSpaces(s)) == NonSpace(s)
    decreases |s|
  {
    if s != [] {
      var r := CollapseSpaces(s);
      if IsSpace(s[0]) {
        var t := StripLeft(s);
        NonSpaceCollapse(t);
        NonSpaceStripLeft(s);
        assert r[1..] == CollapseSpaces(t);
      } else {
        NonSpaceCollapse(s[1..]);
        assert r[1..] == CollapseSpaces(s[1..]);
      }
    }
  }

  lemma {:induction false} NonSpaceLower(s: string)
    ensures NonSpace(Lower(s)) == Lower(NonSpace(s))
    decreases |s|
  {
    if s != [] {
      var l := Lower(s);
      NonSpaceLower(s[1..]);
      assert l[1..] == Lower(s[1..]);
      var head := if IsSpace(s[0]) then [] else [s[0]];
      LowerAppend(head, NonSpace(s[1..]));
      assert Lower(head) == (if IsSpace(l[0]) then [] else [l[0]]);
    }
  }

  /**
   * `clean_text` keeps every non-whitespace character of the command, in
   * order, lower-cased; together with the shape stated by `CleanText` it
   * only rewrites whitespace.
   */
  lemma CleanTextKeepsText(text: string)
    ensures NonSpace(CleanText(text)) == Lower(NonSpace(text))
  {
    var c := CollapseSpaces(text);
    NonSpaceCollapse(text);
    NonSpaceLower(c);
    var l := Lower(c);
    NonSpaceStripLeft(l);
    NonSpaceStripRight(StripLeft(l));
  }

  /** Stripping and lower-casing commute, because lower-casing keeps whitespace. */
  lemma StripLowerCommute(x: string)
    ensures Strip(Lower(x)) == Lower(Strip(x))
  {
    StripLeftLower(x);
    StripRightLower(StripLeft(x));
  }

  lemma {:induction false} StripLeftLower(x: string)
    ensures StripLeft(Lower(x)) == Lower(StripLeft(x))
    decreases |x|
  {
    if x != [] {
      var l := Lower(x);
      assert IsSpace(l[0]) <==> IsSpace(x[0]);
      if IsSpace(x[0]) {
        StripLeftLower(x[1..]);
        assert l == [LowerChar(x[0])] + Lower(x[1..]);
        assert l[1..] == Lower(x[1..]);
        assert StripLeft(l) == StripLeft(l[1..]);
      } else {
        assert StripLeft(l) == l;
      }
    }
  }

  lemma {:induction false} StripRightLower(x: string)
    ensures StripRight(Lower(x)) == Lower(StripRight(x))
    decreases |x|
  {
    if x != [] {
      var m := |x| - 1;
      LowerLast(x);
      if IsSpace(x[m]) {
        StripRightLower(x[..m]);
      }
    }
  }

  /** Lower-casing the text lower-cases its front part and keeps its last character a space or not. */
  lemma LowerLast(x: string)
    requires x != []
    ensures Lower(x)[..|x| - 1] == Lower(x[..|x| - 1])
    ensures IsSpace(Lower(x)[|x| - 1]) <==> IsSpace(x[|x| - 1])
  {
    assert Lower(x)[..|x| - 1] == Lower(x[..|x| - 1]);
  }

  /** A command that is already clean only gets lower-cased. */
  lemma {:induction false} CleanTextOfCleanCommand(x: string)
    requires SingleSpaced(x) && Trimmed(x)
    ensures CleanText(x) == Lower(x)
  {
    CollapseClean(x);
    StripLowerCommute(x);
    StripStripped(x);
  }

  /** `clean_text` is idempotent. */
  lemma CleanTextIdempotent(text: string)
    ensures CleanText(CleanText(text)) == CleanText(text)
  {
    var c := CleanText(text);
    CleanTextOfCleanCommand(c);
    LowerNoUpper(c);
  }

  lemma {:induction false} CollapseClean(x: string)
    requires SingleSpaced(x)
    ensures CollapseSpaces(x) == x
    decreases |x|
  {
    if x != [] {
      SingleSpacedTail(x);
      CollapseClean(x[1..]);
      if IsSpace(x[0]) {
        LoneSpace(x);
      }
      assert [x[0]] + x[1..] == x;
    }
  }

  /** Dropping the first character keeps a text single-spaced. */
  lemma SingleSpacedTail(x: string)
    requires x != [] && SingleSpaced(x)
    ensures SingleSpaced(x[1..])
  {
    forall i, j | 0 <= i && j == i + 1 && j < |x| - 1 ensures !(IsSpace(x[1..][i]) && IsSpace(x[1..][j])) {
      assert !(IsSpace(x[i + 1]) && IsSpace(x[j + 1]));
    }
  }

  /** In a single-spaced text, a leading whitespace character is a lone plain space. */
  lemma LoneSpace(x: string)
    requires x != [] && SingleSpaced(x) && IsSpace(x[0])
    ensures x[0] == ' ' && StripLeft(x) == x[1..]
  {
    if |x| > 1 {
      assert !(IsSpace(x[0]) && IsSpace(x[1]));
    }
  }

  /* ---------------------------------------------------------------- */
  /* Pattern pieces shared by both searches                             */
  /* ---------------------------------------------------------------- */

  const TableWord: string := "таблицу"
  const AddWord: string := "добавь"
  const SectionsWord: string := "разделы"

  predicate StartsAt(s: string, i: nat, w: string) {
    i + |w| <= |s| && s[i..i + |w|] == w
  }

  /** Length of the whitespace run starting at `i` (what a greedy `\s*` consumes). */
  function SpaceRun(s: string, i: nat): (n: nat)
    requires i <= |s|
    ensures i + n <= |s|
    ensures forall j :: i <= j < i + n ==> IsSpace(s[j])
    ensures i + n == |s| || !IsSpace(s[i + n])
    decreases |s| - i
  {
    if i < |s| && IsSpace(s[i]) then 1 + SpaceRun(s, i + 1) else 0
  }

  /* ---------------------------------------------------------------- */
  /* extract_project_name                                              */
  /* ---------------------------------------------------------------- */

  /**
   * A piece of a pattern that never has to backtrack: a whitespace run
   * (`\s*`, or `\s+` when `atLeastOne`) that is always followed by a
   * non-space literal, or a literal word.
   */
  datatype Piece = Blanks(atLeastOne: bool) | Word(w: string)

  /** Where the pieces matched from `i` end, if they match. */
  function MatchPieces(s: string, i: nat, ps: seq<Piece>): (r: Option<nat>)
    requires i <= |s|
    ensures r.Some? ==> i <= r.value <= |s|
    decreases |ps|
  {
    if ps == [] then Some(i)
    else match ps[0]
      case Blanks(one) =>
        var n := SpaceRun(s, i);
        if one && n == 0 then None else MatchPieces(s, i + n, ps[1..])
      case Word(w) =>
        if StartsAt(s, i, w) then MatchPieces(s, i + |w|, ps[1..]) else None
  }

  /** `\s*,\s*добавь\s+разделы` */
  const AddSectionsPattern: seq<Piece> :=
    [Blanks(false), Word(","), Blanks(false), Word(AddWord), Blanks(true), Word(SectionsWord)]

  /** The first alternative of the trailer, `\s*,\s*добавь\s+разделы`, matches at `e`. */
  predicate AddSectionsAt(s: string, e: nat)
    requires e <= |s|
  {
    MatchPieces(s, e, AddSectionsPattern).Some?
  }

  /** The second alternative of the trailer, `\s*$`, matches at `e`. */
  predicate OnlySpacesFrom(s: string, e: nat)
    requires e <= |s|
  {
    e + SpaceRun(s, e) == |s|
  }

  /** `(?:\s*,\s*добавь\s+разделы|\s*$)` matches at `e`. */
  predicate TrailerAt(s: string, e: nat)
    requires e <= |s|
  {
    AddSectionsAt(s, e) || OnlySpacesFrom(s, e)
  }

  /**
   * The lazy group `[^,]+?` started at `g0` tries the ends `e`, `e + 1`, ...
   * and stops at the first one after which the trailer matches; it cannot
   * grow over a comma.
   */
  function LazyGroupEnd(s: string, g0: nat, e: nat): (r: Option<nat>)
    requires g0 < e <= |s| + 1
    requires forall j :: g0 <= j < e - 1 ==> s[j] != ','
    ensures r.Some? ==> g0 < r.value <= |s| && forall j :: g0 <= j < r.value ==> s[j] != ','
    decreases |s| + 1 - e
  {
    if e > |s| || s[e - 1] == ',' then None
    else if TrailerAt(s, e) then Some(e)
    else LazyGroupEnd(s, g0, e + 1)
  }

  /** The greedy `\s+` after the keyword gives back one character at a time. */
  function TryTableSpaces(s: string, q: nat, k: nat): (r: Option<(nat, nat)>)
    requires q + k <= |s|
    ensures r.Some? ==> var (g0, e) := r.value; g0 < e <= |s| && forall j :: g0 <= j < e ==> s[j] != ','
    decreases k
  {
    if k == 0 then None
    else
      match LazyGroupEnd(s, q + k, q + k + 1)
      case Some(e) => Some((q + k, e))
      case None => TryTableSpaces(s, q, k - 1)
  }

  /** Leftmost match of the project pattern at or after `p`: the group's bounds. */
  function SearchTable(s: string, p: nat): (r: Option<(nat, nat)>)
    requires p <= |s|
    ensures r.Some? ==> var (g0, e) := r.value; g0 < e <= |s| && forall j :: g0 <= j < e ==> s[j] != ','
    decreases |s| - p
  {
    var m := if StartsAt(s, p, TableWord) then TryTableSpaces(s, p + |TableWord|, SpaceRun(s, p + |TableWord|)) else None;
    if m.Some? then m
    else if p == |s| then None
    else SearchTable(s, p + 1)
  }

  /** `extract_project_name`: the stripped group of the leftmost match, or `None`. */
  function ExtractProjectName(text: string): (r: Option<string>)
    ensures r.Some? ==> ',' !in r.value && Trimmed(r.value)
  {
    match SearchTable(text, 0)
    case None => None
    case Some((g0, e)) =>
      StripKeepsAbsent(text[g0..e], ',');
      Some(Strip(text[g0..e]))
  }

  /** Without "таблицу" followed by whitespace there is no project name. */
  lemma NoTableNoName(text: string)
    requires forall p :: 0 <= p <= |text| && StartsAt(text, p, TableWord) ==> SpaceRun(text, p + |TableWord|) == 0
    ensures ExtractProjectName(text) == None
  {
    SearchTableFails(text, 0);
  }

  lemma {:induction false} SearchTableFails(text: string, p: nat)
    requires p <= |text|
    requires forall q :: p <= q <= |text| && StartsAt(text, q, TableWord) ==> SpaceRun(text, q + |TableWord|) == 0
    ensures SearchTable(text, p) == None
    decreases |text| - p
  {
    if p < |text| {
      SearchTableFails(text, p + 1);
    }
  }

  /* ---------------------------------------------------------------- */
  /* extract_sections                                                  */
  /* ---------------------------------------------------------------- */

  /** Length of the run of non-newline characters starting at `i` (what `.+` may take). */
  function LineRun(s: string, i: nat): (n: nat)
    requires i <= |s|
    ensures i + n <= |s|
    ensures forall j :: i <= j < i + n ==> s[j] != '\n'
    decreases |s| - i
  {
    if i < |s| && s[i] != '\n' then 1 + LineRun(s, i + 1) else 0
  }

  /** `$` without MULTILINE: the end of the text, or just before a final newline. */
  predicate EndAnchorAt(s: string, e: nat) {
    e == |s| || (e + 1 == |s| && s[e] == '\n')
  }

  /** The greedy `.+` started at `g0` gives back one character at a time until `$` matches. */
  function GreedyLineEnd(s: string, g0: nat, len: nat): (r: Option<nat>)
    requires g0 + len <= |s|
    ensures r.Some? ==> g0 < r.value <= |s|
    decreases len
  {
    if len == 0 then None
    else if EndAnchorAt(s, g0 + len) then Some(g0 + len)
    else GreedyLineEnd(s, g0, len - 1)
  }

  function TrySectionsSpaces(s: string, q: nat, k: nat): (r: Option<(nat, nat)>)
    requires q + k <= |s|
    ensures r.Some? ==> r.value.0 < r.value.1 <= |s|
    decreases k
  {
    if k == 0 then None
    else
      match GreedyLineEnd(s, q + k, LineRun(s, q + k))
      case Some(e) => Some((q + k, e))
      case None => TrySectionsSpaces(s, q, k - 1)
  }

  /** Leftmost match of the sections pattern at or after `p`: the group's bounds. */
  function SearchSections(s: string, p: nat): (r: Option<(nat, nat)>)
    requires p <= |s|
    ensures r.Some? ==> r.value.0 < r.value.1 <= |s|
    decreases |s| - p
  {
    var m := if StartsAt(s, p, SectionsWord) then TrySectionsSpaces(s, p + |SectionsWord|, SpaceRun(s, p + |SectionsWord|)) else None;
    if m.Some? then m
    else if p == |s| then None
    else SearchSections(s, p + 1)
  }

  /** What every extracted section is: non-empty, stripped, without a comma. */
  predicate CleanSection(x: string) {
    x != [] && Trimmed(x) && ',' !in x
  }

  predicate CommaFree(parts: seq<string>) {
    forall k :: 0 <= k < |parts| ==> ',' !in parts[k]
  }

  /** `[section.strip() for section in parts if section.strip()]`. */
  function StrippedNonEmpty(parts: seq<string>): (r: seq<string>)
    requires CommaFree(parts)
    ensures forall k :: 0 <= k < |r| ==> CleanSection(r[k])
  {
    if parts == [] then []
    else
      var t := Strip(parts[0]);
      StrippedSection(parts[0]);
      var rest := StrippedNonEmpty(parts[1..]);
      if t != [] then [t] + rest else rest
  }

  /** A comma-free piece strips to a clean section or to nothing. */
  lemma StrippedSection(x: string)
    requires ',' !in x
    ensures Strip(x) != [] ==> CleanSection(Strip(x))
  {
    StripKeepsAbsent(x, ',');
  }

  /** `extract_sections`: the stripped, non-empty comma-separated pieces of the group. */
  function ExtractSections(text: string): (r: seq<string>)
    ensures forall k :: 0 <= k < |r| ==> CleanSection(r[k])
  {
    match SearchSections(text, 0)
    case None => []
    case Some((g0, e)) => StrippedNonEmpty(Split(text[g0..e], ','))
  }

  /** Without "разделы" followed by whitespace there are no sections. */
  lemma NoSectionsWordNoSections(text: string)
    requires forall p :: 0 <= p <= |text| && StartsAt(text, p, SectionsWord) ==> SpaceRun(text, p + |SectionsWord|) == 0
    ensures ExtractSections(text) == []
  {
    SearchSectionsFails(text, 0);
  }

  lemma {:induction false} SearchSectionsFails(text: string, p: nat)
    requires p <= |text|
    requires forall q :: p <= q <= |text| && StartsAt(text, q, SectionsWord) ==> SpaceRun(text, q + |SectionsWord|) == 0
    ensures SearchSections(text, p) == None
    decreases |text| - p
  {
    if p < |text| {
      SearchSectionsFails(text, p + 1);
    }
  }

  /* ---------------------------------------------------------------- */
  /* Round trips                                                       */
  /* ---------------------------------------------------------------- */

  /** The trailer that introduces the sections in a create command. */
  const AddTrailer: string := ", " + AddWord + " " + SectionsWord

  lemma SpaceRunStops(s: string, i: nat, j: nat)
    requires i <= j < |s| && !IsSpace(s[j])
    ensures i + SpaceRun(s, i) <= j
  {
  }

  lemma SpaceRunIs(s: string, i: nat, k: nat)
    requires i + k <= |s|
    requires forall j :: i <= j < i + k ==> IsSpace(s[j])
    requires i + k == |s| || !IsSpace(s[i + k])
    ensures SpaceRun(s, i) == k
  {
  }

  /** A keyword whose first letter does not recur cannot start inside text that lacks it. */
  lemma NoEarlierStart(s: string, k: nat, w: string, p: nat)
    requires w != [] && w[0] !in w[1..]
    requires StartsAt(s, k, w)
    requires !Contains(s[..k], w)
    requires p < k
    ensures !StartsAt(s, p, w)
  {
    if StartsAt(s, p, w) && p + |w| <= k {
      assert s[..k][p..p + |w|] == w;
      ContainsAt(s[..k], w, p);
    }
  }

  /** Inside the name neither alternative of the trailer matches. */
  lemma NoTrailerInside(s: string, e: nat, end: nat)
    requires e < end <= |s|
    requires forall j :: e <= j < end ==> s[j] != ','
    requires !IsSpace(s[end - 1])
    ensures !TrailerAt(s, e)
  {
    SpaceRunStops(s, e, end - 1);
    var ps := AddSectionsPattern;
    var a := e + SpaceRun(s, e);
    assert MatchPieces(s, e, ps) == MatchPieces(s, a, ps[1..]) by {
      assert ps[0] == Blanks(false);
    }
    assert !StartsAt(s, a, ",") by {
      assert s[a] != ',';
      assert a + 1 <= |s| ==> s[a..a + 1][0] == s[a];
    }
    assert MatchPieces(s, a, ps[1..]) == None by {
      assert ps[1..][0] == Word(",");
    }
  }

  /** The lazy group grows over the name until the trailer matches just after it. */
  lemma {:induction false} LazyReachesEnd(s: string, g0: nat, e: nat, end: nat)
    requires g0 < e <= end <= |s|
    requires forall j :: g0 <= j < end ==> s[j] != ','
    requires !IsSpace(s[end - 1])
    requires TrailerAt(s, end)
    ensures LazyGroupEnd(s, g0, e) == Some(end)
    decreases end - e
  {
    if e < end {
      NoTrailerInside(s, e, end);
      LazyReachesEnd(s, g0, e + 1, end);
    }
  }

  /** A word piece that is present is consumed. */
  lemma WordStep(s: string, i: nat, w: string, rest: seq<Piece>)
    requires StartsAt(s, i, w)
    requires MatchPieces(s, i + |w|, rest).Some?
    ensures MatchPieces(s, i, [Word(w)] + rest).Some?
  {
    assert ([Word(w)] + rest)[1..] == rest;
  }

  /** A blank piece consumes the whole whitespace run of length `k`. */
  lemma BlankStep(s: string, i: nat, one: bool, rest: seq<Piece>, k: nat)
    requires i + k <= |s| && (one ==> k > 0)
    requires forall j :: i <= j < i + k ==> IsSpace(s[j])
    requires i + k == |s| || !IsSpace(s[i + k])
    requires MatchPieces(s, i + k, rest).Some?
    ensures MatchPieces(s, i, [Blanks(one)] + rest).Some?
  {
    SpaceRunIs(s, i, k);
    assert ([Blanks(one)] + rest)[1..] == rest;
  }

  /** The characters of ", добавь разделы" that the pattern looks at. */
  lemma AddTrailerLayout()
    ensures |AddTrailer| == 16
    ensures AddTrailer[..1] == "," && AddTrailer[1] == ' ' && AddTrailer[2..8] == AddWord
    ensures AddTrailer[8] == ' ' && AddTrailer[9..] == SectionsWord
    ensures !IsSpace(AddTrailer[0]) && IsSpace(' ') && !IsSpace(AddTrailer[2]) && !IsSpace(AddTrailer[9])
  {
  }

  /** The first alternative of the trailer, piece by piece. */
  lemma AddSectionsPatternShape()
    ensures AddSectionsPattern
         == [Blanks(false)] + ([Word(",")] + ([Blanks(false)] + ([Word(AddWord)] + ([Blanks(true)] + ([Word(SectionsWord)] + [])))))
  {
  }

  /** `добавь\s+разделы` matches at `i` when the two words stand there with one blank between them. */
  lemma AddWordsChain(s: string, i: nat)
    requires StartsAt(s, i, AddWord)
    requires i + 7 <= |s| && IsSpace(s[i + 6])
    requires StartsAt(s, i + 7, SectionsWord) && !IsSpace(s[i + 7])
    ensures MatchPieces(s, i, [Word(AddWord)] + ([Blanks(true)] + ([Word(SectionsWord)] + []))).Some?
  {
    var p5 := [Word(SectionsWord)] + [];
    WordStep(s, i + 7, SectionsWord, []);
    BlankStep(s, i + 6, true, p5, 1);
    WordStep(s, i, AddWord, [Blanks(true)] + p5);
  }

  /** The pieces of the first alternative match at `e` when the words and single blanks are there. */
  lemma TrailerChain(s: string, e: nat)
    requires StartsAt(s, e, ",") && !IsSpace(s[e])
    requires e + 2 <= |s| && IsSpace(s[e + 1])
    requires StartsAt(s, e + 2, AddWord) && !IsSpace(s[e + 2])
    requires e + 9 <= |s| && IsSpace(s[e + 8])
    requires StartsAt(s, e + 9, SectionsWord) && !IsSpace(s[e + 9])
    ensures AddSectionsAt(s, e)
  {
    var p3 := [Word(AddWord)] + ([Blanks(true)] + ([Word(SectionsWord)] + []));
    AddWordsChain(s, e + 2);
    BlankStep(s, e + 1, false, p3, 1);
    WordStep(s, e, ",", [Blanks(false)] + p3);
    BlankStep(s, e, false, [Word(",")] + ([Blanks(false)] + p3), 0);
    AddSectionsPatternShape();
  }

  /** ", добавь разделы" at `e` matches the first alternative of the trailer. */
  lemma TrailerPieces(s: string, e: nat)
    requires StartsAt(s, e, AddTrailer)
    ensures AddSectionsAt(s, e)
  {
    AddTrailerLayout();
    var t := s[e..e + 16];
    assert s[e..e + 1] == t[..1] && s[e] == t[0] && s[e + 1] == t[1];
    assert s[e + 2..e + 8] == t[2..8] && s[e + 2] == t[2];
    assert s[e + 8] == t[8] && s[e + 9..e + 16] == t[9..] && s[e + 9] == t[9];
    TrailerChain(s, e);
  }

  lemma AddTrailerMatches(s: string, u: string, v: string)
    requires s == u + AddTrailer + v
    ensures |u| <= |s| && TrailerAt(s, |u|)
  {
    assert s[|u|..|u| + |AddTrailer|] == AddTrailer;
    TrailerPieces(s, |u|);
  }

  lemma EndTrailer(s: string)
    ensures TrailerAt(s, |s|)
  {
    SpaceRunIs(s, |s|, 0);
  }

  lemma {:induction false} SearchTableFrom(s: string, p: nat, k: nat)
    requires p <= k <= |s|
    requires forall q :: p <= q < k ==> !StartsAt(s, q, TableWord)
    ensures SearchTable(s, p) == SearchTable(s, k)
    decreases k - p
  {
    if p < k {
      SearchTableFrom(s, p + 1, k);
    }
  }

  /** The keyword is found where `pre` ends, and nowhere before. */
  lemma KeywordFirstAt(s: string, pre: string, w: string, rest: string)
    requires s == pre + w + rest
    requires w != [] && w[0] !in w[1..]
    requires !Contains(pre, w)
    ensures StartsAt(s, |pre|, w)
    ensures forall q :: 0 <= q < |pre| ==> !StartsAt(s, q, w)
  {
    var k := |pre|;
    assert s[..k] == pre;
    assert s[k..k + |w|] == w;
    forall q | 0 <= q < k ensures !StartsAt(s, q, w) {
      NoEarlierStart(s, k, w, q);
    }
  }

  /** The project pattern matches at the first "таблицу", with the group running to `end`. */
  lemma TableMatchAt(s: string, k: nat, g0: nat, end: nat)
    requires StartsAt(s, k, TableWord)
    requires forall q :: 0 <= q < k ==> !StartsAt(s, q, TableWord)
    requires g0 == k + |TableWord| + 1 && g0 < end <= |s|
    requires s[g0 - 1] == ' ' && !IsSpace(s[g0]) && !IsSpace(s[end - 1])
    requires forall j :: g0 <= j < end ==> s[j] != ','
    requires TrailerAt(s, end)
    ensures SearchTable(s, 0) == Some((g0, end))
  {
    var q := k + |TableWord|;
    SpaceRunIs(s, q, 1);
    LazyReachesEnd(s, g0, g0 + 1, end);
    assert TryTableSpaces(s, q, 1) == Some((g0, end));
    assert SearchTable(s, k) == Some((g0, end));
    SearchTableFrom(s, 0, k);
  }

  /** The name sits at `g0` in `s`: the facts the project pattern needs about it. */
  lemma NameAt(s: string, g0: nat, name: string)
    requires g0 + |name| <= |s| && s[g0..g0 + |name|] == name
    requires name != [] && Trimmed(name) && ',' !in name
    ensures !IsSpace(s[g0]) && !IsSpace(s[g0 + |name| - 1])
    ensures forall j :: g0 <= j < g0 + |name| ==> s[j] != ','
  {
    assert forall j :: g0 <= j < g0 + |name| ==> s[j] == name[j - g0];
  }

  /** Where `s` starts with `pre`, the keyword `w`, a space and `name`, the name follows the space. */
  lemma NameLayout(s: string, pre: string, w: string, name: string, end: nat)
    requires end == |pre| + |w| + 1 + |name| <= |s|
    requires s[..end] == pre + w + " " + name
    ensures s == pre + w + (" " + name + s[end..])
    ensures s[|pre| + |w|] == ' ' && s[|pre| + |w| + 1..end] == name
  {
    assert s == s[..end] + s[end..];
    assert s[|pre| + |w|] == s[..end][|pre| + |w|];
    assert s[|pre| + |w| + 1..end] == s[..end][|pre| + |w| + 1..];
  }

  lemma NameOfMatch(s: string, g0: nat, e: nat)
    requires SearchTable(s, 0) == Some((g0, e))
    ensures e <= |s| && ExtractProjectName(s) == Some(Strip(s[g0..e]))
  {
  }

  /** Where "таблицу" first occurs, followed by one space, a clean name and the trailer, the name is extracted. */
  lemma ProjectNameAt(s: string, pre: string, name: string, end: nat)
    requires end == |pre| + |TableWord| + 1 + |name| <= |s|
    requires s[..end] == pre + TableWord + " " + name
    requires !Contains(pre, TableWord)
    requires name != [] && Trimmed(name) && ',' !in name
    requires TrailerAt(s, end)
    ensures ExtractProjectName(s) == Some(name)
  {
    var k := |pre|;
    var g0 := k + |TableWord| + 1;
    NameLayout(s, pre, TableWord, name, end);
    KeywordFirstAt(s, pre, TableWord, " " + name + s[end..]);
    NameAt(s, g0, name);
    TableMatchAt(s, k, g0, end);
    NameOfMatch(s, g0, end);
    StripStripped(name);
  }

  /**
   * A cleaned create command `<pre>таблицу <name>` yields exactly `name`,
   * provided `pre` does not already mention "таблицу".
   */
  lemma ProjectNameAlone(pre: string, name: string)
    requires !Contains(pre, TableWord)
    requires name != [] && Trimmed(name) && ',' !in name
    ensures ExtractProjectName(pre + TableWord + " " + name) == Some(name)
  {
    var s := pre + TableWord + " " + name;
    assert s[..|s|] == s;
    EndTrailer(s);
    ProjectNameAt(s, pre, name, |s|);
  }

  /**
   * A cleaned create command `<pre>таблицу <name>, добавь разделы <more>`
   * yields exactly `name`, provided `pre` does not already mention "таблицу".
   */
  lemma ProjectNameWithSections(pre: string, name: string, more: string)
    requires !Contains(pre, TableWord)
    requires name != [] && Trimmed(name) && ',' !in name
    ensures ExtractProjectName(pre + TableWord + " " + name + AddTrailer + more) == Some(name)
  {
    var u := pre + TableWord + " " + name;
    var s := u + AddTrailer + more;
    AddTrailerMatches(s, u, more);
    assert s[..|u|] == u;
    ProjectNameAt(s, pre, name, |u|);
  }

  /** Length of a run of non-newline characters that reaches the end of the text. */
  lemma {:induction false} LineRunToEnd(s: string, i: nat)
    requires i <= |s|
    requires forall j :: i <= j < |s| ==> s[j] != '\n'
    ensures LineRun(s, i) == |s| - i
    decreases |s| - i
  {
    if i < |s| {
      LineRunToEnd(s, i + 1);
    }
  }

  lemma {:induction false} SearchSectionsFrom(s: string, p: nat, k: nat)
    requires p <= k <= |s|
    requires forall q :: p <= q < k ==> !StartsAt(s, q, SectionsWord)
    ensures SearchSections(s, p) == SearchSections(s, k)
    decreases k - p
  {
    if p < k {
      SearchSectionsFrom(s, p + 1, k);
    }
  }

  /** `" " + x` for every element: the pieces `split(',')` leaves after ", ". */
  function SpaceAll(xs: seq<string>): (r: seq<string>)
    ensures |r| == |xs|
    ensures forall k :: 0 <= k < |xs| ==> r[k] == " " + xs[k]
  {
    if xs == [] then [] else [" " + xs[0]] + SpaceAll(xs[1..])
  }

  lemma JoinLeadingSpace(y: string, r: seq<string>)
    ensures Join(", ", [" " + y] + r) == " " + Join(", ", [y] + r)
  {
    if r != [] {
      assert ([" " + y] + r)[1..] == r;
      assert ([y] + r)[1..] == r;
    }
  }

  /** Joining with ", " is joining with "," after prefixing a space to every later piece. */
  lemma {:induction false} JoinCommaSpace(a: string, ys: seq<string>)
    ensures Join(",", [a] + SpaceAll(ys)) == Join(", ", [a] + ys)
    decreases |ys|
  {
    if ys != [] {
      var y := ys[0];
      JoinCommaSpace(" " + y, ys[1..]);
      assert SpaceAll(ys) == [" " + y] + SpaceAll(ys[1..]);
      assert ([a] + SpaceAll(ys))[1..] == [" " + y] + SpaceAll(ys[1..]);
      JoinLeadingSpace(y, ys[1..]);
      assert ([a] + ys)[1..] == [y] + ys[1..];
      assert ys == [y] + ys[1..];
    }
  }

  /** Stripping the pieces and dropping empty ones gives the sections back. */
  lemma {:induction false} StrippedSpaced(xs: seq<string>)
    requires forall k :: 0 <= k < |xs| ==> CleanSection(xs[k])
    ensures CommaFree(SpaceAll(xs)) && StrippedNonEmpty(SpaceAll(xs)) == xs
    decreases |xs|
  {
    if xs != [] {
      var x := xs[0];
      var r := SpaceAll(xs);
      StrippedSpaced(xs[1..]);
      assert r == [" " + x] + SpaceAll(xs[1..]);
      assert CommaFree(r) by {
        forall k | 0 <= k < |r| ensures ',' !in r[k] {
          assert r[k] == " " + xs[k];
          assert CleanSection(xs[k]);
        }
      }
      assert Strip(" " + x) == x by {
        assert StripLeft(" " + x) == StripLeft(x) by {
          assert (" " + x)[1..] == x;
        }
        StripStripped(x);
      }
      assert r[1..] == SpaceAll(xs[1..]);
    }
  }

  lemma NoNewlineJoin(xs: seq<string>)
    requires forall k :: 0 <= k < |xs| ==> '\n' !in xs[k]
    ensures '\n' !in Join(", ", xs)
  {
    if |xs| > 1 {
      NoNewlineJoin(xs[1..]);
    }
  }

  lemma JoinHead(xs: seq<string>)
    requires xs != [] && xs[0] != []
    ensures Join(", ", xs) != [] && Join(", ", xs)[0] == xs[0][0]
  {
  }

  /** Splitting ", "-joined sections on commas and stripping the pieces gives them back. */
  lemma SplitSections(secs: seq<string>)
    requires secs != []
    requires forall k :: 0 <= k < |secs| ==> CleanSection(secs[k])
    ensures CommaFree(Split(Join(", ", secs), ','))
    ensures StrippedNonEmpty(Split(Join(", ", secs), ',')) == secs
  {
    PiecesOfSections(secs);
    SplitJoin(Pieces(secs), ',');
  }

  /** The pieces `split(',')` makes of ", "-joined sections: the first as is, the rest after a space. */
  function Pieces(secs: seq<string>): (parts: seq<string>)
    requires secs != []
    ensures |parts| == |secs|
  {
    [secs[0]] + SpaceAll(secs[1..])
  }

  lemma PiecesOfSections(secs: seq<string>)
    requires secs != []
    requires forall k :: 0 <= k < |secs| ==> CleanSection(secs[k])
    ensures Join(", ", secs) == Join([','], Pieces(secs))
    ensures forall q :: 0 <= q < |secs| ==> ',' !in Pieces(secs)[q]
    ensures CommaFree(Pieces(secs)) && StrippedNonEmpty(Pieces(secs)) == secs
  {
    JoinPieces(secs);
    CommaFreePieces(secs);
    StrippedPieces(secs);
  }

  lemma JoinPieces(secs: seq<string>)
    requires secs != []
    ensures Join(", ", secs) == Join([','], Pieces(secs))
  {
    JoinCommaSpace(secs[0], secs[1..]);
    assert secs == [secs[0]] + secs[1..];
  }

  lemma CommaFreePieces(secs: seq<string>)
    requires secs != []
    requires forall k :: 0 <= k < |secs| ==> CleanSection(secs[k])
    ensures CommaFree(Pieces(secs))
  {
    var parts := Pieces(secs);
    forall q | 0 <= q < |parts| ensures ',' !in parts[q] {
      assert CleanSection(secs[q]);
      if q > 0 {
        assert parts[q] == SpaceAll(secs[1..])[q - 1] == " " + secs[q];
      }
    }
  }

  lemma StrippedPieces(secs: seq<string>)
    requires secs != []
    requires forall k :: 0 <= k < |secs| ==> CleanSection(secs[k])
    ensures CommaFree(Pieces(secs)) && StrippedNonEmpty(Pieces(secs)) == secs
  {
    var parts := Pieces(secs);
    CommaFreePieces(secs);
    StrippedSpaced(secs[1..]);
    StripStripped(secs[0]);
    assert parts[1..] == SpaceAll(secs[1..]);
    assert secs == [secs[0]] + secs[1..];
  }

  /** The sections pattern matches right after `разделы ` and its group runs to the end. */
  lemma SectionsMatch(head: string, body: string)
    requires !Contains(head, SectionsWord)
    requires body != [] && !IsSpace(body[0]) && '\n' !in body
    ensures var s := head + SectionsWord + " " + body;
      SearchSections(s, 0) == Some((|s| - |body|, |s|))
  {
    var s := head + SectionsWord + " " + body;
    var k := |head|;
    assert s == head + SectionsWord + (" " + body);
    KeywordFirstAt(s, head, SectionsWord, " " + body);
    SearchSectionsFrom(s, 0, k);
    assert s[k + |SectionsWord| + 1..] == body;
    SectionsMatchAt(s, k);
  }

  /** At a "разделы" followed by exactly one space and then one line to the end, the match is that line. */
  lemma SectionsMatchAt(s: string, k: nat)
    requires StartsAt(s, k, SectionsWord) && k + |SectionsWord| + 1 < |s|
    requires s[k + |SectionsWord|] == ' ' && !IsSpace(s[k + |SectionsWord| + 1])
    requires forall j :: k + |SectionsWord| + 1 <= j < |s| ==> s[j] != '\n'
    ensures SearchSections(s, k) == Some((k + |SectionsWord| + 1, |s|))
  {
    var g0 := k + |SectionsWord| + 1;
    SpaceRunIs(s, g0 - 1, 1);
    LineRunToEnd(s, g0);
  }

  /** Whatever follows "разделы " in such a command is taken as the group. */
  lemma SectionsAt(head: string, body: string)
    requires !Contains(head, SectionsWord)
    requires body != [] && !IsSpace(body[0]) && '\n' !in body
    requires CommaFree(Split(body, ','))
    ensures ExtractSections(head + SectionsWord + " " + body) == StrippedNonEmpty(Split(body, ','))
  {
    var s := head + SectionsWord + " " + body;
    SectionsMatch(head, body);
    assert s[|s| - |body|..|s|] == body;
  }

  /**
   * A cleaned command `<head>разделы s1, s2, ..., sn` yields exactly the
   * sections `s1 ... sn`, provided `head` does not already mention "разделы".
   */
  lemma SectionsRoundTrip(head: string, secs: seq<string>)
    requires !Contains(head, SectionsWord)
    requires secs != []
    requires forall k :: 0 <= k < |secs| ==> CleanSection(secs[k]) && '\n' !in secs[k]
    ensures ExtractSections(head + SectionsWord + " " + Join(", ", secs)) == secs
  {
    var body := Join(", ", secs);
    JoinHead(secs);
    NoNewlineJoin(secs);
    SectionsAt(head, body);
    SplitSections(secs);
  }

  /* ---------------------------------------------------------------- */
  /* parse_command                                                     */
  /* ---------------------------------------------------------------- */

  datatype ParsedCommand = ParsedCommand(projectName: Option<string>, sections: seq<string>)

  /**
   * `parse_command`: both extractors run on the cleaned command, so a name
   * is comma-free and trimmed, and every section is a clean section.
   */
  function ParseCommand(command: string): (r: ParsedCommand)
    ensures r.projectName.Some? ==> ',' !in r.projectName.value && Trimmed(r.projectName.value)
    ensures forall k :: 0 <= k < |r.sections| ==> CleanSection(r.sections[k])
  {
    var cleaned := CleanText(command);
    ParsedCommand(ExtractProjectName(cleaned), ExtractSections(cleaned))
  }

  /** The command `<pre>таблицу <name>, добавь разделы s1, ..., sn` in clean form. */
  function CreateCommand(pre: string, name: string, secs: seq<string>): string {
    pre + TableWord + " " + name + AddTrailer + (" " + Join(", ", secs))
  }

  /**
   * A create command that is already clean (single-spaced, trimmed, lower
   * case) parses to exactly its name and its sections, provided the text
   * before the name does not mention "таблицу" and the text before the
   * sections does not mention "разделы".
   */
  lemma ParseCreateCommand(pre: string, name: string, secs: seq<string>)
    requires var c := CreateCommand(pre, name, secs);
      SingleSpaced(c) && Trimmed(c) && forall i :: 0 <= i < |c| ==> !IsUpper(c[i])
    requires !Contains(pre, TableWord)
    requires !Contains(pre + TableWord + " " + name + ", " + AddWord + " ", SectionsWord)
    requires name != [] && Trimmed(name) && ',' !in name
    requires secs != []
    requires forall k :: 0 <= k < |secs| ==> CleanSection(secs[k]) && '\n' !in secs[k]
    ensures ParseCommand(CreateCommand(pre, name, secs)) == ParsedCommand(Some(name), secs)
  {
    ParseCleanText(CreateCommand(pre, name, secs));
    CreateCommandName(pre, name, secs);
    CreateCommandSections(pre, name, secs);
  }

  lemma CreateCommandName(pre: string, name: string, secs: seq<string>)
    requires !Contains(pre, TableWord)
    requires name != [] && Trimmed(name) && ',' !in name
    ensures ExtractProjectName(CreateCommand(pre, name, secs)) == Some(name)
  {
    var more := Join(", ", secs);
    ProjectNameWithSections(pre, name, " " + more);
  }

  lemma CreateCommandSections(pre: string, name: string, secs: seq<string>)
    requires !Contains(pre + TableWord + " " + name + ", " + AddWord + " ", SectionsWord)
    requires secs != []
    requires forall k :: 0 <= k < |secs| ==> CleanSection(secs[k]) && '\n' !in secs[k]
    ensures ExtractSections(CreateCommand(pre, name, secs)) == secs
  {
    CreateCommandSplit(pre, name, Join(", ", secs));
    SectionsRoundTrip(pre + TableWord + " " + name + ", " + AddWord + " ", secs);
  }

  /** Parsing a text that is already clean skips nothing. */
  lemma ParseCleanText(c: string)
    requires SingleSpaced(c) && Trimmed(c) && forall i :: 0 <= i < |c| ==> !IsUpper(c[i])
    ensures ParseCommand(c) == ParsedCommand(ExtractProjectName(c), ExtractSections(c))
  {
    assert CleanText(c) == c by {
      CleanTextOfCleanCommand(c);
      LowerNoUpper(c);
    }
  }

  lemma CreateCommandSplit(pre: string, name: string, more: string)
    ensures pre + TableWord + " " + name + AddTrailer + (" " + more)
         == (pre + TableWord + " " + name + ", " + AddWord + " ") + SectionsWord + " " + more
  {
  }

  /* ---------------------------------------------------------------- */
  /* The sample command of `test_parser`                               */
  /* ---------------------------------------------------------------- */

  const SampleSections: seq<string> := ["аренда", "судьи", "звук", "свет", "сцена", "сувенирка", "наградная"]

  /** The sample command of `test_parser` as typed, with a capital letter in the project name. */
  const RawSample: string :=
    "@бот, создай таблицу " + "Фестиваль гто, добавь разделы " + "аренда, судьи, звук, свет, " + "сцена, сувенирка, наградная"

  /** The sample command after `clean_text`: lower case, single-spaced, trimmed. */
  const CleanedSample := CreateCommand("@бот, создай ", "фестиваль гто", SampleSections)

  /**
   * `parse_command` of the sample command names the project "фестиваль гто"
   * (lower-cased) and has seven sections, "аренда" among them.
   */
  lemma SampleCommand()
    ensures CleanText(RawSample) == CleanedSample
    ensures ParseCommand(RawSample) == ParsedCommand(Some("фестиваль гто"), SampleSections)
    ensures ParseCommand(RawSample).projectName == Some("фестиваль гто")
    ensures |ParseCommand(RawSample).sections| == 7 && "аренда" in ParseCommand(RawSample).sections
  {
    RawSampleClean();
    CleanTextOfCleanCommand(RawSample);
    RawSampleLower();
    SampleName();
    SampleSectionList();
  }

  /** The typed sample command is already single-spaced and trimmed. */
  lemma RawSampleClean()
    ensures SingleSpaced(RawSample) && Trimmed(RawSample)
  {
    var a, b, c, d := "@бот, создай таблицу ", "Фестиваль гто, добавь разделы ", "аренда, судьи, звук, свет, ", "сцена, сувенирка, наградная";
    OpeningClean();
    NameClean();
    FirstSectionsClean();
    LastSectionsClean();
    SingleSpacedAppend(a, b);
    SingleSpacedAppend(a + b, c);
    SingleSpacedAppend(a + b + c, d);
    var r := a + b + c + d;
    assert r[0] == a[0] && r[|r| - 1] == d[|d| - 1];
  }

  /** The whitespace character at `i`, if any, is not followed by another one. */
  predicate LoneSpaceAt(x: string, i: nat) {
    i + 1 >= |x| || !IsSpace(x[i + 1])
  }

  /** A text whose every whitespace character is a lone plain space is single-spaced. */
  lemma LoneSpaces(x: string)
    requires forall i :: 0 <= i < |x| && IsSpace(x[i]) ==> x[i] == ' ' && LoneSpaceAt(x, i)
    ensures SingleSpaced(x)
  {
    forall i, j | 0 <= i < |x| && j == i + 1 && j < |x| ensures !(IsSpace(x[i]) && IsSpace(x[j])) {
      if IsSpace(x[i]) {
        assert LoneSpaceAt(x, i);
      }
    }
  }

  lemma OpeningClean() ensures SingleSpaced("@бот, создай таблицу ") {
    LoneSpaces("@бот, создай таблицу ");
  }

  lemma NameClean() ensures SingleSpaced("Фестиваль гто, добавь разделы ") {
    LoneSpaces("Фестиваль гто, добавь разделы ");
  }

  lemma FirstSectionsClean() ensures SingleSpaced("аренда, судьи, звук, свет, ") {
    LoneSpaces("аренда, судьи, звук, свет, ");
  }

  lemma LastSectionsClean() ensures SingleSpaced("сцена, сувенирка, наградная") {
    LoneSpaces("сцена, сувенирка, наградная");
  }

  /** Two single-spaced texts stay single-spaced when joined in front of a non-space character. */
  lemma SingleSpacedAppend(a: string, b: string)
    requires SingleSpaced(a) && SingleSpaced(b)
    requires b == [] || !IsSpace(b[0])
    ensures SingleSpaced(a + b)
  {
    var r := a + b;
    forall i | 0 <= i < |r| && IsSpace(r[i]) ensures r[i] == ' ' {
      if i < |a| { assert r[i] == a[i]; } else { assert r[i] == b[i - |a|]; }
    }
    forall i, j | 0 <= i < |r| && j == i + 1 && j < |r| ensures !(IsSpace(r[i]) && IsSpace(r[j])) {
      if j < |a| {
        assert r[i] == a[i] && r[j] == a[j];
      } else if i >= |a| {
        assert r[i] == b[i - |a|] && r[j] == b[j - |a|];
      } else {
        assert r[j] == b[0];
      }
    }
  }

  /** Lower-casing the typed sample command gives the cleaned one. */
  lemma RawSampleLower()
    ensures Lower(RawSample) == CleanedSample
  {
    var a, b, c, d := "@бот, создай таблицу ", "Фестиваль гто, добавь разделы ", "аренда, судьи, звук, свет, ", "сцена, сувенирка, наградная";
    LowerFour(a, b, c, d);
    OpeningLower();
    NameLower();
    FirstSectionsLower();
    LastSectionsLower();
    CleanedSampleParts();
    SampleJoin();
    AppendAssoc(a + "фестиваль гто, добавь разделы ", c, d);
  }

  lemma LowerFour(a: string, b: string, c: string, d: string)
    ensures Lower(a + b + c + d) == Lower(a) + Lower(b) + Lower(c) + Lower(d)
  {
    LowerAppend(a, b);
    LowerAppend(a + b, c);
    LowerAppend(a + b + c, d);
  }

  lemma OpeningLower() ensures Lower("@бот, создай таблицу ") == "@бот, создай таблицу " {
    LowerNoUpper("@бот, создай таблицу ");
  }

  /** Only the capital letter of the project name changes. */
  lemma NameLower() ensures Lower("Фестиваль гто, добавь разделы ") == "фестиваль гто, добавь разделы " {
    CapitalSplit();
    NameRestNoUpper();
    CapitalFirst("естиваль гто, добавь разделы ");
  }

  lemma CapitalFirst(rest: string)
    requires forall i :: 0 <= i < |rest| ==> !IsUpper(rest[i])
    ensures Lower("Ф" + rest) == "ф" + rest
  {
    LowerNoUpper(rest);
    LowerAppend("Ф", rest);
    assert Lower("Ф") == "ф";
  }

  lemma CapitalSplit()
    ensures "Фестиваль гто, добавь разделы " == "Ф" + "естиваль гто, добавь разделы "
    ensures "фестиваль гто, добавь разделы " == "ф" + "естиваль гто, добавь разделы "
  {
    CapitalSplitUpper();
  }

  lemma CapitalSplitUpper()
    ensures "Фестиваль гто, добавь разделы " == "Ф" + "естиваль гто, добавь разделы "
  {
  }

  lemma NameRestNoUpper()
    ensures forall i :: 0 <= i < |"естиваль гто, добавь разделы "| ==> !IsUpper("естиваль гто, добавь разделы "[i])
  {
  }

  lemma FirstSectionsLower() ensures Lower("аренда, судьи, звук, свет, ") == "аренда, судьи, звук, свет, " {
    LowerNoUpper("аренда, судьи, звук, свет, ");
  }

  lemma LastSectionsLower() ensures Lower("сцена, сувенирка, наградная") == "сцена, сувенирка, наградная" {
    LowerNoUpper("сцена, сувенирка, наградная");
  }

  /** The cleaned sample command, cut where the typed one is cut. */
  lemma CleanedSampleParts()
    ensures CleanedSample == "@бот, создай таблицу " + "фестиваль гто, добавь разделы " + Join(", ", SampleSections)
  {
    CreateCommandParts("@бот, создай ", "фестиваль гто", SampleSections);
    OpeningWords();
    NameTrailer();
  }

  /** A create command is its opening words, its name with the trailer, and its joined sections. */
  lemma CreateCommandParts(pre: string, name: string, secs: seq<string>)
    ensures CreateCommand(pre, name, secs) == (pre + TableWord + " ") + (name + AddTrailer + " ") + Join(", ", secs)
  {
    var a, b, c := pre + TableWord + " ", name + AddTrailer, Join(", ", secs);
    AppendAssoc(a + name, AddTrailer, " " + c);
    AppendAssoc(a + name + AddTrailer, " ", c);
    AppendAssoc(a, name, AddTrailer);
    AppendAssoc(a, b, " ");
  }

  lemma OpeningWords() ensures "@бот, создай " + TableWord + " " == "@бот, создай таблицу " {
  }

  lemma NameTrailer() ensures "фестиваль гто" + AddTrailer + " " == "фестиваль гто, добавь разделы " {
  }

  /** The seven sections joined with ", ", in two halves. */
  lemma SampleJoin()
    ensures Join(", ", SampleSections) == "аренда, судьи, звук, свет, " + "сцена, сувенирка, наградная"
  {
    var first, last := ["аренда", "судьи", "звук", "свет"], ["сцена", "сувенирка", "наградная"];
    assert SampleSections == first + last;
    JoinAppend(", ", first, last);
    FirstSectionsJoin();
    LastSectionsJoin();
  }

  lemma FirstSectionsJoin() ensures Join(", ", ["аренда", "судьи", "звук", "свет"]) + ", " == "аренда, судьи, звук, свет, " {
  }

  lemma LastSectionsJoin() ensures Join(", ", ["сцена", "сувенирка", "наградная"]) == "сцена, сувенирка, наградная" {
  }

  /** Joining two non-empty lists is joining each and putting the separator between. */
  lemma {:induction false} JoinAppend(sep: string, xs: seq<string>, ys: seq<string>)
    requires xs != [] && ys != []
    ensures Join(sep, xs + ys) == Join(sep, xs) + sep + Join(sep, ys)
    decreases |xs|
  {
    if |xs| == 1 {
      assert (xs + ys)[1..] == ys;
    } else {
      assert (xs + ys)[1..] == xs[1..] + ys;
      JoinAppend(sep, xs[1..], ys);
      AppendAssoc(xs[0] + sep, Join(sep, xs[1..]) + sep, Join(sep, ys));
    }
  }

  lemma SampleName()
    ensures ExtractProjectName(CleanedSample) == Some("фестиваль гто")
  {
    var pre, name := "@бот, создай ", "фестиваль гто";
    NotContainsChar(pre, TableWord, 'у');
    CreateCommandName(pre, name, SampleSections);
  }

  lemma SampleSectionList()
    ensures ExtractSections(CleanedSample) == SampleSections
  {
    var pre, name := "@бот, создай ", "фестиваль гто";
    SampleHead(pre, name);
    SampleSectionsClean();
    CreateCommandSections(pre, name, SampleSections);
  }

  lemma SampleHead(pre: string, name: string)
    requires 'ы' !in pre && 'ы' !in name
    ensures !Contains(pre + TableWord + " " + name + ", " + AddWord + " ", SectionsWord)
  {
    var head := pre + TableWord + " " + name + ", " + AddWord + " ";
    assert 'ы' !in head by {
      assert 'ы' !in TableWord && 'ы' !in AddWord;
    }
    NotContainsChar(head, SectionsWord, 'ы');
  }

  lemma SampleSectionsClean()
    ensures forall k :: 0 <= k < |SampleSections| ==> CleanSection(SampleSections[k]) && '\n' !in SampleSections[k]
  {
    assert forall x :: x in SampleSections ==> CleanSection(x) && '\n' !in x;
  }
}
