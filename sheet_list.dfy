/** The sheet list: the search filter over the store's sheets, thumbnail and
    badge choice per sheet, the two alerts, and the delete confirmation. */
module SheetList {
  import opened Wrappers
  import opened Seqs
  import opened Strings
  import opened Records
  import opened AppStore
  import Database

  /** `toLowerCase` on one character, for the ASCII letters. */
  function LowerChar(c: char): char
  {
    if 'A' <= c <= 'Z' then (c as int + 32) as char else c
  }

  function Lower(s: string): (r: string)
    ensures |r| == |s|
    ensures forall i :: 0 <= i < |s| ==> r[i] == LowerChar(s[i])
  {
    if s == [] then [] else [LowerChar(s[0])] + Lower(s[1..])
  }

  /** The characters `String.prototype.trim` removes. */
  predicate IsWhitespace(c: char)
  {
    || c == ' ' || c == '\t' || c == '\n' || c == '\r' || c == '\U{B}' || c == '\U{C}'
    || c == '\U{A0}' || c == '\U{1680}' || ('\U{2000}' <= c <= '\U{200A}')
    || c == '\U{2028}' || c == '\U{2029}' || c == '\U{202F}' || c == '\U{205F}'
    || c == '\U{3000}' || c == '\U{FEFF}'
  }

  /** `r` is `s[a..b]`, and everything cut off on either side is whitespace. */
  predicate TrimmedAt(s: string, r: string, a: int, b: int)
  {
    && 0 <= a <= b <= |s| && r == s[a..b]
    && (forall i :: 0 <= i < a ==> IsWhitespace(s[i]))
    && (forall i :: b <= i < |s| ==> IsWhitespace(s[i]))
  }

  /** Cutting a leading whitespace character off first trims to the same slice. */
  lemma TrimmedAfterFirst(s: string, r: string, a: int, b: int)
    requires s != [] && IsWhitespace(s[0]) && TrimmedAt(s[1..], r, a, b)
    ensures TrimmedAt(s, r, a + 1, b + 1)
  {
    assert s[a + 1..b + 1] == s[1..][a..b];
    forall i | 0 < i < a + 1 ensures IsWhitespace(s[i]) {
      assert s[i] == s[1..][i - 1];
    }
    forall i | b + 1 <= i < |s| ensures IsWhitespace(s[i]) {
      assert s[i] == s[1..][i - 1];
    }
  }

  /** Cutting a trailing whitespace character off first trims to the same slice. */
  lemma TrimmedBeforeLast(s: string, r: string, a: int, b: int)
    requires s != [] && IsWhitespace(s[|s| - 1]) && TrimmedAt(s[..|s| - 1], r, a, b)
    ensures TrimmedAt(s, r, a, b)
  {
    assert s[a..b] == s[..|s| - 1][a..b];
    forall i | 0 <= i < a ensures IsWhitespace(s[i]) {
      assert s[i] == s[..|s| - 1][i];
    }
    forall i | b <= i < |s| - 1 ensures IsWhitespace(s[i]) {
      assert s[i] == s[..|s| - 1][i];
    }
  }

  /** `String.prototype.trim`: whitespace removed from both ends. */
  function Trim(s: string): (r: string)
    ensures exists a, b :: TrimmedAt(s, r, a, b)
    ensures r != [] ==> !IsWhitespace(r[0]) && !IsWhitespace(r[|r| - 1])
    decreases |s|
  {
    if s == [] then
      assert TrimmedAt(s, [], 0, 0);
      []
    else if IsWhitespace(s[0]) then
      var r := Trim(s[1..]);
      var a, b :| TrimmedAt(s[1..], r, a, b);
      TrimmedAfterFirst(s, r, a, b);
      r
    else if IsWhitespace(s[|s| - 1]) then
      var r := Trim(s[..|s| - 1]);
      var a, b :| TrimmedAt(s[..|s| - 1], r, a, b);
      TrimmedBeforeLast(s, r, a, b);
      r
    else
      assert TrimmedAt(s, s, 0, |s|);
      s
  }

  /** Trimming leaves nothing exactly when every character is whitespace. */
  lemma {:induction false} TrimEmptyIffAllWhitespace(s: string)
    ensures Trim(s) == [] <==> forall i :: 0 <= i < |s| ==> IsWhitespace(s[i])
    decreases |s|
  {
    if s != [] {
      if IsWhitespace(s[0]) {
        TrimEmptyIffAllWhitespace(s[1..]);
        assert forall i :: 0 < i < |s| ==> s[i] == s[1..][i - 1];
      } else if IsWhitespace(s[|s| - 1]) {
        TrimEmptyIffAllWhitespace(s[..|s| - 1]);
      }
    }
  }

  /** `!query.trim()`: the query is empty or all whitespace. */
  predicate IsBlank(query: string)
    ensures IsBlank(query) <==> forall i :: 0 <= i < |query| ==> IsWhitespace(query[i])
  {
    TrimEmptyIffAllWhitespace(query);
    Trim(query) == []
  }

  /** `needle` occurs in `hay` starting at index `i`. */
  predicate OccursAt(hay: string, needle: string, i: nat)
  {
    i + |needle| <= |hay| && forall j :: 0 <= j < |needle| ==> hay[i + j] == needle[j]
  }

  /** `hay.includes(needle)`, by scanning. The empty needle is found in
      every string, and no needle longer than the text is found. */
  predicate Contains(hay: string, needle: string)
    ensures needle == [] ==> Contains(hay, needle)
    ensures Contains(hay, needle) ==> |needle| <= |hay|
  {
    if StartsWith(hay, needle) then true
    else if hay == [] then false
    else Contains(hay[1..], needle)
  }

  lemma OccursAtStart(hay: string, needle: string)
    ensures OccursAt(hay, needle, 0) <==> StartsWith(hay, needle)
  {
    if OccursAt(hay, needle, 0) {
      assert hay[..|needle|] == needle;
    }
  }

  lemma OccursShift(hay: string, needle: string, i: nat)
    requires hay != []
    ensures OccursAt(hay, needle, i + 1) <==> OccursAt(hay[1..], needle, i)
  {
  }

  /** The scan finds the needle exactly when it occurs at some position. */
  lemma {:induction false} ContainsIffOccurs(hay: string, needle: string)
    ensures Contains(hay, needle) <==> exists i: nat :: OccursAt(hay, needle, i)
  {
    OccursAtStart(hay, needle);
    if StartsWith(hay, needle) {
      assert OccursAt(hay, needle, 0);
    } else if hay != [] {
      ContainsIffOccurs(hay[1..], needle);
      if Contains(hay[1..], needle) {
        var i: nat :| OccursAt(hay[1..], needle, i);
        OccursShift(hay, needle, i);
      }
      if exists i: nat :: OccursAt(hay, needle, i) {
        var i: nat :| OccursAt(hay, needle, i);
        OccursShift(hay, needle, i - 1);
      }
    }
  }

  /** A sheet whose name is text can be searched; the filter reads `sheet.name`. */
  predicate Named(s: Record)
  {
    Field(s, "name").Text?
  }

  /** The search test: the lower-cased name contains the lower-cased query,
      spaces included. */
  predicate Matches(s: Record, query: string)
  {
    Named(s) && Contains(Lower(Field(s, "name").s), Lower(query))
  }

  /** `filteredSheets`: every sheet for a blank query, otherwise the matching
      sheets in their order. */
  function FilteredSheets(sheets: seq<Record>, query: string): (r: seq<Record>)
    requires IsBlank(query) || forall k :: 0 <= k < |sheets| ==> Named(sheets[k])
    ensures IsBlank(query) ==> r == sheets
    ensures Sub(r, sheets)
    ensures !IsBlank(query) ==> forall x :: x in r <==> x in sheets && Matches(x, query)
    ensures !IsBlank(query) ==> forall x :: Matches(x, query) ==> multiset(r)[x] == multiset(sheets)[x]
  {
    if IsBlank(query) then
      SubReflexive(sheets);
      sheets
    else
      var out := Filter(sheets, s => Matches(s, query));
      SubMembers(out, sheets);
      assert forall x :: x in sheets && Matches(x, query) ==> multiset(out)[x] == multiset(sheets)[x] > 0;
      out
  }

  /** The query is not trimmed before matching: a query holding a space,
      leading, trailing or inside, never finds a name without spaces. */
  lemma QueryIsNotTrimmed(sheet: Record, query: string)
    requires Named(sheet)
    requires forall k :: 0 <= k < |Field(sheet, "name").s| ==> Field(sheet, "name").s[k] != ' '
    requires ' ' in query
    ensures !Matches(sheet, query)
  {
    var hay := Lower(Field(sheet, "name").s);
    var needle := Lower(query);
    var p :| 0 <= p < |query| && query[p] == ' ';
    assert needle[p] == ' ';
    ContainsIffOccurs(hay, needle);
    forall i: nat ensures !OccursAt(hay, needle, i) {
      if i + |needle| <= |hay| {
        assert hay[i + p] != ' ';
      }
    }
  }

  /** Case is ignored: a query finds the same sheets as its lower-case form. */
  lemma CaseIsIgnored(sheet: Record, query: string)
    ensures Matches(sheet, query) <==> Matches(sheet, Lower(query))
  {
    assert Lower(Lower(query)) == Lower(query);
  }

  /** `getThumbnail`: the stored data of an image sheet, nothing for a PDF. */
  function Thumbnail(sheet: Record): (r: Option<Value>)
    requires Field(sheet, "fileType").Text?
    ensures r.Some? <==> StartsWith(Field(sheet, "fileType").s, "image/")
    ensures r.Some? ==> r.value == Field(sheet, "fileData")
  {
    if StartsWith(Field(sheet, "fileType").s, "image/") then Some(Field(sheet, "fileData")) else None
  }

  /** The type badge: "PDF" for exactly the PDF type, "Image" for anything else. */
  function Badge(sheet: Record): (badge: string)
    ensures badge == "PDF" <==> Field(sheet, "fileType") == Text("application/pdf")
    ensures badge == "PDF" || badge == "Image"
  {
    if Field(sheet, "fileType") == Text("application/pdf") then "PDF" else "Image"
  }

  predicate ShowsEmptyState(sheets: seq<Record>)
  {
    |sheets| == 0
  }

  predicate ShowsNoResults(sheets: seq<Record>, filtered: seq<Record>)
  {
    |sheets| > 0 && |filtered| == 0
  }

  /** At most one of the two alerts shows, and "no results" needs a query
      that is not blank. */
  lemma AlertsExclusive(sheets: seq<Record>, query: string)
    requires IsBlank(query) || forall k :: 0 <= k < |sheets| ==> Named(sheets[k])
    ensures !(ShowsEmptyState(sheets) && ShowsNoResults(sheets, FilteredSheets(sheets, query)))
    ensures ShowsNoResults(sheets, FilteredSheets(sheets, query)) <==>
              |sheets| > 0 && !IsBlank(query) && forall k :: 0 <= k < |sheets| ==> !Matches(sheets[k], query)
  {
    if !IsBlank(query) && |sheets| > 0 && |FilteredSheets(sheets, query)| == 0 {
      forall k | 0 <= k < |sheets| ensures !Matches(sheets[k], query) {
        assert sheets[k] in sheets;
      }
    }
    if !IsBlank(query) && |FilteredSheets(sheets, query)| > 0 {
      var x := FilteredSheets(sheets, query)[0];
      assert x in FilteredSheets(sheets, query);
      var k :| 0 <= k < |sheets| && sheets[k] == x;
    }
  }

  /** The delete confirmation dialog's state. */
  class DeleteDialog {
    var open: bool
    var sheetToDelete: Option<Record>

    constructor ()
      ensures !open && sheetToDelete == None
    {
      open := false;
      sheetToDelete := None;
    }

    method HandleDeleteClick(sheet: Record)
      modifies this
      ensures open && sheetToDelete == Some(sheet)
    {
      sheetToDelete := Some(sheet);
      open := true;
    }

    /** Deletes the pending sheet through the store, or does nothing when no
        sheet is pending. */
    method HandleDeleteConfirm(store: Store)
      modifies this, store`sheets, store.db`sheets, store.db`storage
      ensures old(sheetToDelete).None? ==>
                && open == old(open) && sheetToDelete == None
                && store.sheets == old(store.sheets)
                && store.db.sheets == old(store.db.sheets) && store.db.storage == old(store.db.storage)
      ensures old(sheetToDelete).Some? ==>
                var id := Field(old(sheetToDelete).value, "_id");
                && store.sheets == WithoutId(old(store.sheets), id)
                && store.db.sheets == WithoutId(old(store.db.sheets), id)
                && store.db.storage == Database.Save(old(store.db.storage), store.db.sheets, store.db.playlists)
                && !open && sheetToDelete == None
      ensures old(store.Mirrors()) ==> store.Mirrors()
    {
      if sheetToDelete.Some? {
        store.DeleteSheet(Field(sheetToDelete.value, "_id"));
        open := false;
        sheetToDelete := None;
      }
    }

    method HandleDeleteCancel()
      modifies this
      ensures !open && sheetToDelete == None
    {
      open := false;
      sheetToDelete := None;
    }
  }
}
