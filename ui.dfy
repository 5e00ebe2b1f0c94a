/**
 * The file browser's helpers: the search over files and their analyses, the area and
 * category choices offered for correcting a classification, and the removal of analysis
 * files whose document is gone.
 */
module Ui {
  import opened Base
  import opened Text

  // ---------------------------------------------------------------- search

  /** One row of the browser: the file's name, whether it has an analysis, and the analysis itself. */
  datatype FileRow = FileRow(name: string, hasAnalysis: bool, analysis: Option<Dict<Json>>)

  /** The search field selects this attribute (`field == "all" or field == attribute`). */
  predicate Searched(field: string, attribute: string)
  {
    field == "all" || field == attribute
  }

  /** The (already lower-cased) query occurs in the text once that is lower-cased. */
  predicate Hit(q: string, text: string)
  {
    Contains(Lower(text), q)
  }

  /** `any(q in t.lower() for t in tags)` */
  predicate AnyHit(q: string, tags: seq<string>)
  {
    exists k :: 0 <= k < |tags| && Hit(q, tags[k])
  }

  /** `if analysis`: there is one and it is not an empty dictionary. */
  predicate HasMetadata(row: FileRow)
  {
    row.analysis.Some? && |row.analysis.value| > 0
  }

  /** The attributes of an analysis the field selects, one of which holds the query. */
  predicate MetadataMatches(m: Dict<Json>, q: string, field: string)
  {
    || (Searched(field, "issuer") && Hit(q, StrOrEmpty(m, "issuer")))
    || (Searched(field, "document_type") && Hit(q, StrOrEmpty(m, "document_type")))
    || (Searched(field, "summary") && Hit(q, StrOrEmpty(m, "summary")))
    || (Searched(field, "tags") && AnyHit(q, StrList(m, "tags")))
    || (Searched(field, "category") && (Hit(q, StrOrEmpty(m, "jd_area")) || Hit(q, StrOrEmpty(m, "jd_category"))))
    || (Searched(field, "text") && Hit(q, StrOrEmpty(m, "extracted_text")))
  }

  /** A row is kept when its name, or one of the selected attributes of its analysis, holds the query. */
  predicate Matches(row: FileRow, q: string, field: string)
  {
    (Searched(field, "filename") && Hit(q, row.name))
    || (HasMetadata(row) && MetadataMatches(row.analysis.value, q, field))
  }

  /** The rows kept, in their order. */
  function Filter(rows: seq<FileRow>, q: string, field: string): seq<FileRow>
    decreases |rows|
  {
    if |rows| == 0 then []
    else
      var last := rows[|rows| - 1];
      Filter(rows[..|rows| - 1], q, field) + (if Matches(last, q, field) then [last] else [])
  }

  /** The tag scan of the match test, stopping at the first tag that holds the query. */
  method TagsHit(q: string, tags: seq<string>) returns (hit: bool)
    ensures hit <==> AnyHit(q, tags)
  {
    var k := 0;
    while k < |tags|
      invariant k <= |tags|
      invariant forall l :: 0 <= l < k ==> !Hit(q, tags[l])
    {
      if Contains(Lower(tags[k]), q) {
        return true;
      }
      k := k + 1;
    }
    return false;
  }

  /** The match test of `filter_files` for the attributes of an analysis, one after the other. */
  method MetadataHit(m: Dict<Json>, q: string, field: string) returns (hit: bool)
    ensures hit <==> MetadataMatches(m, q, field)
  {
    hit := false;
    if field == "all" || field == "issuer" {
      if Contains(Lower(StrOrEmpty(m, "issuer")), q) { hit := true; }
    }
    if field == "all" || field == "document_type" {
      if Contains(Lower(StrOrEmpty(m, "document_type")), q) { hit := true; }
    }
    if field == "all" || field == "summary" {
      if Contains(Lower(StrOrEmpty(m, "summary")), q) { hit := true; }
    }
    if field == "all" || field == "tags" {
      var tagged := TagsHit(q, StrList(m, "tags"));
      if tagged { hit := true; }
    }
    if field == "all" || field == "category" {
      if Contains(Lower(StrOrEmpty(m, "jd_area")), q) || Contains(Lower(StrOrEmpty(m, "jd_category")), q) {
        hit := true;
      }
    }
    if field == "all" || field == "text" {
      if Contains(Lower(StrOrEmpty(m, "extracted_text")), q) { hit := true; }
    }
  }

  /** The match test of `filter_files` for one row: the name first, then the analysis if that fails. */
  method RowMatches(row: FileRow, q: string, field: string) returns (hit: bool)
    ensures hit <==> Matches(row, q, field)
  {
    hit := false;
    if field == "all" || field == "filename" {
      if Contains(Lower(row.name), q) {
        hit := true;
      }
    }
    if row.analysis.Some? && |row.analysis.value| > 0 && !hit {
      hit := MetadataHit(row.analysis.value, q, field);
    }
  }

  /**
   * `filter_files`: every row for an empty query; otherwise the rows that match the
   * lower-cased query, in their order.
   */
  method FilterFiles(files: seq<FileRow>, query: string, field: string) returns (filtered: seq<FileRow>)
    ensures query == "" ==> filtered == files
    ensures query != "" ==> filtered == Filter(files, Lower(query), field)
  {
    if query == "" {
      return files;
    }
    var q := Lower(query);
    filtered := [];
    var i := 0;
    while i < |files|
      invariant i <= |files|
      invariant filtered == Filter(files[..i], q, field)
    {
      assert files[..i + 1][..i] == files[..i];
      var hit := RowMatches(files[i], q, field);
      if hit {
        filtered := filtered + [files[i]];
      }
      i := i + 1;
    }
    assert files[..i] == files;
  }

  /** `a` is `b` with some elements left out, the rest in their order. */
  predicate SubList<T(==)>(a: seq<T>, b: seq<T>)
    decreases |b|
  {
    if |a| == 0 then true
    else if |b| == 0 then false
    else
      (a[|a| - 1] == b[|b| - 1] && SubList(a[..|a| - 1], b[..|b| - 1])) || SubList(a, b[..|b| - 1])
  }

  /** The search result is the input with the rows that do not match left out, in its order. */
  lemma {:induction false} FilterIsSubList(rows: seq<FileRow>, q: string, field: string)
    ensures SubList(Filter(rows, q, field), rows)
    decreases |rows|
  {
    if |rows| > 0 {
      var init, last := rows[..|rows| - 1], rows[|rows| - 1];
      FilterIsSubList(init, q, field);
      var r := Filter(rows, q, field);
      if Matches(last, q, field) {
        assert r[..|r| - 1] == Filter(init, q, field);
      } else {
        assert r == Filter(init, q, field);
      }
    }
  }

  /**
   * Each row is kept exactly as often as it occurs when it matches, and never otherwise:
   * nothing is added, repeated or lost.
   */
  lemma {:induction false} FilterCounts(rows: seq<FileRow>, q: string, field: string, x: FileRow)
    ensures multiset(Filter(rows, q, field))[x] == if Matches(x, q, field) then multiset(rows)[x] else 0
    decreases |rows|
  {
    if |rows| > 0 {
      var init, last := rows[..|rows| - 1], rows[|rows| - 1];
      LastSplit(rows);
      FilterCounts(init, q, field, x);
    }
  }

  /** A row without an analysis (or with an empty one) can match on its name only. */
  lemma NameOnlyWithoutMetadata(row: FileRow, q: string, field: string)
    requires !HasMetadata(row)
    ensures Matches(row, q, field) <==> Searched(field, "filename") && Hit(q, row.name)
  {
  }

  /** Searching "all" keeps a row that searching any one attribute keeps. */
  lemma AllWidens(row: FileRow, q: string, field: string)
    requires Matches(row, q, field)
    ensures Matches(row, q, "all")
  {
  }

  // ---------------------------------------------------------------- area choices

  const SystemAreaName: string := "00-09 System"
  const ArchiveAreaName: string := "90-99 Archive"
  const UncategorizedName: string := "09 Uncategorized"

  /** The categories offered for an area: only "09 Uncategorized" for System, else all of them in order. */
  function Offered<V>(area: string, categories: Dict<V>): (r: seq<string>)
    ensures area == SystemAreaName ==> r == [UncategorizedName]
    ensures area != SystemAreaName ==> r == Keys(categories)
  {
    if area == SystemAreaName then [UncategorizedName] else Keys(categories)
  }

  /** The areas offered, each with its categories, in order; the Archive is left out. */
  function Choices<V>(areas: Dict<Dict<V>>): (r: Dict<seq<string>>)
    decreases |areas|
  {
    if |areas| == 0 then []
    else
      var last := areas[|areas| - 1];
      Choices(areas[..|areas| - 1]) + (if last.0 == ArchiveAreaName then [] else [(last.0, Offered(last.0, last.1))])
  }

  /** One more area extends the choices by that area unless it is the Archive. */
  lemma ChoicesStep<V>(areas: Dict<Dict<V>>)
    requires |areas| > 0
    ensures var last := areas[|areas| - 1];
      Choices(areas) == Choices(areas[..|areas| - 1]) + (if last.0 == ArchiveAreaName then [] else [(last.0, Offered(last.0, last.1))])
  {
  }

  /** The offered areas are exactly the areas other than the Archive. */
  lemma {:induction false} ChoicesKeys<V>(areas: Dict<Dict<V>>, k: string)
    ensures HasKey(Choices(areas), k) <==> HasKey(areas, k) && k != ArchiveAreaName
    decreases |areas|
  {
    if |areas| > 0 {
      var init, last := areas[..|areas| - 1], areas[|areas| - 1];
      LastSplit(areas);
      ChoicesKeys(init, k);
      FindAppend(init, last.0, last.1, k);
      var c := Choices(init);
      ChoicesStep(areas);
      if last.0 != ArchiveAreaName {
        FindAppend(c, last.0, Offered(last.0, last.1), k);
      } else {
        assert Choices(areas) == c;
      }
    }
  }

  /** Each offered area carries the categories offered for it. */
  lemma {:induction false} ChoicesGet<V>(areas: Dict<Dict<V>>, k: string)
    requires UniqueKeys(areas) && HasKey(areas, k) && k != ArchiveAreaName
    ensures Get(Choices(areas), k) == Some(Offered(k, Get(areas, k).value))
    decreases |areas|
  {
    var init, last := areas[..|areas| - 1], areas[|areas| - 1];
    LastSplit(areas);
    GetAppend(init, last.0, last.1, k);
    var c := Choices(init);
    ChoicesStep(areas);
    if last.0 != ArchiveAreaName {
      GetAppend(c, last.0, Offered(last.0, last.1), k);
    } else {
      assert Choices(areas) == c;
    }
    if last.0 == k {
      assert !HasKey(init, k) by {
        forall j | 0 <= j < |init| ensures init[j].0 != k { assert init[j] == areas[j]; }
      }
      ChoicesKeys(init, k);
    } else {
      assert UniqueKeys(init);
      ChoicesGet(init, k);
    }
  }

  /** The choices of a dictionary form a dictionary. */
  lemma {:induction false} ChoicesUnique<V>(areas: Dict<Dict<V>>)
    requires UniqueKeys(areas)
    ensures UniqueKeys(Choices(areas))
    decreases |areas|
  {
    if |areas| > 0 {
      var init, last := areas[..|areas| - 1], areas[|areas| - 1];
      LastSplit(areas);
      assert UniqueKeys(init);
      ChoicesUnique(init);
      if last.0 != ArchiveAreaName {
        var c := Choices(init);
        forall j | 0 <= j < |c| ensures c[j].0 != last.0 {
          FindAt(c, c[j].0, j);
          ChoicesKeys(init, c[j].0);
          var i := Find(init, c[j].0).value;
          assert init[i] == areas[i];
        }
      }
    }
  }

  /**
   * `get_areas_and_categories`: the areas of the legacy table other than the Archive, in
   * order, and for each the categories offered.
   */
  method AreasAndCategories<V>(jdAreas: Dict<Dict<V>>) returns (areas: seq<string>, areaCategories: Dict<seq<string>>)
    requires UniqueKeys(jdAreas)
    ensures areaCategories == Choices(jdAreas)
    ensures areas == Keys(areaCategories)
  {
    areas := [];
    areaCategories := [];
    var i := 0;
    while i < |jdAreas|
      invariant i <= |jdAreas|
      invariant areaCategories == Choices(jdAreas[..i])
      invariant areas == Keys(areaCategories)
    {
      var prefix := jdAreas[..i + 1];
      assert prefix[..i] == jdAreas[..i];
      var (area, categories) := jdAreas[i];
      if area != ArchiveAreaName {
        ChoicesKeys(jdAreas[..i], area);
        assert !HasKey(jdAreas[..i], area) by {
          forall j | 0 <= j < i ensures jdAreas[..i][j].0 != area { assert jdAreas[..i][j] == jdAreas[j]; }
        }
      }
      if area == SystemAreaName {
        areas := areas + [area];
        areaCategories := Put(areaCategories, area, [UncategorizedName]);
      } else if area != ArchiveAreaName {
        areas := areas + [area];
        areaCategories := Put(areaCategories, area, Keys(categories));
      }
      i := i + 1;
    }
    assert jdAreas[..i] == jdAreas;
  }

  // ---------------------------------------------------------------- orphaned analyses

  const AnalysisSuffix: string := ".analysis.json"

  /** The document an analysis file belongs to: its name with every ".analysis.json" removed. */
  function DocName(name: string): string
  {
    Replace(name, AnalysisSuffix, "")
  }

  /** `(folder / doc).exists()`; an empty name is the folder itself, which exists. */
  predicate DocExists(entries: set<string>, doc: string)
  {
    doc == "" || doc in entries
  }

  /** The listed analysis files whose document does not exist, in listing order. */
  function Orphans(entries: set<string>, listing: seq<string>): (r: seq<string>)
    ensures forall n :: n in r <==> n in listing && !DocExists(entries, DocName(n))
    ensures Distinct(listing) ==> Distinct(r)
    decreases |listing|
  {
    if |listing| == 0 then []
    else
      var init, last := listing[..|listing| - 1], listing[|listing| - 1];
      LastSplit(listing);
      var before := Orphans(entries, init);
      assert Distinct(listing) ==> Distinct(init) && last !in init;
      before + (if DocExists(entries, DocName(last)) then [] else [last])
  }

  /** A folder: whether it exists and the names of its entries. */
  class Folder {
    var present: bool
    var entries: set<string>

    constructor (present: bool, entries: set<string>)
      ensures this.present == present && this.entries == entries
    {
      this.present := present;
      this.entries := entries;
    }
  }

  /** The elements of a list, as a set. */
  function Elements(s: seq<string>): (r: set<string>)
    ensures forall n :: n in r <==> n in s
  {
    set n | n in s
  }

  /** The first pass: the listed analysis files whose document is missing. */
  method FindOrphans(entries: set<string>, listing: seq<string>) returns (orphaned: seq<string>)
    ensures orphaned == Orphans(entries, listing)
  {
    orphaned := [];
    var i := 0;
    while i < |listing|
      invariant i <= |listing|
      invariant orphaned == Orphans(entries, listing[..i])
    {
      assert listing[..i + 1][..i] == listing[..i];
      var doc := DocName(listing[i]);
      if !(doc == "" || doc in entries) {
        orphaned := orphaned + [listing[i]];
      }
      i := i + 1;
    }
    assert listing[..i] == listing;
  }

  /** The second pass: each orphan is deleted and counted. */
  method DeleteAll(folder: Folder, orphaned: seq<string>) returns (deleted: nat)
    modifies folder
    ensures folder.present == old(folder.present)
    ensures deleted == |orphaned| && folder.entries == old(folder.entries) - Elements(orphaned)
  {
    deleted := 0;
    var j := 0;
    while j < |orphaned|
      invariant j <= |orphaned| && folder.present == old(folder.present)
      invariant deleted == j
      invariant folder.entries == old(folder.entries) - Elements(orphaned[..j])
    {
      assert Elements(orphaned[..j + 1]) == Elements(orphaned[..j]) + {orphaned[j]} by {
        assert orphaned[..j + 1] == orphaned[..j] + [orphaned[j]];
      }
      folder.entries := folder.entries - {orphaned[j]};
      deleted := deleted + 1;
      j := j + 1;
    }
    assert orphaned[..j] == orphaned;
  }

  /**
   * `cleanup_orphaned_analysis_files`: every analysis file of the folder (listed once each,
   * in `listing`) whose document does not exist is deleted, and the number deleted is
   * returned; a folder that does not exist is left as it is.
   */
  method CleanupOrphanedAnalysisFiles(folder: Folder, listing: seq<string>) returns (deleted: nat)
    requires Distinct(listing)
    requires forall n :: n in listing <==> n in folder.entries && EndsWith(n, AnalysisSuffix)
    modifies folder
    ensures folder.present == old(folder.present)
    ensures !old(folder.present) ==> deleted == 0 && folder.entries == old(folder.entries)
    ensures old(folder.present) ==>
      var orphans := Orphans(old(folder.entries), listing);
      deleted == |orphans| && folder.entries == old(folder.entries) - Elements(orphans)
  {
    if !folder.present {
      return 0;
    }
    if |listing| == 0 {
      return 0;
    }
    var orphaned := FindOrphans(folder.entries, listing);
    if |orphaned| == 0 {
      return 0;
    }
    deleted := DeleteAll(folder, orphaned);
  }

  /**
   * After the cleanup an entry remains exactly when it was there and is not an analysis
   * file whose document is missing; in particular an analysis file whose document
   * exists stays.
   */
  lemma CleanupKeeps(entries: set<string>, listing: seq<string>, n: string)
    requires forall m :: m in listing <==> m in entries && EndsWith(m, AnalysisSuffix)
    ensures n in entries - Elements(Orphans(entries, listing)) <==>
      n in entries && (!EndsWith(n, AnalysisSuffix) || DocExists(entries, DocName(n)))
  {
  }

  /** The count returned is the number of orphaned analysis files of the folder. */
  lemma {:induction false} CleanupCount(entries: set<string>, listing: seq<string>)
    requires Distinct(listing)
    ensures |Orphans(entries, listing)| == |Elements(Orphans(entries, listing))|
  {
    DistinctCard(Orphans(entries, listing));
  }

  lemma {:induction false} DistinctCard(s: seq<string>)
    requires Distinct(s)
    ensures |s| == |Elements(s)|
    decreases |s|
  {
    if |s| > 0 {
      var init := s[..|s| - 1];
      assert s == init + [s[|s| - 1]];
      DistinctCard(init);
      assert Elements(s) == Elements(init) + {s[|s| - 1]};
    }
  }
}
