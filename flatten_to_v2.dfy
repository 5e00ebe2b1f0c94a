/**
 * Migration of the older category/subcategory library into the flat
 * Johnny.Decimal layout: `Area/Category/{id} {issuer} {doc type} {year}.ext`.
 * Files with the same issuer and year in one category share one ID.
 */
module FlattenToV2 {
  import opened Base
  import opened Text
  import opened PathNames
  import opened LegacyMapping
  import opened JdIds

  /** `CATEGORY_MAPPING` of this script. */
  const FlattenMapping: Table := [
    (("financial", "bank_statements"), ("10-19 Finance", "11 Banking")),
    (("financial", "financial_statements"), ("10-19 Finance", "11 Banking")),
    (("financial", "tax_documents"), ("10-19 Finance", "12 Taxes")),
    (("financial", "insurance"), ("10-19 Finance", "13 Insurance")),
    (("financial", "receipts"), ("10-19 Finance", "14 Receipts")),
    (("financial", "invoices"), ("10-19 Finance", "16 Bills")),
    (("financial", "contracts"), ("30-39 Legal", "31 Contracts")),
    (("medical", "records"), ("20-29 Medical", "21 Records")),
    (("medical", "lab_results"), ("20-29 Medical", "21 Records")),
    (("medical", "appointments"), ("20-29 Medical", "21 Records")),
    (("medical", "insurance"), ("20-29 Medical", "22 Insurance")),
    (("medical", "prescriptions"), ("20-29 Medical", "23 Prescriptions")),
    (("legal", "contracts"), ("30-39 Legal", "31 Contracts")),
    (("legal", "agreements"), ("30-39 Legal", "31 Contracts")),
    (("legal", "property"), ("30-39 Legal", "32 Property")),
    (("legal", "correspondence"), ("30-39 Legal", "31 Contracts")),
    (("legal", "court"), ("30-39 Legal", "31 Contracts")),
    (("personal", "identification"), ("30-39 Legal", "33 Identity")),
    (("personal", "correspondence"), ("50-59 Personal", "54 Memberships")),
    (("personal", "certificates"), ("50-59 Personal", "53 Certificates")),
    (("work", "hr"), ("40-49 Work", "41 Employment")),
    (("work", "correspondence"), ("40-49 Work", "41 Employment")),
    (("work", "reports"), ("40-49 Work", "43 Projects")),
    (("work", "projects"), ("40-49 Work", "43 Projects")),
    (("work", "documentation"), ("40-49 Work", "43 Projects")),
    (("work", "contracts"), ("40-49 Work", "41 Employment")),
    (("education", "certificates"), ("50-59 Personal", "51 Education")),
    (("education", "assignments"), ("50-59 Personal", "51 Education")),
    (("education", "notes"), ("50-59 Personal", "51 Education")),
    (("education", "agreements"), ("50-59 Personal", "51 Education")),
    (("education", "transcripts"), ("50-59 Personal", "51 Education")),
    (("other", "miscellaneous"), ("50-59 Personal", "54 Memberships"))
  ]

  // ---------------------------------------------------------------------------
  // Naming helpers
  // ---------------------------------------------------------------------------

  /** `document_date or date_mentioned`, then `organized_date`, each cut to four characters; else the current year. */
  function FlatYear(metadata: Dict<Json>, currentYear: string): (r: string)
    ensures StrOrEmpty(metadata, "document_date") != "" ==> r == Take(StrOrEmpty(metadata, "document_date"), 4)
    ensures StrOrEmpty(metadata, "document_date") == "" && StrOrEmpty(metadata, "date_mentioned") != "" ==>
      r == Take(StrOrEmpty(metadata, "date_mentioned"), 4)
    ensures StrOrEmpty(metadata, "document_date") == "" && StrOrEmpty(metadata, "date_mentioned") == "" ==>
      r == (if StrOrEmpty(metadata, "organized_date") != "" then Take(StrOrEmpty(metadata, "organized_date"), 4) else currentYear)
    ensures r == currentYear || |r| <= 4
  {
    var dated := if StrOrEmpty(metadata, "document_date") != "" then StrOrEmpty(metadata, "document_date")
                 else StrOrEmpty(metadata, "date_mentioned");
    if dated != "" then Take(dated, 4)
    else
      var organized := StrOrEmpty(metadata, "organized_date");
      if organized != "" then Take(organized, 4) else currentYear
  }

  /** A stem of the form `YYYYMMDD_a_b`: eight digits, then at least one more part. */
  predicate DatedStem(parts: seq<string>)
  {
    |parts| > 1 && IsDigits(parts[0]) && |parts[0]| == 8
  }

  /** `extract_issuer_from_metadata`: the first entity, else the dated stem's remaining parts, else "". */
  function Issuer(metadata: Dict<Json>, filename: string): (r: string)
    ensures |StrList(metadata, "entities")| > 0 ==> r == StrList(metadata, "entities")[0]
    ensures |StrList(metadata, "entities")| == 0 && !DatedStem(Split(Stem(filename), "_")) ==> r == ""
  {
    var entities := StrList(metadata, "entities");
    if |entities| > 0 then entities[0]
    else
      var parts := Split(Stem(filename), "_");
      if DatedStem(parts) then Join(parts[1..], " ") else ""
  }

  /** The parts after the date are the issuer's words, with the underscores turned into spaces. */
  lemma IssuerFromStem(metadata: Dict<Json>, filename: string)
    requires |StrList(metadata, "entities")| == 0 && DatedStem(Split(Stem(filename), "_"))
    ensures Issuer(metadata, filename) == Replace(Stem(filename)[9..], "_", " ")
  {
    var stem := Stem(filename);
    var parts := Split(stem, "_");
    SplitFound(stem, "_");
    assert FindFrom(stem, "_", 0) == Some(8);
  }

  predicate IsPluralS(c: char) { c == 's' }

  /** `extract_doctype_from_metadata`: the explicit type, else the subcategory made singular and title-cased, else "Document". */
  function DocType(metadata: Dict<Json>): (r: string)
    ensures StrOrEmpty(metadata, "document_type") != "" ==> r == StrOrEmpty(metadata, "document_type")
    ensures StrOrEmpty(metadata, "document_type") == "" && StrOrEmpty(metadata, "subcategory") != "" ==>
      r == SubcategoryType(StrOrEmpty(metadata, "subcategory"))
    ensures StrOrEmpty(metadata, "document_type") == "" && StrOrEmpty(metadata, "subcategory") == "" ==> r == "Document"
    ensures |r| > 0
  {
    var docType := StrOrEmpty(metadata, "document_type");
    if docType != "" then docType
    else
      var sub := StrOrEmpty(metadata, "subcategory");
      if sub != "" then SubcategoryType(sub) else "Document"
  }

  /** `sub.replace("_", " ").title().rstrip("s")`: never empty, since the first character is not a lower-case `s`. */
  function SubcategoryType(sub: string): (r: string)
    requires sub != ""
    ensures 0 < |r| <= |sub|
    ensures r == Title(MapChar(sub, '_', ' '))[..|r|]
    ensures !IsPluralS(r[|r| - 1])
    ensures forall i :: |r| <= i < |sub| ==> IsPluralS(Title(MapChar(sub, '_', ' '))[i])
  {
    ReplaceChar(sub, '_', ' ');
    var titled := Title(Replace(sub, "_", " "));
    assert !IsPluralS(titled[0]);
    RStripBy(titled, IsPluralS)
  }

  predicate IsTrailingPunct(c: char) { c == '.' || c == ',' || c == ';' || c == ':' }

  /** No character that is unsafe in a file name. */
  predicate FilenameSafe(s: string)
  {
    '/' !in s && '\\' !in s && ':' !in s
  }

  /** `clean_for_filename`: strip, drop trailing punctuation, replace unsafe characters, collapse double spaces, truncate. */
  function CleanForFilename(text: string, maxLength: nat): (r: string)
    ensures text == "" ==> r == ""
    ensures |r| <= maxLength
    ensures FilenameSafe(r)
    ensures 0 < |r| < maxLength ==> !IsTrailingPunct(r[|r| - 1])
  {
    if text == "" then ""
    else
      var trimmed := RStripBy(Strip(text), IsTrailingPunct);
      var a := Replace(trimmed, "/", "_");
      var b := Replace(a, "\\", "_");
      var c := Replace(b, ":", "_");
      var collapsed := Replace(c, "  ", " ");
      CleanSafe(trimmed);
      ReplaceLacks(c, "  ", " ", '/');
      ReplaceLacks(c, "  ", " ", '\\');
      ReplaceLacks(c, "  ", " ", ':');
      CleanTail(trimmed);
      var r := Take(collapsed, maxLength);
      assert forall i :: 0 <= i < |r| ==> r[i] == collapsed[i];
      r
  }

  /** The replacements never end a cleaned name with punctuation that `rstrip` removed. */
  lemma CleanTail(t: string)
    requires |t| > 0 ==> !IsTrailingPunct(t[|t| - 1])
    ensures var c := Replace(Replace(Replace(Replace(t, "/", "_"), "\\", "_"), ":", "_"), "  ", " ");
      |c| > 0 ==> |t| > 0 && !IsTrailingPunct(c[|c| - 1])
  {
    ReplaceChar(t, '/', '_');
    var a := MapChar(t, '/', '_');
    ReplaceChar(a, '\\', '_');
    var b := MapChar(a, '\\', '_');
    ReplaceChar(b, ':', '_');
    var c := MapChar(b, ':', '_');
    if |t| > 0 {
      assert !IsTrailingPunct(c[|c| - 1]);
      ReplaceLast(c, "  ", " ");
    }
  }

  /** The three character replacements leave no unsafe character behind. */
  lemma CleanSafe(t: string)
    ensures FilenameSafe(Replace(Replace(Replace(t, "/", "_"), "\\", "_"), ":", "_"))
  {
    ReplaceChar(t, '/', '_');
    var a := MapChar(t, '/', '_');
    ReplaceChar(a, '\\', '_');
    var b := MapChar(a, '\\', '_');
    ReplaceChar(b, ':', '_');
    var c := MapChar(b, ':', '_');
    assert forall i :: 0 <= i < |c| ==> c[i] != '/' && c[i] != '\\' && c[i] != ':';
  }

  /** Cleaning changes nothing in a short, already clean name. */
  lemma CleanKeepsClean(text: string, maxLength: nat)
    requires |text| <= maxLength
    requires |text| > 0 && !IsWhitespace(text[0]) && !IsWhitespace(text[|text| - 1]) && !IsTrailingPunct(text[|text| - 1])
    requires FilenameSafe(text) && !Contains(text, "  ")
    ensures CleanForFilename(text, maxLength) == text
  {
    StripKeeps(text);
    assert !Contains(text, "/") by { NotContainsChar(text, '/'); }
    assert !Contains(text, "\\") by { NotContainsChar(text, '\\'); }
    assert !Contains(text, ":") by { NotContainsChar(text, ':'); }
    ReplaceAbsent(text, "/", "_");
    ReplaceAbsent(text, "\\", "_");
    ReplaceAbsent(text, ":", "_");
    ReplaceAbsent(text, "  ", " ");
  }

  lemma NotContainsChar(s: string, c: char)
    requires c !in s
    ensures !Contains(s, [c])
  {
    forall i | 0 <= i && i + 1 <= |s| ensures !OccursAt(s, [c], i) {
      assert s[i..i + 1] == [s[i]];
    }
  }

  /** The descriptor: cleaned issuer and doc type, each at most 30 characters, or "Document". */
  function Descriptor(issuer: string, docType: string): (r: string)
    ensures issuer == "" && docType == "" ==> r == "Document"
    ensures |r| <= 61
    ensures FilenameSafe(r)
  {
    var parts := (if issuer != "" then [CleanForFilename(issuer, 30)] else []) +
                 (if docType != "" then [CleanForFilename(docType, 30)] else []);
    if |parts| == 0 then "Document"
    else if |parts| == 1 then parts[0]
    else
      assert Join(parts, " ") == parts[0] + " " + parts[1];
      parts[0] + " " + parts[1]
  }

  /** `generate_flat_filename`: `"{id} {descriptor} {year}{ext}"`. */
  function FlatFilename(jdId: string, issuer: string, docType: string, year: string, ext: string): (r: string)
  {
    jdId + " " + (Descriptor(issuer, docType) + " " + year + ext)
  }

  /** The ID is the text before the first space, and the rest is the descriptor, the year and the extension. */
  lemma FlatFilenameParts(jdId: string, issuer: string, docType: string, year: string, ext: string)
    requires ' ' !in jdId
    ensures SplitOnce(FlatFilename(jdId, issuer, docType, year, ext), " ") ==
      [jdId, Descriptor(issuer, docType) + " " + year + ext]
  {
    SplitOnceHead(jdId, ' ', Descriptor(issuer, docType) + " " + year + ext);
  }

  // ---------------------------------------------------------------------------
  // ID allocation: `id_tracker`, one record per JD category
  // ---------------------------------------------------------------------------

  /** One `id_tracker[category]` record: the next number and the IDs already handed out, by issuer key. */
  datatype Tracker = Tracker(nextId: nat, issued: Dict<string>)

  type Trackers = map<string, Tracker>

  /** defaultdict read: a category not seen yet starts at 1 with nothing issued. */
  function TrackerOf(trackers: Trackers, category: string): Tracker
  {
    if category in trackers then trackers[category] else Tracker(1, [])
  }

  /** `cat_num`: the first word of the category, "09" for an empty one; a blank category raises IndexError. */
  function CatNum(category: string): (r: Outcome<string>)
    ensures category == "" ==> r == Returned("09")
    ensures r.Raised? <==> category != "" && forall i :: 0 <= i < |category| ==> IsWhitespace(category[i])
    ensures r.Returned? && category != "" ==> r.value == Words(category)[0]
  {
    if category == "" then Returned("09")
    else
      var words := Words(category);
      var t := LStrip(category);
      if |words| == 0 then
        assert |t| == 0;
        Raised("IndexError: list index out of range")
      else
        assert |t| > 0 && !IsWhitespace(category[|category| - |t|]);
        Returned(words[0])
  }

  /** The issuer key: `f"{issuer or 'Unknown'}_{year}"`. */
  function IssuerKey(issuer: string, year: string): string
  {
    (if issuer == "" then "Unknown" else issuer) + "_" + year
  }

  /**
   * A tracker for a category whose number is `catNum`: the k-th issued key got
   * `catNum.k` (k counted from 1), keys are unique, and the next number follows.
   */
  predicate TrackerValid(catNum: string, t: Tracker)
  {
    t.nextId == |t.issued| + 1 &&
    UniqueKeys(t.issued) &&
    forall i :: 0 <= i < |t.issued| ==> t.issued[i].1 == JdId(catNum, i + 1)
  }

  /** Every tracked category is valid for its own category number. */
  predicate TrackersValid(trackers: Trackers)
  {
    forall c :: c in trackers ==> CatNum(c).Returned? && TrackerValid(CatNum(c).value, trackers[c])
  }

  /** The lookup-or-assign step at flatten_to_v2.py:408-414, also creating the record as a defaultdict read does. */
  function Allocate(trackers: Trackers, category: string, catNum: string, key: string): (r: (string, Trackers))
    ensures r.1.Keys == trackers.Keys + {category}
    ensures forall c :: c in trackers && c != category ==> r.1[c] == trackers[c]
  {
    var t := TrackerOf(trackers, category);
    match Get(t.issued, key)
    case Some(id) => (id, trackers[category := t])
    case None =>
      var id := JdId(catNum, t.nextId);
      (id, trackers[category := Tracker(t.nextId + 1, Put(t.issued, key, id))])
  }

  /** A key seen before in the category gets the same ID back and changes nothing. */
  lemma AllocateStable(trackers: Trackers, category: string, catNum: string, key: string)
    requires HasKey(TrackerOf(trackers, category).issued, key)
    ensures Allocate(trackers, category, catNum, key).0 == Get(TrackerOf(trackers, category).issued, key).value
    ensures Allocate(trackers, category, catNum, key).1[category] == TrackerOf(trackers, category)
  {
  }

  /** A new key gets the next number, which then advances by one. */
  lemma AllocateFresh(trackers: Trackers, category: string, catNum: string, key: string)
    requires !HasKey(TrackerOf(trackers, category).issued, key)
    ensures var t := TrackerOf(trackers, category);
      var (id, after) := Allocate(trackers, category, catNum, key);
      id == JdId(catNum, t.nextId) && after[category].nextId == t.nextId + 1 &&
      Get(after[category].issued, key) == Some(id)
  {
    var t := TrackerOf(trackers, category);
    FindAppend(t.issued, key, JdId(catNum, t.nextId), key);
  }

  /** Allocation keeps every tracker valid. */
  lemma AllocateValid(trackers: Trackers, category: string, key: string)
    requires TrackersValid(trackers) && CatNum(category).Returned?
    ensures TrackersValid(Allocate(trackers, category, CatNum(category).value, key).1)
  {
    var catNum := CatNum(category).value;
    var t := TrackerOf(trackers, category);
    var after := Allocate(trackers, category, catNum, key).1;
    assert TrackerValid(catNum, t);
    TrackerStepValid(catNum, t, key);
    forall c | c in after ensures CatNum(c).Returned? && TrackerValid(CatNum(c).value, after[c]) {
      if c != category {
        assert after[c] == trackers[c];
      }
    }
  }

  /** One lookup-or-assign on a valid tracker gives a valid tracker. */
  lemma TrackerStepValid(catNum: string, t: Tracker, key: string)
    requires TrackerValid(catNum, t)
    ensures !HasKey(t.issued, key) ==>
      TrackerValid(catNum, Tracker(t.nextId + 1, Put(t.issued, key, JdId(catNum, t.nextId))))
  {
    if !HasKey(t.issued, key) {
      var id := JdId(catNum, t.nextId);
      var a := Put(t.issued, key, id);
      PutKeepsUnique(t.issued, key, id);
      assert a == t.issued + [(key, id)];
      forall i | 0 <= i < |a| ensures a[i].1 == JdId(catNum, i + 1) {
        if i < |t.issued| {
          assert a[i] == t.issued[i];
        }
      }
    }
  }

  /** In a valid tracker different keys hold different IDs, so two issuer/year pairs never share an ID. */
  lemma AssignedDistinct(catNum: string, t: Tracker, i: nat, j: nat)
    requires TrackerValid(catNum, t) && i < j < |t.issued|
    ensures t.issued[i].1 != t.issued[j].1
  {
    if t.issued[i].1 == t.issued[j].1 {
      JdIdInjective(catNum, i + 1, j + 1);
    }
  }

  // ---------------------------------------------------------------------------
  // Collision handling
  // ---------------------------------------------------------------------------

  /** The k-th name tried: the generated name, then `{stem}_{k}{ext}`. */
  function FlatCandidate(name: string, base: string, ext: string, k: nat): string
  {
    if k == 0 then name else base + "_" + NatStr(k) + ext
  }

  /**
   * The first free candidate among the generated name and suffixes 1 to 99;
   * the hundredth is taken without checking, as the safety limit breaks the loop.
   */
  function FlatFrom(taken: set<string>, name: string, base: string, ext: string, k: nat): string
    requires k <= 100
    decreases 100 - k
  {
    if k == 100 || FlatCandidate(name, base, ext, k) !in taken then
      FlatCandidate(name, base, ext, k)
    else
      FlatFrom(taken, name, base, ext, k + 1)
  }

  /** The chosen name is the first candidate from `k` on not taken, or the hundredth. */
  lemma {:induction false} FlatFromFirstFree(taken: set<string>, name: string, base: string, ext: string, k: nat)
    requires k <= 100
    ensures exists j :: (k <= j <= 100 && FlatFrom(taken, name, base, ext, k) == FlatCandidate(name, base, ext, j) &&
        (FlatCandidate(name, base, ext, j) !in taken || j == 100) &&
        forall i :: k <= i < j ==> FlatCandidate(name, base, ext, i) in taken)
    decreases 100 - k
  {
    if k == 100 || FlatCandidate(name, base, ext, k) !in taken {
      assert FlatFrom(taken, name, base, ext, k) == FlatCandidate(name, base, ext, k);
    } else {
      FlatFromFirstFree(taken, name, base, ext, k + 1);
      var j :| k + 1 <= j <= 100 && FlatFrom(taken, name, base, ext, k + 1) == FlatCandidate(name, base, ext, j) &&
        (FlatCandidate(name, base, ext, j) !in taken || j == 100) &&
        forall i :: k + 1 <= i < j ==> FlatCandidate(name, base, ext, i) in taken;
      assert FlatFrom(taken, name, base, ext, k) == FlatFrom(taken, name, base, ext, k + 1);
      assert forall i :: k <= i < j ==> FlatCandidate(name, base, ext, i) in taken;
    }
  }

  /** The counter loop of flatten_to_v2.py:424-432. */
  method FreeFlatName(taken: set<string>, name: string, base: string, ext: string) returns (r: string)
    ensures r == FlatFrom(taken, name, base, ext, 0)
  {
    r := name;
    var counter := 1;
    while r in taken
      invariant 1 <= counter <= 101
      invariant r == FlatCandidate(name, base, ext, counter - 1)
      invariant FlatFrom(taken, name, base, ext, 0) == FlatFrom(taken, name, base, ext, counter - 1)
      decreases 101 - counter
    {
      r := base + "_" + NatStr(counter) + ext;
      counter := counter + 1;
      if counter > 100 {
        break;
      }
    }
  }

  // ---------------------------------------------------------------------------
  // One pass: `migrate_to_flat`
  // ---------------------------------------------------------------------------

  /** One document found by the scan: its name, bytes, sidecar metadata and old folders. */
  datatype SourceFile = SourceFile(name: string, content: Bytes, metadata: Dict<Json>,
                                   oldCategory: string, oldSubcategory: string)

  /** What the destination tree holds under `(area, category, file name)`. */
  datatype Copied = CopiedDoc(content: Bytes) | CopiedMeta(metadata: Dict<Json>)

  type Tree = map<(string, string, string), Copied>

  /** The names already present in one category folder. */
  function NamesUnder(tree: Tree, area: string, category: string): set<string>
  {
    set p | p in tree && p.0 == area && p.1 == category :: p.2
  }

  /**
   * `categorize_with_ai` around its Claude call: nothing to send means no answer,
   * and an answer lacking `jd_area` or `jd_category` is rejected.
   */
  function AiCategorize(metadata: Dict<Json>, claude: Dict<Json> -> Option<Dict<Json>>): (r: Option<Dict<Json>>)
    ensures r.Some? ==> StrOrEmpty(r.value, "jd_area") != "" && StrOrEmpty(r.value, "jd_category") != ""
    ensures StrOrEmpty(metadata, "summary") == "" && StrOrEmpty(metadata, "extracted_text") == "" ==> r.None?
  {
    if StrOrEmpty(metadata, "summary") == "" && StrOrEmpty(metadata, "extracted_text") == "" then None
    else
      match claude(metadata)
      case None => None
      case Some(answer) =>
        if StrOrEmpty(answer, "jd_area") != "" && StrOrEmpty(answer, "jd_category") != "" then Some(answer) else None
  }

  /** Where one file goes and how it is named. */
  datatype Placement = Placement(area: string, category: string, issuer: string, docType: string, year: string,
                                 aiCategorized: bool, uncategorized: bool)

  /** The three branches of flatten_to_v2.py:366-400: AI answer, AI failure, static mapping. */
  function Place(f: SourceFile, useAi: bool, claude: Dict<Json> -> Option<Dict<Json>>, currentYear: string): (r: Placement)
    ensures r.uncategorized <==> useAi && !r.aiCategorized
    ensures r.uncategorized ==> r.area == "00-09 System" && r.category == "09 Uncategorized"
    ensures !useAi ==> (r.area, r.category) == JdMapping(FlattenMapping, f.oldCategory, f.oldSubcategory)
    ensures r.aiCategorized ==> useAi && r.area != "" && r.category != ""
  {
    var answer := if useAi && |f.metadata| > 0 then AiCategorize(f.metadata, claude) else None;
    match answer
    case Some(a) =>
      var dated := StrOrEmpty(a, "date_mentioned");
      Placement(StrOrEmpty(a, "jd_area"), StrOrEmpty(a, "jd_category"), StrOrEmpty(a, "issuer"),
                StrOrEmpty(a, "document_type"),
                if dated != "" then Take(dated, 4) else FlatYear(f.metadata, currentYear), true, false)
    case None =>
      if useAi then
        Placement("00-09 System", "09 Uncategorized", Issuer(f.metadata, f.name), DocType(f.metadata),
                  FlatYear(f.metadata, currentYear), false, true)
      else
        var (area, category) := JdMapping(FlattenMapping, f.oldCategory, f.oldSubcategory);
        Placement(area, category, Issuer(f.metadata, f.name), DocType(f.metadata),
                  FlatYear(f.metadata, currentYear), false, false)
  }

  /** `{**metadata, ...}` written next to the copied document. */
  function MigratedMetadata(f: SourceFile, p: Placement, jdId: string, target: string, now: string): Dict<Json>
  {
    Update(f.metadata, [
      ("id", JStr(jdId)), ("jd_area", JStr(p.area)), ("jd_category", JStr(p.category)),
      ("issuer", JStr(p.issuer)), ("document_type", JStr(p.docType)), ("current_filename", JStr(target)),
      ("original_filename", match Get(f.metadata, "original_filename") case Some(v) => v case None => JStr(f.name)),
      ("migrated_at", JStr(now)), ("old_category", JStr(f.oldCategory)), ("old_subcategory", JStr(f.oldSubcategory)),
      ("ai_categorized", JBool(p.aiCategorized))])
  }

  /** The loop state of `migrate_to_flat`. */
  datatype FlatState = FlatState(trackers: Trackers, tree: Tree, migrated: nat, uncategorized: nat)

  /** Everything one file's pass depends on besides the state. */
  datatype FlatConfig = FlatConfig(useAi: bool, dryRun: bool, claude: Dict<Json> -> Option<Dict<Json>>,
                                   currentYear: string, now: string)

  /** The destination name of one file, given the tree and the ID. */
  function FlatTarget(tree: Tree, p: Placement, f: SourceFile, jdId: string): string
  {
    var name := FlatFilename(jdId, p.issuer, p.docType, p.year, Suffix(f.name));
    FlatFrom(NamesUnder(tree, p.area, p.category), name, Stem(name), Suffix(f.name), 0)
  }

  /** The tree after copying one file and writing its metadata, unless this is a dry run. */
  function FlatCopy(tree: Tree, f: SourceFile, p: Placement, jdId: string, target: string, cfg: FlatConfig): Tree
  {
    if cfg.dryRun then tree
    else tree[(p.area, p.category, target) := CopiedDoc(f.content)]
             [(p.area, p.category, target + ".meta.json") := CopiedMeta(MigratedMetadata(f, p, jdId, target, cfg.now))]
  }

  /** One iteration of the loop; a blank category name raises before anything changes. */
  function FlatStep(st: FlatState, f: SourceFile, cfg: FlatConfig): Outcome<FlatState>
  {
    PlacedStep(st, f, Place(f, cfg.useAi, cfg.claude, cfg.currentYear), cfg)
  }

  /** The iteration once the file's placement is known. */
  function PlacedStep(st: FlatState, f: SourceFile, p: Placement, cfg: FlatConfig): Outcome<FlatState>
  {
    match CatNum(p.category)
    case Raised(e) => Raised(e)
    case Returned(catNum) => Returned(PlacedState(st, f, p, cfg, catNum))
  }

  /** The state after placing one file in a category numbered `catNum`. */
  function PlacedState(st: FlatState, f: SourceFile, p: Placement, cfg: FlatConfig, catNum: string): FlatState
  {
    var given := Allocate(st.trackers, p.category, catNum, IssuerKey(p.issuer, p.year));
    Placed(st, f, p, cfg, given, FlatTarget(st.tree, p, f, given.0))
  }

  /** The state once the ID and the trackers are `given` and the file is copied as `target`. */
  function Placed(st: FlatState, f: SourceFile, p: Placement, cfg: FlatConfig, given: (string, Trackers),
                  target: string): FlatState
  {
    FlatState(given.1, FlatCopy(st.tree, f, p, given.0, target, cfg), st.migrated + 1,
              st.uncategorized + if p.uncategorized then 1 else 0)
  }

  /** The state after a prefix of the files, and the exception that stopped the pass, if any. */
  datatype FlatRun = FlatRun(state: FlatState, raised: Option<string>)

  function FlatFold(files: seq<SourceFile>, tree: Tree, cfg: FlatConfig): FlatRun
    decreases |files|
  {
    if |files| == 0 then FlatRun(FlatState(map[], tree, 0, 0), None)
    else Advance(FlatFold(files[..|files| - 1], tree, cfg), files[|files| - 1], cfg)
  }

  /** One more file: nothing happens once an exception has escaped. */
  function Advance(prev: FlatRun, f: SourceFile, cfg: FlatConfig): FlatRun
  {
    if prev.raised.Some? then prev
    else
      match FlatStep(prev.state, f, cfg)
      case Raised(e) => FlatRun(prev.state, Some(e))
      case Returned(next) => FlatRun(next, None)
  }

  /** The counters `migrate_to_flat` returns. */
  datatype FlatCounts = FlatCounts(migrated: nat, errors: nat, uncategorized: nat)

  /** One iteration of the loop of flatten_to_v2.py:403-460, once the file is placed. */
  method MigrateOne(st: FlatState, f: SourceFile, p: Placement, cfg: FlatConfig) returns (r: Outcome<FlatState>)
    ensures r == PlacedStep(st, f, p, cfg)
  {
    var catNum := CatNum(p.category);
    if catNum.Raised? {
      return Raised(catNum.reason);
    }
    var given := Allocate(st.trackers, p.category, catNum.value, IssuerKey(p.issuer, p.year));
    var jdId := given.0;
    var name := FlatFilename(jdId, p.issuer, p.docType, p.year, Suffix(f.name));
    var target := FreeFlatName(NamesUnder(st.tree, p.area, p.category), name, Stem(name), Suffix(f.name));
    assert target == FlatTarget(st.tree, p, f, jdId);
    r := Returned(Placed(st, f, p, cfg, given, target));
  }

  /** `migrate_to_flat` over the scanned files; the tree is the destination folder. */
  method MigrateToFlat(files: seq<SourceFile>, tree: Tree, cfg: FlatConfig)
    returns (r: Outcome<FlatCounts>, after: Tree)
    ensures var run := FlatFold(files, tree, cfg);
      after == run.state.tree &&
      (run.raised.None? ==> r == Returned(FlatCounts(run.state.migrated, 0, run.state.uncategorized))) &&
      (run.raised.Some? ==> r == Raised(run.raised.value))
  {
    var st := FlatState(map[], tree, 0, 0);
    var i := 0;
    while i < |files|
      invariant 0 <= i <= |files|
      invariant FlatFold(files[..i], tree, cfg) == FlatRun(st, None)
    {
      FoldNext(files, tree, cfg, i);
      var p := Place(files[i], cfg.useAi, cfg.claude, cfg.currentYear);
      var next := MigrateOne(st, files[i], p, cfg);
      assert next == FlatStep(st, files[i], cfg);
      if next.Raised? {
        assert FlatFold(files[..i + 1], tree, cfg) == FlatRun(st, Some(next.reason));
        FoldStopped(files, tree, cfg, i + 1);
        return Raised(next.reason), st.tree;
      }
      st := next.value;
      i := i + 1;
    }
    assert files[..|files|] == files;
    r, after := Returned(FlatCounts(st.migrated, 0, st.uncategorized)), st.tree;
  }

  /** One more file extends the fold by one step. */
  lemma FoldNext(files: seq<SourceFile>, tree: Tree, cfg: FlatConfig, i: nat)
    requires i < |files|
    ensures FlatFold(files[..i + 1], tree, cfg) == Advance(FlatFold(files[..i], tree, cfg), files[i], cfg)
  {
    assert files[..i + 1][..i] == files[..i];
  }

  /** Once a prefix has raised, every longer prefix reports the same state and exception. */
  lemma {:induction false} FoldStopped(files: seq<SourceFile>, tree: Tree, cfg: FlatConfig, n: nat)
    requires 0 < n <= |files| && FlatFold(files[..n], tree, cfg).raised.Some?
    ensures FlatFold(files, tree, cfg) == FlatFold(files[..n], tree, cfg)
    decreases |files| - n
  {
    if n < |files| {
      assert files[..n + 1][..n] == files[..n];
      FoldStopped(files, tree, cfg, n + 1);
    } else {
      assert files[..n] == files;
    }
  }

  // ---------------------------------------------------------------------------
  // Properties of a pass
  // ---------------------------------------------------------------------------

  /** Whether a file lands in the uncategorized folder. */
  predicate Uncategorized(f: SourceFile, cfg: FlatConfig)
  {
    cfg.useAi && (|f.metadata| == 0 || AiCategorize(f.metadata, cfg.claude).None?)
  }

  function CountUncategorized(files: seq<SourceFile>, cfg: FlatConfig): nat
    decreases |files|
  {
    if |files| == 0 then 0
    else CountUncategorized(files[..|files| - 1], cfg) + if Uncategorized(files[|files| - 1], cfg) then 1 else 0
  }

  lemma PlaceUncategorized(f: SourceFile, cfg: FlatConfig)
    ensures Place(f, cfg.useAi, cfg.claude, cfg.currentYear).uncategorized <==> Uncategorized(f, cfg)
  {
  }

  /** A completed pass counts every file as migrated and counts exactly the files the AI could not place. */
  lemma {:induction false} FlatFoldCounts(files: seq<SourceFile>, tree: Tree, cfg: FlatConfig)
    requires FlatFold(files, tree, cfg).raised.None?
    ensures FlatFold(files, tree, cfg).state.migrated == |files|
    ensures FlatFold(files, tree, cfg).state.uncategorized == CountUncategorized(files, cfg)
    decreases |files|
  {
    if |files| > 0 {
      var init, last := files[..|files| - 1], files[|files| - 1];
      var prev := FlatFold(init, tree, cfg);
      assert FlatFold(files, tree, cfg) == Advance(prev, last, cfg);
      assert CountUncategorized(files, cfg) == CountUncategorized(init, cfg) + if Uncategorized(last, cfg) then 1 else 0;
      AdvanceCounts(prev, last, cfg);
      FlatFoldCounts(init, tree, cfg);
    }
  }

  /** A step that raises nothing counts one more file, and one more uncategorized file when it is one. */
  lemma AdvanceCounts(prev: FlatRun, f: SourceFile, cfg: FlatConfig)
    requires Advance(prev, f, cfg).raised.None?
    ensures prev.raised.None?
    ensures Advance(prev, f, cfg).state.migrated == prev.state.migrated + 1
    ensures Advance(prev, f, cfg).state.uncategorized ==
      prev.state.uncategorized + if Uncategorized(f, cfg) then 1 else 0
  {
    PlaceUncategorized(f, cfg);
  }

  /** A dry run leaves the destination as it was, even when it stops early. */
  lemma {:induction false} FlatFoldDryRun(files: seq<SourceFile>, tree: Tree, cfg: FlatConfig)
    requires cfg.dryRun
    ensures FlatFold(files, tree, cfg).state.tree == tree
    decreases |files|
  {
    if |files| > 0 {
      FlatFoldDryRun(files[..|files| - 1], tree, cfg);
    }
  }

  /** Every tracker built by a pass is valid: IDs `cat.01`, `cat.02`, ... in first-seen order, one per key. */
  lemma {:induction false} FlatFoldTrackersValid(files: seq<SourceFile>, tree: Tree, cfg: FlatConfig)
    ensures TrackersValid(FlatFold(files, tree, cfg).state.trackers)
    decreases |files|
  {
    if |files| > 0 {
      var prev := FlatFold(files[..|files| - 1], tree, cfg);
      FlatFoldTrackersValid(files[..|files| - 1], tree, cfg);
      if prev.raised.None? {
        var f := files[|files| - 1];
        var p := Place(f, cfg.useAi, cfg.claude, cfg.currentYear);
        if CatNum(p.category).Returned? {
          AllocateValid(prev.state.trackers, p.category, IssuerKey(p.issuer, p.year));
        }
      }
    }
  }

  /** The chosen name is free, unless the generated name and its first 99 variants are all taken. */
  lemma FlatFromFree(taken: set<string>, name: string, base: string, ext: string)
    ensures FlatFrom(taken, name, base, ext, 0) !in taken ||
      forall k :: 0 <= k < 100 ==> FlatCandidate(name, base, ext, k) in taken
  {
    var r := FlatFrom(taken, name, base, ext, 0);
    FlatFromFirstFree(taken, name, base, ext, 0);
    var j :| 0 <= j <= 100 && r == FlatCandidate(name, base, ext, j) && (r !in taken || j == 100) &&
      forall i :: 0 <= i < j ==> FlatCandidate(name, base, ext, i) in taken;
  }

  /**
   * Wherever a file is placed, its copy never replaces an existing file, unless the
   * generated name and its first 99 variants are all taken.
   */
  lemma FlatStepNoOverwrite(st: FlatState, f: SourceFile, p: Placement, cfg: FlatConfig)
    requires !cfg.dryRun && CatNum(p.category).Returned?
    ensures var jdId := Allocate(st.trackers, p.category, CatNum(p.category).value, IssuerKey(p.issuer, p.year)).0;
      var target := FlatTarget(st.tree, p, f, jdId);
      var name := FlatFilename(jdId, p.issuer, p.docType, p.year, Suffix(f.name));
      ((p.area, p.category, target) !in st.tree ||
       forall k :: 0 <= k < 100 ==> FlatCandidate(name, Stem(name), Suffix(f.name), k) in NamesUnder(st.tree, p.area, p.category)) &&
      PlacedState(st, f, p, cfg, CatNum(p.category).value).tree[(p.area, p.category, target)] == CopiedDoc(f.content)
  {
    var given := Allocate(st.trackers, p.category, CatNum(p.category).value, IssuerKey(p.issuer, p.year));
    var target := FlatTarget(st.tree, p, f, given.0);
    TargetFree(st.tree, p, f, given.0);
    CopyLands(st.tree, f, p, given.0, target, cfg);
    assert PlacedState(st, f, p, cfg, CatNum(p.category).value).tree == FlatCopy(st.tree, f, p, given.0, target, cfg);
  }

  /** The chosen target is free in its folder, unless the name and its first 99 variants are all taken. */
  lemma TargetFree(tree: Tree, p: Placement, f: SourceFile, jdId: string)
    ensures var name := FlatFilename(jdId, p.issuer, p.docType, p.year, Suffix(f.name));
      (p.area, p.category, FlatTarget(tree, p, f, jdId)) !in tree ||
      forall k :: 0 <= k < 100 ==> FlatCandidate(name, Stem(name), Suffix(f.name), k) in NamesUnder(tree, p.area, p.category)
  {
    var name := FlatFilename(jdId, p.issuer, p.docType, p.year, Suffix(f.name));
    var taken := NamesUnder(tree, p.area, p.category);
    var target := FlatTarget(tree, p, f, jdId);
    FlatFromFree(taken, name, Stem(name), Suffix(f.name));
    if (p.area, p.category, target) in tree {
      assert target in taken;
    }
  }

  /** Outside a dry run the copy holds the file's content at the target. */
  lemma CopyLands(tree: Tree, f: SourceFile, p: Placement, jdId: string, target: string, cfg: FlatConfig)
    requires !cfg.dryRun
    ensures FlatCopy(tree, f, p, jdId, target, cfg)[(p.area, p.category, target)] == CopiedDoc(f.content)
  {
    assert target != target + ".meta.json" by {
      assert |target + ".meta.json"| > |target|;
    }
  }

}
