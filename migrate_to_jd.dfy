/**
 * `migrate_to_jd.py`: the old category/subcategory folders regrouped into
 * Johnny.Decimal ID folders, one per (area, category, correspondent, year),
 * numbered per category in first-seen order, and the JDex index generated
 * from the copied files.
 */
module MigrateToJd {
  import opened Base
  import opened Text
  import opened PathNames
  import opened LegacyMapping
  import opened JdIds
  import opened StrOrder

  /** `CATEGORY_MAPPING` of migrate_to_jd.py, in source order. */
  const MigrateMapping: Table := [
    (("financial", "bank_statements"), ("10-19 Finance", "11 Banking")),
    (("financial", "financial_statements"), ("10-19 Finance", "11 Banking")),
    (("financial", "tax_documents"), ("10-19 Finance", "12 Taxes")),
    (("financial", "insurance"), ("10-19 Finance", "13 Insurance")),
    (("financial", "receipts"), ("10-19 Finance", "14 Receipts")),
    (("financial", "invoices"), ("10-19 Finance", "16 Bills")),
    (("financial", "contracts"), ("30-39 Legal", "31 Contracts")),
    (("medical", "records"), ("20-29 Medical", "21 Records")),
    (("medical", "lab_results"), ("20-29 Medical", "21 Records")),
    (("medical", "appointments"), ("20-29 Medical", "21 Records")),
    (("medical", "insurance"), ("20-29 Medical", "22 Insurance")),
    (("medical", "prescriptions"), ("20-29 Medical", "23 Prescriptions")),
    (("legal", "contracts"), ("30-39 Legal", "31 Contracts")),
    (("legal", "agreements"), ("30-39 Legal", "31 Contracts")),
    (("legal", "property"), ("30-39 Legal", "32 Property")),
    (("legal", "correspondence"), ("30-39 Legal", "31 Contracts")),
    (("legal", "court"), ("30-39 Legal", "31 Contracts")),
    (("personal", "identification"), ("30-39 Legal", "33 Identity")),
    (("personal", "correspondence"), ("50-59 Personal", "54 Memberships")),
    (("personal", "certificates"), ("50-59 Personal", "53 Certificates")),
    (("work", "hr"), ("40-49 Work", "41 Employment")),
    (("work", "correspondence"), ("40-49 Work", "41 Employment")),
    (("work", "reports"), ("40-49 Work", "43 Projects")),
    (("work", "projects"), ("40-49 Work", "43 Projects")),
    (("work", "documentation"), ("40-49 Work", "43 Projects")),
    (("education", "certificates"), ("50-59 Personal", "51 Education")),
    (("education", "assignments"), ("50-59 Personal", "51 Education")),
    (("education", "notes"), ("50-59 Personal", "51 Education")),
    (("education", "agreements"), ("50-59 Personal", "51 Education")),
    (("education", "transcripts"), ("50-59 Personal", "51 Education")),
    (("other", "miscellaneous"), ("50-59 Personal", "54 Memberships"))
  ]

  // ---------------------------------------------------------------------------
  // Naming helpers
  // ---------------------------------------------------------------------------

  /**
   * `extract_correspondent`: the first entity with spaces and slashes made underscores,
   * else the original file's stem without a leading all-digit part, else "Unknown";
   * each cut to 30 characters.
   */
  function Correspondent(metadata: Dict<Json>): (r: string)
    ensures |r| <= 30
    ensures |StrList(metadata, "entities")| == 0 && StrOrEmpty(metadata, "original_filename") == "" ==> r == "Unknown"
  {
    var entities := StrList(metadata, "entities");
    if |entities| > 0 then Take(EntityName(entities[0]), 30)
    else
      var original := StrOrEmpty(metadata, "original_filename");
      if original != "" then Take(StemName(Stem(BaseName(original))), 30)
      else "Unknown"
  }

  /** An entity with its spaces and slashes made underscores. */
  function EntityName(entity: string): string
  {
    Replace(Replace(entity, " ", "_"), "/", "_")
  }

  /** A stem without a leading all-digit part before its first underscore. */
  function StemName(stem: string): string
  {
    var parts := Split(stem, "_");
    if |parts| > 1 && IsDigits(parts[0]) then Join(parts[1..], "_") else stem
  }

  /** An entity becomes a correspondent without spaces or slashes. */
  lemma CorrespondentFromEntity(metadata: Dict<Json>)
    requires |StrList(metadata, "entities")| > 0
    ensures var e := StrList(metadata, "entities")[0];
      Correspondent(metadata) == Take(MapChar(MapChar(e, ' ', '_'), '/', '_'), 30)
    ensures ' ' !in Correspondent(metadata) && '/' !in Correspondent(metadata)
  {
    var e := StrList(metadata, "entities")[0];
    ReplaceChar(e, ' ', '_');
    ReplaceChar(MapChar(e, ' ', '_'), '/', '_');
  }

  /** A stem `digits_rest` gives `rest`, with its own underscores kept. */
  lemma CorrespondentFromStem(metadata: Dict<Json>, digits: string, rest: string)
    requires |StrList(metadata, "entities")| == 0
    requires Stem(BaseName(StrOrEmpty(metadata, "original_filename"))) == digits + "_" + rest
    requires IsDigits(digits)
    ensures Correspondent(metadata) == Take(rest, 30)
  {
    StemNameDigits(digits, rest);
  }

  /** A stem without a leading all-digit part is kept whole, cut to 30 characters. */
  lemma CorrespondentPlainStem(metadata: Dict<Json>)
    requires |StrList(metadata, "entities")| == 0
    requires StrOrEmpty(metadata, "original_filename") != ""
    requires var parts := Split(Stem(BaseName(StrOrEmpty(metadata, "original_filename"))), "_");
      !(|parts| > 1 && IsDigits(parts[0]))
    ensures Correspondent(metadata) == Take(Stem(BaseName(StrOrEmpty(metadata, "original_filename"))), 30)
  {
  }

  /** `digits_rest` loses its digit part, and only that. */
  lemma StemNameDigits(digits: string, rest: string)
    requires IsDigits(digits)
    ensures StemName(digits + "_" + rest) == rest
  {
    assert '_' !in digits by {
      forall j | 0 <= j < |digits| ensures digits[j] != '_' {
        assert IsDigit(digits[j]);
      }
    }
    SplitHead(digits, '_', rest);
    var parts := Split(digits + "_" + rest, "_");
    assert parts[1..] == Split(rest, "_");
    JoinSplit(rest, "_");
  }

  /** `extract_year`: `date_mentioned`, then `organized_date`, each cut to four characters; else the current year. */
  function ExtractYear(metadata: Dict<Json>, currentYear: string): (r: string)
    ensures StrOrEmpty(metadata, "date_mentioned") != "" ==> r == Take(StrOrEmpty(metadata, "date_mentioned"), 4)
    ensures StrOrEmpty(metadata, "date_mentioned") == "" && StrOrEmpty(metadata, "organized_date") != "" ==>
      r == Take(StrOrEmpty(metadata, "organized_date"), 4)
    ensures StrOrEmpty(metadata, "date_mentioned") == "" && StrOrEmpty(metadata, "organized_date") == "" ==> r == currentYear
    ensures r == currentYear || 0 < |r| <= 4
  {
    var dated := StrOrEmpty(metadata, "date_mentioned");
    if dated != "" then Take(dated, 4)
    else
      var organized := StrOrEmpty(metadata, "organized_date");
      if organized != "" then Take(organized, 4) else currentYear
  }

  /** `s.split()[0]`, which raises on a blank string. */
  function FirstWord(s: string): (r: Outcome<string>)
    ensures r.Raised? <==> |Words(s)| == 0
    ensures r.Returned? ==> r.value == Words(s)[0] && |r.value| > 0
  {
    var words := Words(s);
    if |words| == 0 then Raised("IndexError: list index out of range") else Returned(words[0])
  }

  // ---------------------------------------------------------------------------
  // Grouping: `grouped[(jd_area, jd_category, correspondent, year)].append(file_info)`
  // ---------------------------------------------------------------------------

  /** One scanned document: its file name, its sidecar's file name, its bytes and its metadata. */
  datatype Doc = Doc(name: string, metaName: string, content: Bytes, metadata: Dict<Json>)

  datatype GroupKey = GroupKey(area: string, category: string, correspondent: string, year: string)

  /** The group of one document: the mapped area and category, the correspondent and the year. */
  function KeyOf(d: Doc, currentYear: string): GroupKey
  {
    var md := d.metadata;
    var target := JdMapping(MigrateMapping, StrOr(md, "category", "other"), StrOr(md, "subcategory", "miscellaneous"));
    GroupKey(target.0, target.1, Correspondent(md), ExtractYear(md, currentYear))
  }

  /** The grouping key of a run whose current year is `currentYear`. */
  function GroupOf(currentYear: string): Doc -> GroupKey
  {
    d => KeyOf(d, currentYear)
  }

  function KeyList(docs: seq<Doc>, key: Doc -> GroupKey): (r: seq<GroupKey>)
    ensures |r| == |docs|
    ensures forall j :: 0 <= j < |docs| ==> r[j] == key(docs[j])
  {
    seq(|docs|, j requires 0 <= j < |docs| => key(docs[j]))
  }

  /** The documents whose key is `k`, in scan order. */
  function Members(docs: seq<Doc>, k: GroupKey, key: Doc -> GroupKey): (r: seq<Doc>)
    ensures forall x :: x in r ==> x in docs && key(x) == k
    decreases |docs|
  {
    if |docs| == 0 then []
    else
      var init, last := docs[..|docs| - 1], docs[|docs| - 1];
      Members(init, k, key) + (if key(last) == k then [last] else [])
  }

  lemma {:induction false} MembersNone(docs: seq<Doc>, k: GroupKey, key: Doc -> GroupKey)
    requires k !in KeyList(docs, key)
    ensures Members(docs, k, key) == []
    decreases |docs|
  {
    if |docs| > 0 {
      var init := docs[..|docs| - 1];
      assert KeyList(docs, key) == KeyList(init, key) + [key(docs[|docs| - 1])];
      MembersNone(init, k, key);
    }
  }

  lemma MembersSnoc(init: seq<Doc>, d: Doc, k: GroupKey, key: Doc -> GroupKey)
    ensures key(d) == k ==> Members(init + [d], k, key) == Members(init, k, key) + [d]
    ensures key(d) != k ==> Members(init + [d], k, key) == Members(init, k, key)
  {
    var docs := init + [d];
    assert docs[..|docs| - 1] == init;
    assert Members(init, k, key) + [] == Members(init, k, key);
  }

  /** The groups in order of insertion, each with its documents in scan order. */
  type Groups = seq<(GroupKey, seq<Doc>)>

  /** The position of the group for `k`, if it exists yet. */
  function FindGroup(groups: Groups, k: GroupKey): (r: Option<nat>)
    ensures r.Some? ==> r.value < |groups| && groups[r.value].0 == k
    ensures r.None? <==> forall i :: 0 <= i < |groups| ==> groups[i].0 != k
    decreases |groups|
  {
    if |groups| == 0 then None
    else if groups[0].0 == k then Some(0)
    else match FindGroup(groups[1..], k)
      case None => None
      case Some(i) => Some(i + 1)
  }

  /** `grouped[k].append(d)` on a defaultdict of lists. */
  function AddToGroup(groups: Groups, k: GroupKey, d: Doc): Groups
  {
    match FindGroup(groups, k)
    case Some(i) => groups[i := (k, groups[i].1 + [d])]
    case None => groups + [(k, [d])]
  }

  /** `grouped` after the loop at migrate_to_jd.py:223-233. */
  function Grouped(docs: seq<Doc>, key: Doc -> GroupKey): Groups
    decreases |docs|
  {
    if |docs| == 0 then []
    else
      var last := docs[|docs| - 1];
      AddToGroup(Grouped(docs[..|docs| - 1], key), key(last), last)
  }

  method GroupDocs(docs: seq<Doc>, key: Doc -> GroupKey) returns (groups: Groups)
    ensures groups == Grouped(docs, key)
  {
    groups := [];
    var i := 0;
    while i < |docs|
      invariant i <= |docs|
      invariant groups == Grouped(docs[..i], key)
    {
      assert docs[..i + 1][..i] == docs[..i];
      var k := key(docs[i]);
      var at := FindGroup(groups, k);
      if at.Some? {
        groups := groups[at.value := (k, groups[at.value].1 + [docs[i]])];
      } else {
        groups := groups + [(k, [docs[i]])];
      }
      i := i + 1;
    }
    assert docs[..|docs|] == docs;
  }

  /** `groups` holds, for each key of `ks` in order, the documents with that key. */
  predicate GroupsMatch(groups: Groups, ks: seq<GroupKey>, docs: seq<Doc>, key: Doc -> GroupKey)
  {
    |groups| == |ks| && forall i :: 0 <= i < |ks| ==> groups[i] == (ks[i], Members(docs, ks[i], key))
  }

  /**
   * The grouping is one group per distinct key, in order of first occurrence,
   * holding exactly the documents with that key in scan order.
   */
  lemma {:induction false} GroupedSpec(docs: seq<Doc>, key: Doc -> GroupKey)
    ensures GroupsMatch(Grouped(docs, key), FirstSeen(KeyList(docs, key)), docs, key)
    decreases |docs|
  {
    if |docs| > 0 {
      var init, d := docs[..|docs| - 1], docs[|docs| - 1];
      LastSplit(docs);
      GroupedSpec(init, key);
      var kl := KeyList(docs, key);
      assert kl == KeyList(init, key) + [key(d)];
      assert kl[..|kl| - 1] == KeyList(init, key);
      var ks := FirstSeen(KeyList(init, key));
      assert FirstSeen(kl) == if key(d) in ks then ks else ks + [key(d)];
      assert Grouped(docs, key) == AddToGroup(Grouped(init, key), key(d), d);
      AddStep(init, d, key);
    }
  }

  /** One more document keeps the grouping matched to the keys seen so far. */
  lemma AddStep(init: seq<Doc>, d: Doc, key: Doc -> GroupKey)
    requires GroupsMatch(Grouped(init, key), FirstSeen(KeyList(init, key)), init, key)
    ensures var ks := FirstSeen(KeyList(init, key));
      GroupsMatch(AddToGroup(Grouped(init, key), key(d), d),
                  if key(d) in ks then ks else ks + [key(d)], init + [d], key)
  {
    var k := key(d);
    var g := Grouped(init, key);
    var ks0 := FirstSeen(KeyList(init, key));
    match FindGroup(g, k)
    case Some(at) =>
      assert ks0[at] == k;
      AddExisting(g, ks0, init, d, key, at);
    case None =>
      assert k !in ks0;
      AddNew(g, ks0, init, d, key);
  }

  /** A document whose group exists joins the end of that group. */
  lemma AddExisting(g: Groups, ks: seq<GroupKey>, init: seq<Doc>, d: Doc, key: Doc -> GroupKey, at: nat)
    requires GroupsMatch(g, ks, init, key) && Distinct(ks) && at < |g| && g[at].0 == key(d)
    ensures GroupsMatch(g[at := (key(d), g[at].1 + [d])], ks, init + [d], key)
  {
    var r := g[at := (key(d), g[at].1 + [d])];
    forall i | 0 <= i < |ks| ensures r[i] == (ks[i], Members(init + [d], ks[i], key)) {
      MembersSnoc(init, d, ks[i], key);
      assert g[i] == (ks[i], Members(init, ks[i], key));
      assert ks[at] == key(d);
      if i != at {
        assert ks[i] != key(d);
        assert r[i] == g[i];
      }
    }
  }

  /** A document with a key not seen before opens a new group at the end. */
  lemma AddNew(g: Groups, ks: seq<GroupKey>, init: seq<Doc>, d: Doc, key: Doc -> GroupKey)
    requires GroupsMatch(g, ks, init, key) && key(d) !in ks && key(d) !in KeyList(init, key)
    ensures GroupsMatch(g + [(key(d), [d])], ks + [key(d)], init + [d], key)
  {
    var k := key(d);
    var r := g + [(k, [d])];
    var ks' := ks + [k];
    MembersNone(init, k, key);
    MembersSnoc(init, d, k, key);
    forall i | 0 <= i < |ks'| ensures r[i] == (ks'[i], Members(init + [d], ks'[i], key)) {
      if i < |ks| {
        assert ks'[i] == ks[i] != k;
        assert r[i] == g[i] == (ks[i], Members(init, ks[i], key));
        MembersSnoc(init, d, ks[i], key);
      } else {
        assert r[i] == (k, [d]) && ks'[i] == k;
        assert [] + [d] == [d];
      }
    }
  }


  /** Every document lands in the group of its own key. */
  lemma GroupedCovers(docs: seq<Doc>, key: Doc -> GroupKey, j: nat)
    requires j < |docs|
    ensures FindGroup(Grouped(docs, key), key(docs[j])).Some?
    ensures var g := Grouped(docs, key);
      docs[j] in g[FindGroup(g, key(docs[j])).value].1
  {
    GroupedSpec(docs, key);
    var g := Grouped(docs, key);
    var k := key(docs[j]);
    var ks := FirstSeen(KeyList(docs, key));
    assert k == KeyList(docs, key)[j];
    assert k in KeyList(docs, key);
    assert k in ks;
    var i :| 0 <= i < |ks| && ks[i] == k;
    assert g[i].0 == k;
    var at := FindGroup(g, k).value;
    assert g[at].1 == Members(docs, k, key);
    MemberOf(docs, j, key);
  }

  lemma {:induction false} MemberOf(docs: seq<Doc>, j: nat, key: Doc -> GroupKey)
    requires j < |docs|
    ensures docs[j] in Members(docs, key(docs[j]), key)
    decreases |docs|
  {
    if j < |docs| - 1 {
      var init := docs[..|docs| - 1];
      assert init[j] == docs[j];
      MemberOf(init, j, key);
    }
  }

  /** No two groups share a key. */
  predicate KeysDistinct(groups: Groups)
  {
    forall i, j :: 0 <= i < j < |groups| ==> groups[i].0 != groups[j].0
  }

  lemma GroupedKeysDistinct(docs: seq<Doc>, key: Doc -> GroupKey)
    ensures KeysDistinct(Grouped(docs, key))
  {
    GroupedSpec(docs, key);
    var g := Grouped(docs, key);
    var ks := FirstSeen(KeyList(docs, key));
    assert forall i :: 0 <= i < |g| ==> g[i].0 == ks[i];
  }

  /** The number of documents over all groups. */
  function Total(groups: Groups): nat
    decreases |groups|
  {
    if |groups| == 0 then 0 else Total(groups[..|groups| - 1]) + |groups[|groups| - 1].1|
  }

  lemma {:induction false} TotalUpdate(groups: Groups, i: nat, x: (GroupKey, seq<Doc>))
    requires i < |groups|
    ensures Total(groups[i := x]) + |groups[i].1| == Total(groups) + |x.1|
    decreases |groups|
  {
    var n := |groups|;
    var u := groups[i := x];
    if i == n - 1 {
      assert u[..n - 1] == groups[..n - 1];
    } else {
      assert u[..n - 1] == groups[..n - 1][i := x];
      TotalUpdate(groups[..n - 1], i, x);
    }
  }

  /** Grouping neither loses nor duplicates a document. */
  lemma {:induction false} GroupedTotal(docs: seq<Doc>, key: Doc -> GroupKey)
    ensures Total(Grouped(docs, key)) == |docs|
    decreases |docs|
  {
    if |docs| > 0 {
      var init, d := docs[..|docs| - 1], docs[|docs| - 1];
      var g := Grouped(init, key);
      var k := key(d);
      GroupedTotal(init, key);
      match FindGroup(g, k)
      case Some(at) =>
        TotalUpdate(g, at, (k, g[at].1 + [d]));
      case None =>
        assert (g + [(k, [d])])[..|g|] == g;
    }
  }

  // ---------------------------------------------------------------------------
  // ID assignment: `id_tracker[jd_category][f"{correspondent}_{year}"] += 1`
  // ---------------------------------------------------------------------------

  /** `id_tracker`: per JD category, a count for every correspondent/year key, in insertion order. */
  type IdTracker = map<string, Dict<nat>>

  /** `f"{correspondent}_{year}"` */
  function IdKey(k: GroupKey): string
  {
    k.correspondent + "_" + k.year
  }

  /** The counts of a category; a defaultdict read gives an empty one. */
  function CountsOf(tracker: IdTracker, category: string): Dict<nat>
  {
    if category in tracker then tracker[category] else []
  }

  /** `id_tracker[category][key] += 1` */
  function Bump(tracker: IdTracker, category: string, key: string): (r: IdTracker)
    ensures forall c :: c != category ==> CountsOf(r, c) == CountsOf(tracker, c)
    ensures forall k :: HasKey(CountsOf(r, category), k) <==> k == key || HasKey(CountsOf(tracker, category), k)
    ensures |CountsOf(r, category)| == |CountsOf(tracker, category)| + if HasKey(CountsOf(tracker, category), key) then 0 else 1
  {
    var counts := CountsOf(tracker, category);
    var n: nat := match Get(counts, key) case Some(v) => v case None => 0;
    var after := Put(counts, key, n + 1);
    forall k ensures HasKey(after, k) <==> k == key || HasKey(counts, k) {
      assert HasKey(after, k) <==> Get(after, k).Some?;
      assert HasKey(counts, k) <==> Get(counts, k).Some?;
    }
    tracker[category := after]
  }

  /**
   * `cat_num = jd_category.split()[0]` (IndexError on a blank category), then the key
   * counted and the ID `f"{cat_num}.{len(id_tracker[jd_category]):02d}"`.
   */
  function AssignId(tracker: IdTracker, k: GroupKey): (r: Outcome<(string, IdTracker)>)
    ensures r.Raised? <==> |Words(k.category)| == 0
    ensures r.Returned? ==>
      r.value.1 == Bump(tracker, k.category, IdKey(k)) &&
      r.value.0 == JdId(Words(k.category)[0], |CountsOf(r.value.1, k.category)|)
  {
    match FirstWord(k.category)
    case Raised(e) => Raised(e)
    case Returned(catNum) =>
      var after := Bump(tracker, k.category, IdKey(k));
      Returned((JdId(catNum, |CountsOf(after, k.category)|), after))
  }

  // ---------------------------------------------------------------------------
  // Copying one group
  // ---------------------------------------------------------------------------

  /** One `index_entries` record. */
  datatype IndexEntry = IndexEntry(id: string, area: string, category: string, correspondent: string, year: string,
                                   filename: string, summary: string, tags: Json, dateMentioned: Option<Json>)

  /** A file below the destination directory. */
  datatype Written = DocCopy(content: Bytes) | MetaCopy(metadata: Dict<Json>) | IndexText(text: string)

  /** A file's place below the destination directory. */
  datatype Loc =
    | InIdFolder(area: string, category: string, folder: string, name: string)  // {area}/{category}/{folder}/{name}
    | InCategory(area: string, category: string, name: string)                  // {area}/{category}/{name}

  /** The destination directory: its files by place. */
  type Tree = map<Loc, Written>

  /** The state `migrate_files` builds up: `id_tracker`, the destination, `index_entries` and `migrated`. */
  datatype JdState = JdState(tracker: IdTracker, tree: Tree, entries: seq<IndexEntry>, migrated: nat)

  /** The fields written over the document's metadata. */
  function JdFields(jdId: string, k: GroupKey, filename: string): Dict<Json>
  {
    [("id", JStr(jdId)), ("jd_area", JStr(k.area)), ("jd_category", JStr(k.category)),
     ("correspondent", JStr(k.correspondent)), ("current_filename", JStr(filename))]
  }

  /** The five JD fields have distinct names. */
  lemma JdFieldsUnique(jdId: string, k: GroupKey, filename: string)
    ensures UniqueKeys(JdFields(jdId, k, filename))
  {
  }

  /** `{**metadata, "id": ..., "jd_area": ..., "jd_category": ..., "correspondent": ..., "current_filename": ...}` */
  function UpdatedMetadata(metadata: Dict<Json>, jdId: string, k: GroupKey, filename: string): Dict<Json>
  {
    Update(metadata, JdFields(jdId, k, filename))
  }

  /** The updated metadata has the five JD fields and keeps every other field of the original. */
  lemma UpdatedMetadataFields(metadata: Dict<Json>, jdId: string, k: GroupKey, filename: string)
    ensures var r := UpdatedMetadata(metadata, jdId, k, filename);
      Get(r, "id") == Some(JStr(jdId)) && Get(r, "jd_area") == Some(JStr(k.area)) &&
      Get(r, "jd_category") == Some(JStr(k.category)) && Get(r, "correspondent") == Some(JStr(k.correspondent)) &&
      Get(r, "current_filename") == Some(JStr(filename))
    ensures var r := UpdatedMetadata(metadata, jdId, k, filename);
      forall key ::
        key != "id" && key != "jd_area" && key != "jd_category" && key != "correspondent" && key != "current_filename" ==>
          Get(r, key) == Get(metadata, key)
  {
    var e := JdFields(jdId, k, filename);
    FindAt(e, "id", 0);
    FindAt(e, "jd_area", 1);
    FindAt(e, "jd_category", 2);
    FindAt(e, "correspondent", 3);
    FindAt(e, "current_filename", 4);
    forall key | key != "id" && key != "jd_area" && key != "jd_category" && key != "correspondent" &&
      key != "current_filename"
      ensures !HasKey(e, key)
    {
    }
  }

  /** The index record of one copied document. */
  function EntryOf(k: GroupKey, jdId: string, d: Doc): IndexEntry
  {
    var tags := match Get(d.metadata, "tags") case Some(t) => t case None => JArr([]);
    IndexEntry(jdId, k.area, k.category, k.correspondent, k.year, d.name, StrOrEmpty(d.metadata, "summary"),
               tags, Get(d.metadata, "date_mentioned"))
  }

  /** The file `name` in the ID folder `{area}/{category}/{jd_id} {correspondent} {year}`. */
  function IdFolderFile(k: GroupKey, jdId: string, name: string): Loc
  {
    InIdFolder(k.area, k.category, IdFolderName(jdId, k.correspondent, k.year), name)
  }

  /** The document and its updated metadata copied into the ID folder, unless in a dry run. */
  function CopyTree(tree: Tree, k: GroupKey, jdId: string, d: Doc, dryRun: bool): Tree
  {
    if dryRun then tree
    else
      tree[IdFolderFile(k, jdId, d.name) := DocCopy(d.content)]
          [IdFolderFile(k, jdId, d.metaName) := MetaCopy(UpdatedMetadata(d.metadata, jdId, k, d.name))]
  }

  /** One pass of the inner loop (migrate_to_jd.py:259-300). */
  function CopyDoc(st: JdState, k: GroupKey, jdId: string, d: Doc, dryRun: bool): JdState
  {
    JdState(st.tracker, CopyTree(st.tree, k, jdId, d, dryRun), st.entries + [EntryOf(k, jdId, d)], st.migrated + 1)
  }

  /** The inner loop over a group's files. */
  function CopyDocs(st: JdState, k: GroupKey, jdId: string, docs: seq<Doc>, dryRun: bool): JdState
    decreases |docs|
  {
    if |docs| == 0 then st
    else CopyDoc(CopyDocs(st, k, jdId, docs[..|docs| - 1], dryRun), k, jdId, docs[|docs| - 1], dryRun)
  }

  method CopyGroup(st: JdState, k: GroupKey, jdId: string, docs: seq<Doc>, dryRun: bool) returns (r: JdState)
    ensures r == CopyDocs(st, k, jdId, docs, dryRun)
  {
    r := st;
    var i := 0;
    while i < |docs|
      invariant i <= |docs|
      invariant r == CopyDocs(st, k, jdId, docs[..i], dryRun)
    {
      CopyDocsNext(st, k, jdId, docs, dryRun, i);
      r := CopyDoc(r, k, jdId, docs[i], dryRun);
      i := i + 1;
    }
    assert docs[..|docs|] == docs;
  }

  lemma CopyDocsNext(st: JdState, k: GroupKey, jdId: string, docs: seq<Doc>, dryRun: bool, i: nat)
    requires i < |docs|
    ensures CopyDocs(st, k, jdId, docs[..i + 1], dryRun) == CopyDoc(CopyDocs(st, k, jdId, docs[..i], dryRun), k, jdId, docs[i], dryRun)
  {
    assert docs[..i + 1][..i] == docs[..i];
  }

  /** The index records of a group's documents, in order. */
  function GroupEntries(k: GroupKey, jdId: string, docs: seq<Doc>): (r: seq<IndexEntry>)
    ensures |r| == |docs|
    decreases |docs|
  {
    if |docs| == 0 then []
    else GroupEntries(k, jdId, docs[..|docs| - 1]) + [EntryOf(k, jdId, docs[|docs| - 1])]
  }

  /** The i-th record is the i-th document's. */
  lemma {:induction false} GroupEntriesAt(k: GroupKey, jdId: string, docs: seq<Doc>, i: nat)
    requires i < |docs|
    ensures GroupEntries(k, jdId, docs)[i] == EntryOf(k, jdId, docs[i])
    decreases |docs|
  {
    if i < |docs| - 1 {
      var init := docs[..|docs| - 1];
      GroupEntriesAt(k, jdId, init, i);
      assert init[i] == docs[i];
    }
  }

  /** Copying a group appends one index record per document, all with the group's ID and key, and counts each. */
  lemma {:induction false} CopyDocsEntries(st: JdState, k: GroupKey, jdId: string, docs: seq<Doc>, dryRun: bool)
    ensures var r := CopyDocs(st, k, jdId, docs, dryRun);
      r.tracker == st.tracker && r.migrated == st.migrated + |docs| &&
      r.entries == st.entries + GroupEntries(k, jdId, docs)
    decreases |docs|
  {
    if |docs| > 0 {
      var init := docs[..|docs| - 1];
      CopyDocsEntries(st, k, jdId, init, dryRun);
      var e := EntryOf(k, jdId, docs[|docs| - 1]);
      Associative(st.entries, GroupEntries(k, jdId, init), [e]);
    }
  }

  /** A dry run copies nothing. */
  lemma {:induction false} CopyDocsDryRun(st: JdState, k: GroupKey, jdId: string, docs: seq<Doc>)
    ensures CopyDocs(st, k, jdId, docs, true).tree == st.tree
    decreases |docs|
  {
    if |docs| > 0 {
      CopyDocsDryRun(st, k, jdId, docs[..|docs| - 1]);
    }
  }

  /** Outside a dry run a copied document and its updated sidecar are in its ID folder. */
  lemma CopyDocWrites(st: JdState, k: GroupKey, jdId: string, d: Doc)
    ensures var t := CopyDoc(st, k, jdId, d, false).tree;
      var doc, meta := IdFolderFile(k, jdId, d.name), IdFolderFile(k, jdId, d.metaName);
      t[meta] == MetaCopy(UpdatedMetadata(d.metadata, jdId, k, d.name)) &&
      (d.name != d.metaName ==> t[doc] == DocCopy(d.content)) &&
      forall p :: p in st.tree && p != doc && p != meta ==> p in t && t[p] == st.tree[p]
  {
    var doc, meta := IdFolderFile(k, jdId, d.name), IdFolderFile(k, jdId, d.metaName);
    TwoWrites(st.tree, doc, DocCopy(d.content), meta, MetaCopy(UpdatedMetadata(d.metadata, jdId, k, d.name)));
  }

  /** Two writes to a map: the second one wins, the first survives at a different key, and the rest is kept. */
  lemma TwoWrites<K, V>(m: map<K, V>, a: K, x: V, b: K, y: V)
    ensures var t := m[a := x][b := y];
      b in t && t[b] == y && (a != b ==> a in t && t[a] == x) &&
      forall p :: p in m && p != a && p != b ==> p in t && t[p] == m[p]
  {
  }

  // ---------------------------------------------------------------------------
  // The group loop and `migrate_files`
  // ---------------------------------------------------------------------------

  /** One pass of the group loop (migrate_to_jd.py:235-303). */
  function GroupStep(st: JdState, g: (GroupKey, seq<Doc>), dryRun: bool): Outcome<JdState>
  {
    match AssignId(st.tracker, g.0)
    case Raised(e) => Raised(e)
    case Returned(given) =>
      Returned(CopyDocs(JdState(given.1, st.tree, st.entries, st.migrated), g.0, given.0, g.1, dryRun))
  }

  /** The state after some groups, and the exception that stopped the loop, if any. */
  datatype JdRun = JdRun(state: JdState, raised: Option<string>)

  function GroupsFold(groups: Groups, tree: Tree, dryRun: bool): JdRun
    decreases |groups|
  {
    if |groups| == 0 then JdRun(JdState(map[], tree, [], 0), None)
    else JdAdvance(GroupsFold(groups[..|groups| - 1], tree, dryRun), groups[|groups| - 1], dryRun)
  }

  function JdAdvance(prev: JdRun, g: (GroupKey, seq<Doc>), dryRun: bool): JdRun
  {
    if prev.raised.Some? then prev
    else match GroupStep(prev.state, g, dryRun)
      case Raised(e) => JdRun(prev.state, Some(e))
      case Returned(next) => JdRun(next, None)
  }

  /** `migrate_files`' result: `migrated`, `errors` and `index_entries`. */
  datatype MigrateResult = MigrateResult(migrated: nat, errors: nat, indexEntries: seq<IndexEntry>)

  /**
   * `migrate_files` over the scanned documents, grouped by `key`, with the destination
   * before and after (`GroupOf(currentYear)` is the key the script uses).
   */
  function Migrate(docs: seq<Doc>, tree: Tree, dryRun: bool, key: Doc -> GroupKey): (Outcome<MigrateResult>, Tree)
  {
    if |docs| == 0 then (Returned(MigrateResult(0, 0, [])), tree)
    else
      var run := GroupsFold(Grouped(docs, key), tree, dryRun);
      match run.raised
      case Some(e) => (Raised(e), run.state.tree)
      case None => (Returned(MigrateResult(run.state.migrated, 0, run.state.entries)), run.state.tree)
  }

  lemma GroupsFoldNext(groups: Groups, tree: Tree, dryRun: bool, i: nat)
    requires i < |groups|
    ensures GroupsFold(groups[..i + 1], tree, dryRun) == JdAdvance(GroupsFold(groups[..i], tree, dryRun), groups[i], dryRun)
  {
    assert groups[..i + 1][..i] == groups[..i];
  }

  lemma {:induction false} GroupsFoldStopped(groups: Groups, tree: Tree, dryRun: bool, n: nat)
    requires n <= |groups| && GroupsFold(groups[..n], tree, dryRun).raised.Some?
    ensures GroupsFold(groups, tree, dryRun) == GroupsFold(groups[..n], tree, dryRun)
    decreases |groups| - n
  {
    if n < |groups| {
      GroupsFoldNext(groups, tree, dryRun, n);
      GroupsFoldStopped(groups, tree, dryRun, n + 1);
    } else {
      assert groups[..n] == groups;
    }
  }

  /** One pass of the group loop: the ID assigned, then the group's files copied. */
  method ProcessGroup(st: JdState, g: (GroupKey, seq<Doc>), dryRun: bool) returns (r: Outcome<JdState>)
    ensures r == GroupStep(st, g, dryRun)
  {
    var k := g.0;
    var catNum := FirstWord(k.category);
    if catNum.Raised? {
      return Raised(catNum.reason);
    }
    var tracker := Bump(st.tracker, k.category, IdKey(k));
    var jdId := JdId(catNum.value, |CountsOf(tracker, k.category)|);
    var copied := CopyGroup(JdState(tracker, st.tree, st.entries, st.migrated), k, jdId, g.1, dryRun);
    r := Returned(copied);
  }

  /** One pass of the group loop on a run that has not stopped. */
  method AdvanceRun(st: JdState, g: (GroupKey, seq<Doc>), dryRun: bool) returns (run: JdRun)
    ensures run == JdAdvance(JdRun(st, None), g, dryRun)
  {
    var next := ProcessGroup(st, g, dryRun);
    if next.Raised? {
      run := JdRun(st, Some(next.reason));
    } else {
      run := JdRun(next.value, None);
    }
  }

  /** The group loop's step from the run after `groups[..i]` to the run after `groups[..i + 1]`. */
  method NextGroup(groups: Groups, tree: Tree, dryRun: bool, i: nat, prev: JdRun) returns (run: JdRun)
    requires i < |groups| && prev == GroupsFold(groups[..i], tree, dryRun) && prev.raised.None?
    ensures run == GroupsFold(groups[..i + 1], tree, dryRun)
  {
    GroupsFoldNext(groups, tree, dryRun, i);
    assert prev == JdRun(prev.state, None);
    run := AdvanceRun(prev.state, groups[i], dryRun);
  }

  /** The loop of `migrate_files` over the groups, left at the first exception. */
  method RunGroups(groups: Groups, tree: Tree, dryRun: bool) returns (run: JdRun)
    ensures run == GroupsFold(groups, tree, dryRun)
  {
    run := JdRun(JdState(map[], tree, [], 0), None);
    var i := 0;
    while i < |groups| && run.raised.None?
      invariant i <= |groups|
      invariant run == GroupsFold(groups[..i], tree, dryRun)
    {
      run := NextGroup(groups, tree, dryRun, i, run);
      i := i + 1;
    }
    if i < |groups| {
      GroupsFoldStopped(groups, tree, dryRun, i);
    } else {
      assert groups[..i] == groups;
    }
  }

  method MigrateFiles(docs: seq<Doc>, tree: Tree, dryRun: bool, currentYear: string)
    returns (r: Outcome<MigrateResult>, after: Tree)
    ensures (r, after) == Migrate(docs, tree, dryRun, GroupOf(currentYear))
  {
    if |docs| == 0 {
      return Returned(MigrateResult(0, 0, [])), tree;
    }
    var groups := GroupDocs(docs, GroupOf(currentYear));
    var run := RunGroups(groups, tree, dryRun);
    if run.raised.Some? {
      r := Raised(run.raised.value);
    } else {
      r := Returned(MigrateResult(run.state.migrated, 0, run.state.entries));
    }
    after := run.state.tree;
  }

  // ---------------------------------------------------------------------------
  // What `migrate_files` promises
  // ---------------------------------------------------------------------------

  /** Every document of every group processed is counted and indexed once. */
  lemma {:induction false} GroupsFoldCounts(groups: Groups, tree: Tree, dryRun: bool)
    ensures var run := GroupsFold(groups, tree, dryRun);
      run.raised.None? ==> run.state.migrated == Total(groups) && |run.state.entries| == Total(groups)
    decreases |groups|
  {
    if |groups| > 0 {
      var init, g := groups[..|groups| - 1], groups[|groups| - 1];
      GroupsFoldCounts(init, tree, dryRun);
      var prev := GroupsFold(init, tree, dryRun);
      if prev.raised.None? {
        match AssignId(prev.state.tracker, g.0)
        case Raised(_) =>
        case Returned(given) =>
          CopyDocsEntries(JdState(given.1, prev.state.tree, prev.state.entries, prev.state.migrated), g.0, given.0, g.1, dryRun);
      }
    }
  }

  /** A dry run leaves the destination as it was. */
  lemma {:induction false} GroupsFoldDryRun(groups: Groups, tree: Tree)
    ensures GroupsFold(groups, tree, true).state.tree == tree
    decreases |groups|
  {
    if |groups| > 0 {
      var init, g := groups[..|groups| - 1], groups[|groups| - 1];
      GroupsFoldDryRun(init, tree);
      var prev := GroupsFold(init, tree, true);
      if prev.raised.None? {
        match AssignId(prev.state.tracker, g.0)
        case Raised(_) =>
        case Returned(given) =>
          CopyDocsDryRun(JdState(given.1, prev.state.tree, prev.state.entries, prev.state.migrated), g.0, given.0, g.1);
      }
    }
  }

  /** A completed migration counts and indexes every scanned document, with no errors, dry run or not. */
  lemma MigrateCountsAll(docs: seq<Doc>, tree: Tree, dryRun: bool, key: Doc -> GroupKey)
    ensures var (r, _) := Migrate(docs, tree, dryRun, key);
      r.Returned? ==> r.value.migrated == |docs| && |r.value.indexEntries| == |docs| && r.value.errors == 0
  {
    GroupedTotal(docs, key);
    GroupsFoldCounts(Grouped(docs, key), tree, dryRun);
  }

  /** In a dry run nothing is written. */
  lemma MigrateDryRun(docs: seq<Doc>, tree: Tree, key: Doc -> GroupKey)
    ensures Migrate(docs, tree, true, key).1 == tree
  {
    GroupsFoldDryRun(Grouped(docs, key), tree);
  }

  /** The group an index record was made for. */
  function EntryKey(e: IndexEntry): GroupKey
  {
    GroupKey(e.area, e.category, e.correspondent, e.year)
  }

  /** Records made for the same (area, category, correspondent, year) carry the same ID. */
  predicate SameKeySameId(entries: seq<IndexEntry>)
  {
    forall i, j :: 0 <= i < |entries| && 0 <= j < |entries| && EntryKey(entries[i]) == EntryKey(entries[j]) ==>
      entries[i].id == entries[j].id
  }

  /** Every record was made for one of the keys `ks`. */
  predicate KeyedBy(entries: seq<IndexEntry>, ks: set<GroupKey>)
  {
    forall i :: 0 <= i < |entries| ==> EntryKey(entries[i]) in ks
  }

  function GroupKeySet(groups: Groups): set<GroupKey>
  {
    set i | 0 <= i < |groups| :: groups[i].0
  }

  /** Appending a new group's records keeps one ID per key. */
  lemma SameIdStep(entries: seq<IndexEntry>, ks: set<GroupKey>, k: GroupKey, jdId: string, docs: seq<Doc>)
    requires SameKeySameId(entries) && KeyedBy(entries, ks) && k !in ks
    ensures SameKeySameId(entries + GroupEntries(k, jdId, docs))
    ensures KeyedBy(entries + GroupEntries(k, jdId, docs), ks + {k})
  {
    var added := GroupEntries(k, jdId, docs);
    var all := entries + added;
    forall i | |entries| <= i < |all| ensures EntryKey(all[i]) == k && all[i].id == jdId {
      GroupEntriesAt(k, jdId, docs, i - |entries|);
      assert all[i] == added[i - |entries|];
    }
    forall i | 0 <= i < |entries| ensures all[i] == entries[i] && EntryKey(all[i]) in ks {
    }
  }

  /** Over groups with distinct keys, every record of one key carries that group's single ID. */
  lemma {:induction false} GroupsFoldSameId(groups: Groups, tree: Tree, dryRun: bool)
    requires KeysDistinct(groups)
    ensures var st := GroupsFold(groups, tree, dryRun).state;
      SameKeySameId(st.entries) && KeyedBy(st.entries, GroupKeySet(groups))
    decreases |groups|
  {
    if |groups| > 0 {
      var init, g := groups[..|groups| - 1], groups[|groups| - 1];
      LastKeyNew(groups);
      GroupsFoldSameId(init, tree, dryRun);
      var prev := GroupsFold(init, tree, dryRun);
      AdvanceEntries(prev, g, dryRun);
      var run := JdAdvance(prev, g, dryRun);
      assert GroupsFold(groups, tree, dryRun) == run;
      if run.raised.None? {
        SameIdStep(prev.state.entries, GroupKeySet(init), g.0, AssignId(prev.state.tracker, g.0).value.0, g.1);
      } else {
        KeyedByWider(prev.state.entries, GroupKeySet(init), GroupKeySet(groups));
      }
    }
  }

  /** The last group's key is new, the groups before it keep distinct keys, and the key set grows by it. */
  lemma LastKeyNew(groups: Groups)
    requires |groups| > 0 && KeysDistinct(groups)
    ensures var init := groups[..|groups| - 1];
      && KeysDistinct(init) && groups[|groups| - 1].0 !in GroupKeySet(init)
      && GroupKeySet(groups) == GroupKeySet(init) + {groups[|groups| - 1].0}
  {
    var init, g := groups[..|groups| - 1], groups[|groups| - 1];
    forall x | x in GroupKeySet(groups) ensures x in GroupKeySet(init) + {g.0} {
      var i :| 0 <= i < |groups| && groups[i].0 == x;
      if i < |init| { assert init[i] == groups[i]; }
    }
    forall x | x in GroupKeySet(init) ensures x in GroupKeySet(groups) && x != g.0 {
      var i :| 0 <= i < |init| && init[i].0 == x;
      assert groups[i] == init[i];
    }
  }

  lemma KeyedByWider(entries: seq<IndexEntry>, ks: set<GroupKey>, wider: set<GroupKey>)
    requires KeyedBy(entries, ks) && ks <= wider
    ensures KeyedBy(entries, wider)
  {
  }

  /** A pass of the group loop either stops with the records as they were or appends the group's records. */
  lemma AdvanceEntries(prev: JdRun, g: (GroupKey, seq<Doc>), dryRun: bool)
    ensures var run := JdAdvance(prev, g, dryRun);
      && (run.raised.Some? ==> run.state.entries == prev.state.entries)
      && (run.raised.None? ==>
            && prev.raised.None? && AssignId(prev.state.tracker, g.0).Returned?
            && run.state.tracker == AssignId(prev.state.tracker, g.0).value.1
            && run.state.entries == prev.state.entries + GroupEntries(g.0, AssignId(prev.state.tracker, g.0).value.0, g.1))
  {
    if prev.raised.None? {
      match AssignId(prev.state.tracker, g.0)
      case Raised(_) =>
      case Returned(given) =>
        CopyDocsEntries(JdState(given.1, prev.state.tree, prev.state.entries, prev.state.migrated), g.0, given.0, g.1, dryRun);
    }
  }

  /** All files of one (area, category, correspondent, year) group share one JD ID. */
  lemma MigrateSameGroupSameId(docs: seq<Doc>, tree: Tree, dryRun: bool, key: Doc -> GroupKey)
    ensures var (r, _) := Migrate(docs, tree, dryRun, key);
      r.Returned? ==> SameKeySameId(r.value.indexEntries)
  {
    GroupedKeysDistinct(docs, key);
    GroupsFoldSameId(Grouped(docs, key), tree, dryRun);
  }

  // ---------------------------------------------------------------------------
  // Numbering within a category
  // ---------------------------------------------------------------------------

  /** Two different groups of one category never share a correspondent/year key. */
  predicate IdKeysSeparate(groups: Groups)
  {
    forall i, j :: 0 <= i < j < |groups| && groups[i].0.category == groups[j].0.category ==>
      IdKey(groups[i].0) != IdKey(groups[j].0)
  }

  /** The number of groups of `category`. */
  function CatCount(groups: Groups, category: string): nat
    decreases |groups|
  {
    if |groups| == 0 then 0
    else CatCount(groups[..|groups| - 1], category) + if groups[|groups| - 1].0.category == category then 1 else 0
  }

  lemma {:induction false} CatCountMonotone(groups: Groups, category: string, m: nat, n: nat)
    requires m <= n <= |groups|
    ensures CatCount(groups[..m], category) <= CatCount(groups[..n], category)
    decreases n - m
  {
    if m < n {
      CatCountMonotone(groups, category, m, n - 1);
      assert groups[..n][..n - 1] == groups[..n - 1];
    }
  }

  /** The tracker holds, per category, one key per group of that category seen so far. */
  ghost predicate TrackerCounts(tracker: IdTracker, groups: Groups)
  {
    (forall c :: |CountsOf(tracker, c)| == CatCount(groups, c)) &&
    (forall c, key :: HasKey(CountsOf(tracker, c), key) ==>
       exists i :: 0 <= i < |groups| && groups[i].0.category == c && IdKey(groups[i].0) == key)
  }

  lemma {:induction false} GroupsFoldTracker(groups: Groups, tree: Tree, dryRun: bool)
    requires IdKeysSeparate(groups)
    ensures var run := GroupsFold(groups, tree, dryRun);
      run.raised.None? ==> TrackerCounts(run.state.tracker, groups)
    decreases |groups|
  {
    if |groups| > 0 {
      var init := groups[..|groups| - 1];
      SeparatePrefix(groups, |groups| - 1);
      GroupsFoldTracker(init, tree, dryRun);
      TrackerFoldStep(groups, tree, dryRun);
    }
  }

  lemma SeparatePrefix(groups: Groups, n: nat)
    requires n <= |groups| && IdKeysSeparate(groups)
    ensures IdKeysSeparate(groups[..n])
  {
    assert forall i :: 0 <= i < n ==> groups[..n][i] == groups[i];
  }

  /** The tracker fact for all groups follows from the one for all but the last. */
  lemma TrackerFoldStep(groups: Groups, tree: Tree, dryRun: bool)
    requires |groups| > 0 && IdKeysSeparate(groups)
    requires var prev := GroupsFold(groups[..|groups| - 1], tree, dryRun);
      prev.raised.None? ==> TrackerCounts(prev.state.tracker, groups[..|groups| - 1])
    ensures var run := GroupsFold(groups, tree, dryRun);
      run.raised.None? ==> TrackerCounts(run.state.tracker, groups)
  {
    var n := |groups|;
    var g := groups[n - 1];
    var prev := GroupsFold(groups[..n - 1], tree, dryRun);
    AdvanceEntries(prev, g, dryRun);
    var run := JdAdvance(prev, g, dryRun);
    assert GroupsFold(groups, tree, dryRun) == run;
    if run.raised.None? {
      assert run.state.tracker == Bump(prev.state.tracker, g.0.category, IdKey(g.0));
      TrackerStep(prev.state.tracker, groups);
    }
  }

  /** Counting the last group's key extends the tracker of the groups before it. */
  lemma TrackerStep(tracker: IdTracker, groups: Groups)
    requires |groups| > 0 && IdKeysSeparate(groups)
    requires TrackerCounts(tracker, groups[..|groups| - 1])
    ensures var g := groups[|groups| - 1].0;
      !HasKey(CountsOf(tracker, g.category), IdKey(g)) &&
      TrackerCounts(Bump(tracker, g.category, IdKey(g)), groups)
  {
    var n := |groups|;
    var init, g := groups[..n - 1], groups[n - 1].0;
    var after := Bump(tracker, g.category, IdKey(g));
    forall c, key | HasKey(CountsOf(after, c), key)
      ensures exists i :: 0 <= i < n && groups[i].0.category == c && IdKey(groups[i].0) == key
    {
      if c == g.category && key == IdKey(g) {
        assert groups[n - 1].0 == g;
      } else {
        assert HasKey(CountsOf(tracker, c), key);
        var i :| 0 <= i < n - 1 && init[i].0.category == c && IdKey(init[i].0) == key;
        assert groups[i] == init[i];
      }
    }
  }

  /** The ID the n-th group gets once the groups before it were processed (none if the loop raised). */
  function GroupId(groups: Groups, tree: Tree, dryRun: bool, n: nat): Option<string>
    requires n < |groups|
  {
    var prev := GroupsFold(groups[..n], tree, dryRun);
    if prev.raised.Some? then None
    else match AssignId(prev.state.tracker, groups[n].0)
      case Raised(_) => None
      case Returned(given) => Some(given.0)
  }

  /**
   * Groups of a category are numbered `cat.01`, `cat.02`, ... in the order the
   * groups were first seen, as long as no two of them share a correspondent/year key.
   */
  lemma GroupNumbering(groups: Groups, tree: Tree, dryRun: bool, n: nat)
    requires IdKeysSeparate(groups) && n < |groups|
    ensures var c := groups[n].0.category;
      GroupId(groups, tree, dryRun, n).Some? ==>
        GroupId(groups, tree, dryRun, n).value == JdId(Words(c)[0], CatCount(groups[..n + 1], c))
  {
    var prefix := groups[..n + 1];
    assert prefix[..n] == groups[..n];
    assert forall i :: 0 <= i <= n ==> prefix[i] == groups[i];
    assert IdKeysSeparate(prefix);
    assert IdKeysSeparate(groups[..n]);
    GroupsFoldTracker(groups[..n], tree, dryRun);
    var prev := GroupsFold(groups[..n], tree, dryRun);
    if prev.raised.None? {
      TrackerStep(prev.state.tracker, prefix);
    }
  }

  /** Two groups of one category get different IDs. */
  lemma GroupIdsDistinct(groups: Groups, tree: Tree, dryRun: bool, i: nat, j: nat)
    requires IdKeysSeparate(groups) && i < j < |groups| && groups[i].0.category == groups[j].0.category
    requires GroupId(groups, tree, dryRun, i).Some? && GroupId(groups, tree, dryRun, j).Some?
    ensures GroupId(groups, tree, dryRun, i) != GroupId(groups, tree, dryRun, j)
  {
    var c := groups[j].0.category;
    GroupNumbering(groups, tree, dryRun, i);
    GroupNumbering(groups, tree, dryRun, j);
    var m, n := CatCount(groups[..i + 1], c), CatCount(groups[..j + 1], c);
    LaterGroupCountsMore(groups, c, i, j);
    var idI, idJ := GroupId(groups, tree, dryRun, i), GroupId(groups, tree, dryRun, j);
    assert idI.value == JdId(Words(c)[0], m) && idJ.value == JdId(Words(c)[0], n);
    if idI.value == idJ.value {
      JdIdInjective(Words(c)[0], m, n);
    }
  }

  /** A later group of a category has counted more groups of it. */
  lemma LaterGroupCountsMore(groups: Groups, c: string, i: nat, j: nat)
    requires i < j < |groups| && groups[j].0.category == c
    ensures CatCount(groups[..i + 1], c) < CatCount(groups[..j + 1], c)
  {
    CatCountMonotone(groups, c, i + 1, j);
    assert groups[..j + 1][..j] == groups[..j];
  }

  /** With years free of underscores, `f"{correspondent}_{year}"` determines both parts. */
  lemma IdKeyInjective(a: GroupKey, b: GroupKey)
    requires '_' !in a.year && '_' !in b.year && IdKey(a) == IdKey(b)
    ensures a.correspondent == b.correspondent && a.year == b.year
  {
    var s := IdKey(a);
    var n := |s|;
    assert s[n - |a.year| - 1] == '_';
    assert s[n - |b.year| - 1] == '_';
    assert a.year == s[n - |a.year|..] == b.year;
    assert a.correspondent == s[..n - |a.year| - 1] == b.correspondent;
  }

  /**
   * Groups with distinct keys are kept apart by their correspondent/year keys when no
   * year holds an underscore and every category lies in a single area, as in the mapping table.
   */
  lemma SeparateWhenPlain(groups: Groups)
    requires KeysDistinct(groups)
    requires forall i :: 0 <= i < |groups| ==> '_' !in groups[i].0.year
    requires forall i, j :: 0 <= i < |groups| && 0 <= j < |groups| && groups[i].0.category == groups[j].0.category ==>
      groups[i].0.area == groups[j].0.area
    ensures IdKeysSeparate(groups)
  {
    forall i, j | 0 <= i < j < |groups| && groups[i].0.category == groups[j].0.category
      ensures IdKey(groups[i].0) != IdKey(groups[j].0)
    {
      if IdKey(groups[i].0) == IdKey(groups[j].0) {
        IdKeyInjective(groups[i].0, groups[j].0);
      }
    }
  }

  // ---------------------------------------------------------------------------
  // The JDex index: `generate_jdex_index`
  // ---------------------------------------------------------------------------

  /** `entry.get("summary", "")[:100]`, followed by "..." when the summary was longer. */
  function ShortSummary(summary: string): (r: string)
    ensures |r| <= 103 && Take(summary, 100) <= r
    ensures |summary| <= 100 ==> r == summary
    ensures |summary| > 100 ==> |r| == 103 && r[100..] == "..."
  {
    if |summary| > 100 then summary[..100] + "..." else summary
  }

  /** The lines of one entry: `- filename`, and the short summary indented when it is not empty. */
  function EntryLines(e: IndexEntry): seq<string>
  {
    var summary := ShortSummary(e.summary);
    ["- " + e.filename] + if summary != "" then ["  " + summary] else []
  }

  /** The field an index is grouped by at each level. */
  datatype Level = ByArea | ByCategory | ById

  function FieldOf(e: IndexEntry, level: Level): string
  {
    match level
    case ByArea => e.area
    case ByCategory => e.category
    case ById => e.id
  }

  /** The entries whose field at `level` is `v`, in order: `grouped[...]` and `by_id[...]`. */
  function Select(entries: seq<IndexEntry>, level: Level, v: string): (r: seq<IndexEntry>)
    ensures forall e :: e in r <==> e in entries && FieldOf(e, level) == v
    decreases |entries|
  {
    if |entries| == 0 then []
    else
      var init, last := entries[..|entries| - 1], entries[|entries| - 1];
      LastSplit(entries);
      Select(init, level, v) + if FieldOf(last, level) == v then [last] else []
  }

  /** `sorted(d.keys())` for the dictionary grouping `entries` by their field at `level`. */
  function SortedKeys(entries: seq<IndexEntry>, level: Level): seq<string>
  {
    SortedDistinct(seq(|entries|, i requires 0 <= i < |entries| => FieldOf(entries[i], level)))
  }

  /** The keys are sorted, each occurs once, and they are exactly the values the entries carry. */
  lemma SortedKeysSpec(entries: seq<IndexEntry>, level: Level)
    ensures Sorted(SortedKeys(entries, level)) && Distinct(SortedKeys(entries, level))
    ensures forall v :: v in SortedKeys(entries, level) <==> exists e :: e in entries && FieldOf(e, level) == v
  {
    var vs := seq(|entries|, i requires 0 <= i < |entries| => FieldOf(entries[i], level));
    SortedDistinctSpec(vs);
    forall v ensures v in SortedKeys(entries, level) <==> exists e :: e in entries && FieldOf(e, level) == v {
      if v in vs {
        var i :| 0 <= i < |vs| && vs[i] == v;
        assert entries[i] in entries;
      }
      if exists e :: e in entries && FieldOf(e, level) == v {
        var e :| e in entries && FieldOf(e, level) == v;
        var i :| 0 <= i < |entries| && entries[i] == e;
        assert vs[i] == v;
      }
    }
  }

  /** The block for one ID: its heading, where it is, and its entries (migrate_to_jd.py:348-362). */
  function IdLines(byId: seq<IndexEntry>, jdId: string): seq<string>
  {
    var heading := if |byId| > 0 then "#### " + jdId + " " + byId[0].correspondent + " " + byId[0].year else "#### " + jdId;
    [heading, "Location: file system", ""] + Flatten(EntryBlocks(byId)) + [""]
  }

  function EntryBlocks(entries: seq<IndexEntry>): (r: seq<seq<string>>)
    ensures |r| == |entries| && forall i :: 0 <= i < |entries| ==> r[i] == EntryLines(entries[i])
  {
    seq(|entries|, i requires 0 <= i < |entries| => EntryLines(entries[i]))
  }

  /** The block for one category: its heading and its IDs in sorted order. */
  function CategoryLines(inCategory: seq<IndexEntry>, category: string): seq<string>
  {
    ["### " + category, ""] + Flatten(IdBlocks(inCategory, SortedKeys(inCategory, ById)))
  }

  function IdBlocks(inCategory: seq<IndexEntry>, ids: seq<string>): (r: seq<seq<string>>)
    ensures |r| == |ids| && forall i :: 0 <= i < |ids| ==> r[i] == IdLines(Select(inCategory, ById, ids[i]), ids[i])
  {
    seq(|ids|, i requires 0 <= i < |ids| => IdLines(Select(inCategory, ById, ids[i]), ids[i]))
  }

  /** The block for one area: its heading, its categories in sorted order, and a blank line. */
  function AreaLines(inArea: seq<IndexEntry>, area: string): seq<string>
  {
    ["## " + area, ""] + Flatten(CategoryBlocks(inArea, SortedKeys(inArea, ByCategory))) + [""]
  }

  function CategoryBlocks(inArea: seq<IndexEntry>, categories: seq<string>): (r: seq<seq<string>>)
    ensures |r| == |categories| &&
      forall i :: 0 <= i < |categories| ==> r[i] == CategoryLines(Select(inArea, ByCategory, categories[i]), categories[i])
  {
    seq(|categories|, i requires 0 <= i < |categories| => CategoryLines(Select(inArea, ByCategory, categories[i]), categories[i]))
  }

  function AreaBlocks(entries: seq<IndexEntry>, areas: seq<string>): (r: seq<seq<string>>)
    ensures |r| == |areas| && forall i :: 0 <= i < |areas| ==> r[i] == AreaLines(Select(entries, ByArea, areas[i]), areas[i])
  {
    seq(|areas|, i requires 0 <= i < |areas| => AreaLines(Select(entries, ByArea, areas[i]), areas[i]))
  }

  /** The first seven lines: title, generation time and the number of documents. */
  function IndexHeader(now: string, total: nat): seq<string>
  {
    ["# JDex Index", "", "Generated: " + now, "Total documents: " + NatStr(total), "", "---", ""]
  }

  /** `lines` of `generate_jdex_index`; `now` is the formatted `datetime.now()`. */
  function IndexLines(entries: seq<IndexEntry>, now: string): seq<string>
  {
    IndexHeader(now, |entries|) + Flatten(AreaBlocks(entries, SortedKeys(entries, ByArea)))
  }

  /** Where the index is written: `00-09 System/00 Index/00.00 Index.md`. */
  const IndexFile: Loc := InCategory("00-09 System", "00 Index", "00.00 Index.md")

  /** `generate_jdex_index`: the index written to its place, or nothing written in a dry run. */
  function JdexIndex(tree: Tree, entries: seq<IndexEntry>, now: string, dryRun: bool): Tree
  {
    if dryRun then tree else tree[IndexFile := IndexText(Join(IndexLines(entries, now), "\n"))]
  }

  method EntriesBlock(byId: seq<IndexEntry>) returns (lines: seq<string>)
    ensures lines == Flatten(EntryBlocks(byId))
  {
    lines := [];
    var i := 0;
    while i < |byId|
      invariant i <= |byId|
      invariant lines == Flatten(EntryBlocks(byId)[..i])
    {
      FlattenNext(EntryBlocks(byId), i);
      var summary := ShortSummary(byId[i].summary);
      lines := lines + ["- " + byId[i].filename];
      if summary != "" {
        lines := lines + ["  " + summary];
      }
      i := i + 1;
    }
    assert EntryBlocks(byId)[..|byId|] == EntryBlocks(byId);
  }

  method IdBlock(byId: seq<IndexEntry>, jdId: string) returns (lines: seq<string>)
    ensures lines == IdLines(byId, jdId)
  {
    var heading := if |byId| > 0 then "#### " + jdId + " " + byId[0].correspondent + " " + byId[0].year
      else "#### " + jdId;
    var entryLines := EntriesBlock(byId);
    lines := [heading, "Location: file system", ""] + entryLines + [""];
  }

  /** The blocks of the given IDs of one category, one after the other. */
  method IdsBlocks(inCategory: seq<IndexEntry>, ids: seq<string>) returns (lines: seq<string>)
    ensures lines == Flatten(IdBlocks(inCategory, ids))
  {
    lines := [];
    var i := 0;
    while i < |ids|
      invariant i <= |ids|
      invariant lines == Flatten(IdBlocks(inCategory, ids)[..i])
    {
      FlattenNext(IdBlocks(inCategory, ids), i);
      var block := IdBlock(Select(inCategory, ById, ids[i]), ids[i]);
      lines := lines + block;
      i := i + 1;
    }
    assert IdBlocks(inCategory, ids)[..|ids|] == IdBlocks(inCategory, ids);
  }

  method CategoryBlock(inCategory: seq<IndexEntry>, category: string) returns (lines: seq<string>)
    ensures lines == CategoryLines(inCategory, category)
  {
    var ids := SortedKeys(inCategory, ById);
    var blocks := IdsBlocks(inCategory, ids);
    lines := ["### " + category, ""] + blocks;
  }

  /** The blocks of the given categories of one area, one after the other. */
  method CategoriesBlocks(inArea: seq<IndexEntry>, categories: seq<string>) returns (lines: seq<string>)
    ensures lines == Flatten(CategoryBlocks(inArea, categories))
  {
    lines := [];
    var i := 0;
    while i < |categories|
      invariant i <= |categories|
      invariant lines == Flatten(CategoryBlocks(inArea, categories)[..i])
    {
      FlattenNext(CategoryBlocks(inArea, categories), i);
      var block := CategoryBlock(Select(inArea, ByCategory, categories[i]), categories[i]);
      lines := lines + block;
      i := i + 1;
    }
    assert CategoryBlocks(inArea, categories)[..|categories|] == CategoryBlocks(inArea, categories);
  }

  method AreaBlock(inArea: seq<IndexEntry>, area: string) returns (lines: seq<string>)
    ensures lines == AreaLines(inArea, area)
  {
    var categories := SortedKeys(inArea, ByCategory);
    var blocks := CategoriesBlocks(inArea, categories);
    lines := ["## " + area, ""] + blocks + [""];
  }

  /** The blocks of the given areas, one after the other. */
  method AreasBlocks(entries: seq<IndexEntry>, areas: seq<string>) returns (lines: seq<string>)
    ensures lines == Flatten(AreaBlocks(entries, areas))
  {
    lines := [];
    var i := 0;
    while i < |areas|
      invariant i <= |areas|
      invariant lines == Flatten(AreaBlocks(entries, areas)[..i])
    {
      FlattenNext(AreaBlocks(entries, areas), i);
      var block := AreaBlock(Select(entries, ByArea, areas[i]), areas[i]);
      lines := lines + block;
      i := i + 1;
    }
    assert AreaBlocks(entries, areas)[..|areas|] == AreaBlocks(entries, areas);
  }

  /** `generate_jdex_index` with its loops over areas, categories, IDs and entries. */
  method GenerateJdexIndex(tree: Tree, entries: seq<IndexEntry>, now: string, dryRun: bool) returns (after: Tree)
    ensures after == JdexIndex(tree, entries, now, dryRun)
  {
    var areas := SortedKeys(entries, ByArea);
    var blocks := AreasBlocks(entries, areas);
    var lines := IndexHeader(now, |entries|) + blocks;
    if dryRun {
      after := tree;
    } else {
      after := tree[IndexFile := IndexText(Join(lines, "\n"))];
    }
  }

  /** The index opens with its title and states how many documents it lists. */
  lemma IndexHeading(entries: seq<IndexEntry>, now: string)
    ensures var lines := IndexLines(entries, now);
      |lines| >= 7 && lines[0] == "# JDex Index" && lines[2] == "Generated: " + now &&
      lines[3] == "Total documents: " + NatStr(|entries|)
  {
    var header := IndexHeader(now, |entries|);
    var rest := Flatten(AreaBlocks(entries, SortedKeys(entries, ByArea)));
    HeadOfConcat(header, rest);
  }

  /** The first seven lines of `a + b` are those of a seven-line `a`. */
  lemma HeadOfConcat<T>(a: seq<T>, b: seq<T>)
    requires |a| == 7
    ensures |a + b| >= 7 && (a + b)[0] == a[0] && (a + b)[2] == a[2] && (a + b)[3] == a[3]
  {
  }

  lemma IdLinesList(byId: seq<IndexEntry>, jdId: string, e: IndexEntry)
    requires e in byId
    ensures "- " + e.filename in IdLines(byId, jdId)
  {
    var line := "- " + e.filename;
    var k :| 0 <= k < |byId| && byId[k] == e;
    assert line in EntryBlocks(byId)[k];
    FlattenHas(EntryBlocks(byId), k, line);
  }

  lemma CategoryLinesList(inCategory: seq<IndexEntry>, category: string, e: IndexEntry)
    requires e in inCategory
    ensures "- " + e.filename in CategoryLines(inCategory, category)
  {
    var line := "- " + e.filename;
    var ids := SortedKeys(inCategory, ById);
    SortedKeysSpec(inCategory, ById);
    assert FieldOf(e, ById) == e.id;
    assert e.id in ids;
    var i :| 0 <= i < |ids| && ids[i] == e.id;
    IdLinesList(Select(inCategory, ById, e.id), e.id, e);
    assert line in IdBlocks(inCategory, ids)[i];
    FlattenHas(IdBlocks(inCategory, ids), i, line);
  }

  lemma AreaLinesList(inArea: seq<IndexEntry>, area: string, e: IndexEntry)
    requires e in inArea
    ensures "- " + e.filename in AreaLines(inArea, area)
  {
    var line := "- " + e.filename;
    var categories := SortedKeys(inArea, ByCategory);
    SortedKeysSpec(inArea, ByCategory);
    assert FieldOf(e, ByCategory) == e.category;
    assert e.category in categories;
    var i :| 0 <= i < |categories| && categories[i] == e.category;
    CategoryLinesList(Select(inArea, ByCategory, e.category), e.category, e);
    assert line in CategoryBlocks(inArea, categories)[i];
    FlattenHas(CategoryBlocks(inArea, categories), i, line);
  }

  /** Every index record is listed as `- filename` under its area, category and ID. */
  lemma IndexListsEntry(entries: seq<IndexEntry>, now: string, e: IndexEntry)
    requires e in entries
    ensures "- " + e.filename in IndexLines(entries, now)
  {
    var line := "- " + e.filename;
    var areas := SortedKeys(entries, ByArea);
    SortedKeysSpec(entries, ByArea);
    assert FieldOf(e, ByArea) == e.area;
    assert e.area in areas;
    var i :| 0 <= i < |areas| && areas[i] == e.area;
    AreaLinesList(Select(entries, ByArea, e.area), e.area, e);
    assert line in AreaBlocks(entries, areas)[i];
    FlattenHas(AreaBlocks(entries, areas), i, line);
  }

  /**
   * A whole run of the command: migrate, then write the index when some record was made.
   * `now` is the formatted time of the run.
   */
  function MigrationRun(docs: seq<Doc>, tree: Tree, dryRun: bool, currentYear: string, now: string): (Outcome<MigrateResult>, Tree)
  {
    var (r, after) := Migrate(docs, tree, dryRun, GroupOf(currentYear));
    if r.Returned? && |r.value.indexEntries| > 0 then (r, JdexIndex(after, r.value.indexEntries, now, dryRun))
    else (r, after)
  }

  /** A dry run writes nothing; a real run over documents writes the index listing each migrated record. */
  lemma MigrationRunWrites(docs: seq<Doc>, tree: Tree, dryRun: bool, currentYear: string, now: string)
    ensures dryRun ==> MigrationRun(docs, tree, dryRun, currentYear, now).1 == tree
    ensures var (r, after) := MigrationRun(docs, tree, dryRun, currentYear, now);
      !dryRun && |docs| > 0 && r.Returned? ==>
        IndexFile in after && after[IndexFile] == IndexText(Join(IndexLines(r.value.indexEntries, now), "\n"))
  {
    MigrateDryRun(docs, tree, GroupOf(currentYear));
    MigrateCountsAll(docs, tree, dryRun, GroupOf(currentYear));
  }
}
