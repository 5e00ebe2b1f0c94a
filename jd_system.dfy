/**
 * The JDex store: one Johnny.Decimal system (its areas, metadata, history and
 * classification statistics) as held in memory and saved to `jdex.json`.
 * The JSON file is abstracted to a `JdexFile` value; the clock and the outcome of
 * a write are parameters.
 */
module JDSystem {
  import opened Base
  import opened Text
  import opened JDValidator

  /** The keyword view used by the classifiers: area name -> category name -> keywords. */
  type Taxonomy = Dict<Dict<seq<string>>>

  datatype Meta = Meta(
    version: string,
    createdAt: Option<string>,
    lastModified: Option<string>,
    generationMethod: Option<string>,
    userContext: Dict<Json>)

  datatype HistoryEntry = HistoryEntry(timestamp: string, action: string, details: string, trigger: string)

  datatype Counts = Counts(high: nat, medium: nat, low: nat)

  datatype Evolution = Evolution(totalDocuments: nat, nextMilestone: nat, history: seq<HistoryEntry>)

  /** The whole `jdex.json` document. */
  datatype Document = Document(meta: Meta, areas: Structure, evolution: Evolution, byCategory: Dict<Counts>)

  /** The state of `jdex.json` on disk: absent, present but not decodable, or present. */
  datatype JdexFile = Missing | Corrupt | Present(doc: Document)

  const MilestoneStep: nat := 100

  /** The document a system starts from before anything is loaded. */
  const InitialDocument: Document :=
    Document(Meta("1.0", None, None, None, []), [], Evolution(0, MilestoneStep, []), [])

  // ---------------------------------------------------------------- classification view

  function CategoryKeywords(c: CategoryDef): seq<string> { c.keywords }

  function AreaKeywords(a: AreaData): Dict<seq<string>> { MapValues(a.categories, CategoryKeywords) }

  /** `get_areas_for_classification` as a value: every area, with every category's keywords. */
  function ClassificationView(areas: Structure): Taxonomy { MapValues(areas, AreaKeywords) }

  /** In a structure with unique area names the view keeps every area, in place, with its keywords. */
  lemma ClassificationViewShape(areas: Structure, i: nat)
    requires UniqueKeys(areas) && i < |areas|
    ensures |ClassificationView(areas)| == |areas|
    ensures ClassificationView(areas)[i].0 == areas[i].0
    ensures UniqueKeys(areas[i].1.categories) ==>
      |ClassificationView(areas)[i].1| == |areas[i].1.categories| &&
      forall j :: 0 <= j < |areas[i].1.categories| ==>
        ClassificationView(areas)[i].1[j] == (areas[i].1.categories[j].0, areas[i].1.categories[j].1.keywords)
  {
    MapValuesUnique(areas, AreaKeywords);
    if UniqueKeys(areas[i].1.categories) {
      MapValuesUnique(areas[i].1.categories, CategoryKeywords);
    }
  }

  // ---------------------------------------------------------------- legacy format

  function LegacyCategory(keywords: seq<string>): CategoryDef { CategoryDef("", keywords, [], 0, None) }

  function LegacyArea(categories: Dict<seq<string>>): AreaData { AreaData("", MapValues(categories, LegacyCategory)) }

  /** The structure `migrate_from_legacy` builds from a legacy `JD_AREAS` table. */
  function Structured(legacy: Taxonomy): Structure { MapValues(legacy, LegacyArea) }

  predicate LegacyUnique(legacy: Taxonomy)
  {
    UniqueKeys(legacy) && forall i :: 0 <= i < |legacy| ==> UniqueKeys(legacy[i].1)
  }

  /** Converting a legacy table and reading it back for classification gives the table back. */
  lemma LegacyRoundTrip(legacy: Taxonomy)
    requires LegacyUnique(legacy)
    ensures ClassificationView(Structured(legacy)) == legacy
  {
    var s := Structured(legacy);
    MapValuesUnique(legacy, LegacyArea);
    assert UniqueKeys(s) by {
      forall i, j | 0 <= i < j < |s| ensures s[i].0 != s[j].0 {
        assert s[i].0 == legacy[i].0 && s[j].0 == legacy[j].0;
      }
    }
    MapValuesUnique(s, AreaKeywords);
    forall i | 0 <= i < |legacy| ensures AreaKeywords(s[i].1) == legacy[i].1 {
      var cats := legacy[i].1;
      MapValuesUnique(cats, LegacyCategory);
      var converted := MapValues(cats, LegacyCategory);
      assert s[i].1.categories == converted;
      assert UniqueKeys(converted) by {
        forall k, l | 0 <= k < l < |converted| ensures converted[k].0 != converted[l].0 {
          assert converted[k].0 == cats[k].0 && converted[l].0 == cats[l].0;
        }
      }
      MapValuesUnique(converted, CategoryKeywords);
    }
  }

  /** `migrate_from_legacy`'s conversion loop. */
  method ConvertLegacy(legacy: Taxonomy) returns (areas: Structure)
    ensures areas == Structured(legacy)
  {
    areas := [];
    var i := 0;
    while i < |legacy|
      invariant 0 <= i <= |legacy|
      invariant areas == Structured(legacy[..i])
    {
      assert legacy[..i + 1][..i] == legacy[..i];
      var (name, categories) := legacy[i];
      var converted: Dict<CategoryDef> := [];
      var j := 0;
      while j < |categories|
        invariant 0 <= j <= |categories|
        invariant converted == MapValues(categories[..j], LegacyCategory)
      {
        assert categories[..j + 1][..j] == categories[..j];
        converted := Put(converted, categories[j].0, LegacyCategory(categories[j].1));
        j := j + 1;
      }
      assert categories[..j] == categories;
      areas := Put(areas, name, AreaData("", converted));
      i := i + 1;
    }
    assert legacy[..i] == legacy;
  }

  // ---------------------------------------------------------------- guards and updates

  /** The checks `add_category` makes before it changes anything. */
  predicate CanAddCategory(areas: Structure, area: string, category: string)
  {
    HasKey(areas, area) && CategoryBelongsToArea(category, area)
    && |Get(areas, area).value.categories| < MaxCategoriesPerArea
  }

  function NewCategory(description: string, keywords: seq<string>): CategoryDef
  {
    CategoryDef(description, keywords, [], 0, None)
  }

  /** The areas after `category` is set to `def` inside `area`. */
  function WithCategory(areas: Structure, area: string, category: string, def: CategoryDef): (r: Structure)
    requires HasKey(areas, area)
    ensures Keys(r) == Keys(areas)
    ensures Get(r, area).Some? && HasKey(Get(r, area).value.categories, category)
    ensures Get(Get(r, area).value.categories, category) == Some(def)
    ensures forall a :: a != area ==> Get(r, a) == Get(areas, a)
  {
    var data := Get(areas, area).value;
    Put(areas, area, AreaData(data.description, Put(data.categories, category, def)))
  }

  /** The checks `add_area` makes before it changes anything. */
  predicate CanAddArea(areas: Structure, area: string)
  {
    IsValidAreaName(area)
    && (forall i :: 0 <= i < |areas| ==> GetAreaRange(areas[i].0) != GetAreaRange(area))
    && |NonSystemNames(Keys(areas))| < MaxAreas - 1
  }

  /** A name that passes `add_area`'s checks is new, so the area goes last. */
  lemma CanAddAreaIsNew(areas: Structure, area: string, data: AreaData)
    requires CanAddArea(areas, area)
    ensures !HasKey(areas, area)
    ensures Put(areas, area, data) == areas + [(area, data)]
  {
  }

  lemma {:induction false} NonSystemAppend(names: seq<string>, n: string)
    ensures |NonSystemNames(names + [n])| <= |NonSystemNames(names)| + 1
    decreases |names|
  {
    if |names| > 0 {
      assert (names + [n])[1..] == names[1..] + [n];
      NonSystemAppend(names[1..], n);
    }
  }

  /** A well-formed area added through `add_area` keeps the structure well formed. */
  lemma AddAreaKeepsWellFormed(areas: Structure, area: string, data: AreaData)
    requires WellFormed(areas) && CanAddArea(areas, area) && AreaWellFormed((area, data))
    ensures WellFormed(Put(areas, area, data))
  {
    CanAddAreaIsNew(areas, area, data);
    var r := areas + [(area, data)];
    assert Keys(r) == Keys(areas) + [area];
    NonSystemAppend(Keys(areas), area);
  }

  /**
   * `add_area` checks the name's shape and that its range is unused, but not that the
   * range is one of the ten decades: "15-24 Misc" is accepted into an empty system and
   * the result fails validation.
   */
  lemma AddAreaAcceptsOffDecadeRange()
    ensures CanAddArea([], "15-24 Misc")
    ensures !WellFormed(Put([], "15-24 Misc", AreaData("", [])))
  {
    var name := "15-24 Misc";
    assert name[5..] == " Misc" && name[5..][1..] == "Misc";
    assert GetAreaRange(name) == Some((15, 24));
    var r := Put([], name, AreaData("", []));
    assert r == [(name, AreaData("", []))];
    assert !AreaWellFormed(r[0]);
  }

  lemma KeysAppend<V>(d: Dict<V>, k: string, v: V)
    ensures Keys(d + [(k, v)]) == Keys(d) + [k]
  {
  }

  /**
   * A category added through `add_category` keeps the structure well formed when its
   * name is a valid category name and its number is not yet used in the area.
   */
  lemma AddCategoryKeepsWellFormed(areas: Structure, area: string, category: string, def: CategoryDef)
    requires WellFormed(areas) && CanAddCategory(areas, area, category)
    requires IsValidCategoryName(category)
    requires forall k :: 0 <= k < |Get(areas, area).value.categories| ==>
      GetCategoryNumber(Get(areas, area).value.categories[k].0) != GetCategoryNumber(category)
    ensures WellFormed(WithCategory(areas, area, category, def))
  {
    var i := Find(areas, area).value;
    var data := areas[i].1;
    var cats := data.categories;
    assert !HasKey(cats, category);
    var cats' := cats + [(category, def)];
    KeysAppend(cats, category, def);
    var r := areas[i := (area, AreaData(data.description, cats'))];
    assert WithCategory(areas, area, category, def) == r;
    assert Keys(r) == Keys(areas);
    assert AreaWellFormed(areas[i]);
    var names := Keys(cats');
    assert CategoriesWellFormed(area, names) by {
      assert Keys(cats) == names[..|cats|];
      assert CategoriesWellFormed(area, Keys(cats));
      forall k, l | 0 <= k < l < |names|
        ensures GetCategoryNumber(names[k]) != GetCategoryNumber(names[l])
      {
        if l == |cats| { assert names[k] == cats[k].0; }
      }
    }
    assert AreaWellFormed(r[i]);
    forall j | 0 <= j < |r| ensures AreaWellFormed(r[j]) {
      if j != i { assert r[j] == areas[j]; }
    }
    forall j, l | 0 <= j < l < |r| ensures GetAreaRange(r[j].0) != GetAreaRange(r[l].0) {
      assert r[j].0 == areas[j].0 && r[l].0 == areas[l].0;
    }
  }

  /**
   * `add_category` checks the area, the range and the room left, but not the number:
   * "14 Invoices" is accepted beside "14 Receipts" and the result fails validation.
   */
  lemma AddCategoryAcceptsDuplicateNumber()
    ensures CanAddCategory(SampleFinance, "10-19 Finance", "14 Invoices")
    ensures !WellFormed(WithCategory(SampleFinance, "10-19 Finance", "14 Invoices", NewCategory("", [])))
  {
    var area, c0, c1 := "10-19 Finance", "14 Receipts", "14 Invoices";
    assert GetAreaRange(area) == Some((10, 19));
    assert GetCategoryNumber(c0) == Some(14) && GetCategoryNumber(c1) == Some(14);
    FindAt(SampleFinance, area, 0);
    var r := WithCategory(SampleFinance, area, c1, NewCategory("", []));
    var cats := [(c0, NewCategory("", [])), (c1, NewCategory("", []))];
    var before := SampleFinance[0].1.categories;
    assert Find(before, c1).None? by { assert before[0].0 != c1; }
    assert Put(before, c1, NewCategory("", [])) == cats;
    assert r == [(area, AreaData("", cats))];
    assert Keys(cats)[0] == c0 && Keys(cats)[1] == c1;
    assert !CategoriesWellFormed(area, Keys(cats));
    assert !AreaWellFormed(r[0]);
  }

  const SampleFinance: Structure := [("10-19 Finance", AreaData("", [("14 Receipts", NewCategory("", []))]))]

  // ---------------------------------------------------------------- statistics

  /** Classifications counted for one category. */
  function CountsTotal(c: Counts): nat { c.high + c.medium + c.low }

  /** Classifications counted over all categories. */
  function Tally(d: Dict<Counts>): nat
  {
    if |d| == 0 then 0 else CountsTotal(d[0].1) + Tally(d[1..])
  }

  predicate IsLevel(confidence: string)
  {
    confidence == "high" || confidence == "medium" || confidence == "low"
  }

  /** Counts for `confidence` go up by one; any other confidence matches no counter. */
  function Bump(c: Counts, confidence: string): Counts
  {
    if confidence == "high" then c.(high := c.high + 1)
    else if confidence == "medium" then c.(medium := c.medium + 1)
    else if confidence == "low" then c.(low := c.low + 1)
    else c
  }

  /** The statistics after one classification into `category`. */
  function RecordCounts(d: Dict<Counts>, category: string, confidence: string): Dict<Counts>
  {
    var current := match Get(d, category) case Some(c) => c case None => Counts(0, 0, 0);
    Put(d, category, Bump(current, confidence))
  }

  /** The milestone after the document count has become `total`. */
  function NextMilestone(total: nat, milestone: nat): (r: nat)
    ensures r >= milestone
  {
    if total >= milestone then milestone + MilestoneStep else milestone
  }

  lemma {:induction false} TallyAppend(d: Dict<Counts>, k: string, v: Counts)
    ensures Tally(d + [(k, v)]) == Tally(d) + CountsTotal(v)
    decreases |d|
  {
    if |d| > 0 {
      assert (d + [(k, v)])[1..] == d[1..] + [(k, v)];
      TallyAppend(d[1..], k, v);
    }
  }

  lemma {:induction false} TallyReplace(d: Dict<Counts>, i: nat, e: (string, Counts))
    requires i < |d|
    ensures Tally(d[i := e]) + CountsTotal(d[i].1) == Tally(d) + CountsTotal(e.1)
    decreases |d|
  {
    if i > 0 {
      assert d[i := e][1..] == d[1..][i - 1 := e];
      TallyReplace(d[1..], i - 1, e);
    } else {
      assert d[i := e][1..] == d[1..];
    }
  }

  /**
   * Recording a classification adds one to the counted total exactly when the
   * confidence is one of "high", "medium" and "low".
   */
  lemma RecordCountsTally(d: Dict<Counts>, category: string, confidence: string)
    ensures Tally(RecordCounts(d, category, confidence)) == Tally(d) + (if IsLevel(confidence) then 1 else 0)
  {
    var current := match Get(d, category) case Some(c) => c case None => Counts(0, 0, 0);
    match Find(d, category)
    case Some(i) => TallyReplace(d, i, (category, Bump(current, confidence)));
    case None => TallyAppend(d, category, Bump(current, confidence));
  }

  /** The milestone stays ahead of the document count, and only moves when it was reached. */
  lemma MilestoneStaysAhead(total: nat, milestone: nat)
    requires total < milestone
    ensures total + 1 < NextMilestone(total + 1, milestone)
    ensures NextMilestone(total + 1, milestone) != milestone ==> total + 1 == milestone
  {
  }

  // ---------------------------------------------------------------- the store

  class JDSystem {
    var jdex: JdexFile
    var meta: Meta
    var areas: Structure
    var totalDocuments: nat
    var nextMilestone: nat
    var history: seq<HistoryEntry>
    var byCategory: Dict<Counts>

    /** The document `save` writes. */
    function Snapshot(): Document
      reads this
    {
      Document(meta, areas, Evolution(totalDocuments, nextMilestone, history), byCategory)
    }

    /** The `exists` property: `jdex.json` is on disk. */
    predicate Exists()
      reads this
    {
      !jdex.Missing?
    }

    /** A system for an output directory whose `jdex.json` is `file`; a readable file is loaded. */
    constructor (file: JdexFile)
      ensures jdex == file
      ensures Snapshot() == if file.Present? then file.doc else InitialDocument
    {
      var doc := if file.Present? then file.doc else InitialDocument;
      jdex := file;
      meta := doc.meta;
      areas := doc.areas;
      totalDocuments := doc.evolution.totalDocuments;
      nextMilestone := doc.evolution.nextMilestone;
      history := doc.evolution.history;
      byCategory := doc.byCategory;
    }

    /** `save`: stamps `last_modified` (even when the write then fails) and writes the document. */
    method Save(now: string, writeOk: bool) returns (ok: bool)
      modifies this
      ensures ok == writeOk
      ensures meta == old(meta).(lastModified := Some(now))
      ensures areas == old(areas) && history == old(history) && byCategory == old(byCategory)
      ensures totalDocuments == old(totalDocuments) && nextMilestone == old(nextMilestone)
      ensures jdex == if writeOk then Present(Snapshot()) else old(jdex)
    {
      meta := meta.(lastModified := Some(now));
      if writeOk {
        jdex := Present(Snapshot());
      }
      ok := writeOk;
    }

    /** `get_areas_for_classification` */
    method GetAreasForClassification() returns (r: Taxonomy)
      ensures r == ClassificationView(areas)
    {
      r := [];
      var i := 0;
      while i < |areas|
        invariant 0 <= i <= |areas|
        invariant r == ClassificationView(areas[..i])
      {
        assert areas[..i + 1][..i] == areas[..i];
        var categories := KeywordsOf(areas[i].1);
        r := Put(r, areas[i].0, categories);
        i := i + 1;
      }
      assert areas[..i] == areas;
    }

    /** The inner loop of `get_areas_for_classification`: one area's categories with their keywords. */
    static method KeywordsOf(data: AreaData) returns (categories: Dict<seq<string>>)
      ensures categories == AreaKeywords(data)
    {
      categories := [];
      var j := 0;
      while j < |data.categories|
        invariant 0 <= j <= |data.categories|
        invariant categories == MapValues(data.categories[..j], CategoryKeywords)
      {
        assert data.categories[..j + 1][..j] == data.categories[..j];
        categories := Put(categories, data.categories[j].0, data.categories[j].1.keywords);
        j := j + 1;
      }
      assert data.categories[..j] == data.categories;
    }

    /**
     * `create_from_structure`: a structure that fails validation changes nothing; a valid
     * one replaces the areas, resets the history to one "system_created" entry and the
     * statistics to nothing, and is saved.
     */
    method CreateFromStructure(structure: Structure, generationMethod: string, userContext: Dict<Json>,
                               now: string, writeOk: bool) returns (ok: bool)
      modifies this
      ensures Violations(structure) != [] ==> !ok && unchanged(this)
      ensures Violations(structure) == [] ==>
        && ok == writeOk
        && areas == structure
        && meta == Meta("1.0", Some(now), Some(now), Some(generationMethod), userContext)
        && history == [HistoryEntry(now, "system_created", "Created via " + generationMethod, "initial_setup")]
        && totalDocuments == 0 && nextMilestone == MilestoneStep && byCategory == []
        && jdex == (if writeOk then Present(Snapshot()) else old(jdex))
    {
      var valid, errors := ValidateStructure(structure);
      if !valid {
        return false;
      }
      meta := Meta("1.0", Some(now), Some(now), Some(generationMethod), userContext);
      areas := structure;
      totalDocuments := 0;
      nextMilestone := MilestoneStep;
      history := [HistoryEntry(now, "system_created", "Created via " + generationMethod, "initial_setup")];
      byCategory := [];
      ok := Save(now, writeOk);
    }

    /**
     * `add_category`: refused, with nothing changed, when the area is missing, the
     * category's number is outside the area's range, or the area already has ten
     * categories; otherwise the category is set, one "category_added" entry is
     * appended to the history, and the system is saved.
     */
    method AddCategory(area: string, category: string, description: string, keywords: seq<string>,
                       reason: string, now: string, writeOk: bool) returns (ok: bool)
      modifies this
      ensures !CanAddCategory(old(areas), area, category) ==> !ok && unchanged(this)
      ensures CanAddCategory(old(areas), area, category) ==>
        && ok == writeOk
        && areas == WithCategory(old(areas), area, category, NewCategory(description, keywords))
        && history == old(history) + [HistoryEntry(now, "category_added", "Added '" + category + "' to " + area, reason)]
        && meta == old(meta).(lastModified := Some(now))
        && totalDocuments == old(totalDocuments) && nextMilestone == old(nextMilestone)
        && byCategory == old(byCategory)
        && jdex == (if writeOk then Present(Snapshot()) else old(jdex))
    {
      if !HasKey(areas, area) {
        return false;
      }
      if !CategoryBelongsToArea(category, area) {
        return false;
      }
      var data := Get(areas, area).value;
      if |data.categories| >= MaxCategoriesPerArea {
        return false;
      }
      areas := Put(areas, area, AreaData(data.description, Put(data.categories, category, NewCategory(description, keywords))));
      history := history + [HistoryEntry(now, "category_added", "Added '" + category + "' to " + area, reason)];
      ok := Save(now, writeOk);
    }

    /**
     * `add_area`: refused, with nothing changed, when the name is not `XX-XX Name`, its
     * range is already used by an area, or nine user areas exist; otherwise the area is
     * added last, one "area_added" entry is appended to the history, and the system is saved.
     */
    method AddArea(area: string, description: string, categories: Dict<CategoryDef>,
                   reason: string, now: string, writeOk: bool) returns (ok: bool)
      modifies this
      ensures !CanAddArea(old(areas), area) ==> !ok && unchanged(this)
      ensures CanAddArea(old(areas), area) ==>
        && ok == writeOk
        && areas == old(areas) + [(area, AreaData(description, categories))]
        && history == old(history) + [HistoryEntry(now, "area_added", "Added area '" + area + "'", reason)]
        && meta == old(meta).(lastModified := Some(now))
        && totalDocuments == old(totalDocuments) && nextMilestone == old(nextMilestone)
        && byCategory == old(byCategory)
        && jdex == (if writeOk then Present(Snapshot()) else old(jdex))
    {
      if !IsValidAreaName(area) {
        return false;
      }
      var newRange := GetAreaRange(area);
      var i := 0;
      while i < |areas|
        invariant 0 <= i <= |areas|
        invariant forall j :: 0 <= j < i ==> GetAreaRange(areas[j].0) != newRange
      {
        if GetAreaRange(areas[i].0) == newRange {
          return false;
        }
        i := i + 1;
      }
      if |NonSystemNames(Keys(areas))| >= MaxAreas - 1 {
        return false;
      }
      CanAddAreaIsNew(areas, area, AreaData(description, categories));
      areas := Put(areas, area, AreaData(description, categories));
      history := history + [HistoryEntry(now, "area_added", "Added area '" + area + "'", reason)];
      ok := Save(now, writeOk);
    }

    /**
     * `record_classification`: counts the classification under its category and
     * confidence, adds one to the document total, and moves the milestone on by 100
     * once the total reaches it. Nothing is saved.
     */
    method RecordClassification(category: string, confidence: string)
      modifies this
      ensures byCategory == RecordCounts(old(byCategory), category, confidence)
      ensures totalDocuments == old(totalDocuments) + 1
      ensures nextMilestone == NextMilestone(totalDocuments, old(nextMilestone))
      ensures jdex == old(jdex) && meta == old(meta) && areas == old(areas) && history == old(history)
    {
      var current := match Get(byCategory, category) case Some(c) => c case None => Counts(0, 0, 0);
      if !HasKey(byCategory, category) {
        PutTwice(byCategory, category, Counts(0, 0, 0), Bump(current, confidence));
        byCategory := Put(byCategory, category, Counts(0, 0, 0));
      }
      byCategory := Put(byCategory, category, Bump(current, confidence));
      totalDocuments := totalDocuments + 1;
      if totalDocuments >= nextMilestone {
        nextMilestone := nextMilestone + MilestoneStep;
      }
    }
  }

  /**
   * `get_jd_areas`: the classification view of the stored system when `jdex.json` exists
   * (an unreadable one gives no areas), otherwise the fallback table.
   */
  method GetJdAreas(file: JdexFile, fallback: Taxonomy) returns (r: Taxonomy)
    ensures r == match file
      case Missing => fallback
      case Corrupt => []
      case Present(doc) => ClassificationView(doc.areas)
  {
    var system := new JDSystem(file);
    if system.Exists() {
      r := system.GetAreasForClassification();
    } else if |fallback| > 0 {
      r := fallback;
    } else {
      r := [];
    }
  }

  /**
   * `migrate_from_legacy`: a system over `file` into which the converted legacy table is
   * created, by "migration"; when the table fails validation the system is left as loaded.
   */
  method MigrateFromLegacy(file: JdexFile, legacy: Taxonomy, now: string, writeOk: bool) returns (system: JDSystem)
    ensures fresh(system)
    ensures Violations(Structured(legacy)) == [] ==>
      system.areas == Structured(legacy) && system.meta.generationMethod == Some("migration")
      && system.meta.userContext == [("migrated_from", JStr("legacy_JD_AREAS"))]
      && system.history == [HistoryEntry(now, "system_created", "Created via migration", "initial_setup")]
    ensures Violations(Structured(legacy)) != [] ==>
      system.Snapshot() == (if file.Present? then file.doc else InitialDocument)
  {
    assert "Created via " + "migration" == "Created via migration";
    system := new JDSystem(file);
    var converted := ConvertLegacy(legacy);
    var _ := system.CreateFromStructure(converted, "migration", [("migrated_from", JStr("legacy_JD_AREAS"))], now, writeOk);
  }
}
