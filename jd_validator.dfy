/**
 * Johnny.Decimal structures and the rules they must follow: area names `XX-XX Name`
 * whose ranges are the ten decades 00-09 .. 90-99 (00-09 reserved for the system area),
 * at most nine user areas, category names `XX Name` whose number lies in the area's
 * range, at most ten categories per area, and no number used twice.
 */
module JDValidator {
  import opened Base
  import opened Text

  /** A category record as stored in the JDex. */
  datatype CategoryDef = CategoryDef(
    description: string,
    keywords: seq<string>,
    examples: seq<string>,
    documentCount: nat,
    lastDocument: Option<string>)

  /** An area record: a description and its categories, by name. */
  datatype AreaData = AreaData(description: string, categories: Dict<CategoryDef>)

  /** A structure: areas by name, in insertion order. */
  type Structure = Dict<AreaData>

  const MaxAreas: nat := 10
  const MaxCategoriesPerArea: nat := 10
  const ReservedArea: string := "00-09"

  /** The only admissible area ranges: (0, 9), (10, 19), ..., (90, 99). */
  const ValidAreaRanges: seq<(nat, nat)> :=
    [(0, 9), (10, 19), (20, 29), (30, 39), (40, 49), (50, 59), (60, 69), (70, 79), (80, 89), (90, 99)]

  lemma ValidAreaRangeShape(r: (nat, nat))
    ensures r in ValidAreaRanges <==> r.0 % 10 == 0 && r.0 <= 90 && r.1 == r.0 + 9
  {
  }

  // ---------------------------------------------------------------- names

  /**
   * What follows the first whitespace character of `\s+.+`: more whitespace, then at
   * least one character that is not a newline. A newline is itself whitespace, so the
   * pattern matches as soon as some character other than a newline is reached.
   */
  predicate WsRunThenChar(r: string)
    decreases |r|
  {
    |r| > 0 && (r[0] != '\n' || WsRunThenChar(r[1..]))
  }

  /** `\s+.+` at the start of `r`. */
  predicate LabelFollows(r: string)
  {
    |r| > 0 && IsWhitespace(r[0]) && WsRunThenChar(r[1..])
  }

  function TwoDigits(a: char, b: char): (n: nat)
    requires IsDigit(a) && IsDigit(b)
    ensures n < 100
  {
    (a as int - '0' as int) * 10 + (b as int - '0' as int)
  }

  /** `^\d{2}-\d{2}\s+.+` */
  predicate IsValidAreaName(name: string)
  {
    |name| >= 5 && IsDigit(name[0]) && IsDigit(name[1]) && name[2] == '-'
    && IsDigit(name[3]) && IsDigit(name[4]) && LabelFollows(name[5..])
  }

  /** `^\d{2}\s+.+` */
  predicate IsValidCategoryName(name: string)
  {
    |name| >= 2 && IsDigit(name[0]) && IsDigit(name[1]) && LabelFollows(name[2..])
  }

  /** The two numbers of `^(\d{2})-(\d{2})\s+`, e.g. (10, 19) for "10-19 Finance". */
  function GetAreaRange(name: string): (r: Option<(nat, nat)>)
    ensures IsValidAreaName(name) ==> r.Some?
    ensures r.Some? ==> r.value.0 < 100 && r.value.1 < 100
  {
    if |name| >= 6 && IsDigit(name[0]) && IsDigit(name[1]) && name[2] == '-'
       && IsDigit(name[3]) && IsDigit(name[4]) && IsWhitespace(name[5])
    then Some((TwoDigits(name[0], name[1]), TwoDigits(name[3], name[4])))
    else None
  }

  /** The number of `^(\d{2})\s+`, e.g. 14 for "14 Receipts". */
  function GetCategoryNumber(name: string): (r: Option<nat>)
    ensures IsValidCategoryName(name) ==> r.Some?
    ensures r.Some? ==> r.value < 100
  {
    if |name| >= 3 && IsDigit(name[0]) && IsDigit(name[1]) && IsWhitespace(name[2])
    then Some(TwoDigits(name[0], name[1]))
    else None
  }

  /** A category belongs to an area when both names parse and the number lies in the range. */
  predicate CategoryBelongsToArea(category: string, area: string)
  {
    GetCategoryNumber(category).Some? && GetAreaRange(area).Some?
    && GetAreaRange(area).value.0 <= GetCategoryNumber(category).value <= GetAreaRange(area).value.1
  }

  /** A two-digit number followed by a space and a label reads back as that number. */
  lemma CategoryNameRoundTrip(n: nat, text: string)
    requires n < 100 && |text| > 0 && text[0] != '\n'
    ensures IsValidCategoryName(Pad2(n) + " " + text)
    ensures GetCategoryNumber(Pad2(n) + " " + text) == Some(n)
  {
    var name := Pad2(n) + " " + text;
    assert |Pad2(n)| == 2 by { if n >= 10 { assert NatStr(n) == NatStr(n / 10) + [DigitChar(n % 10)]; } }
    assert name[2..][1..] == text;
    Pad2Value(n);
    assert DigitsValue(Pad2(n)) == TwoDigits(name[0], name[1]) by {
      assert Pad2(n)[..1] == [name[0]];
    }
  }

  // ---------------------------------------------------------------- validation

  /** One problem found by ValidateStructure; Message gives the text the program reports. */
  datatype Violation =
    | TooManyAreas(count: nat)
    | InvalidAreaName(area: string)
    | DuplicateAreaRange(area: string)
    | InvalidAreaRange(area: string)
    | TooManyCategories(area: string, count: nat)
    | InvalidCategoryName(category: string, area: string)
    | CategoryOutsideRange(category: string, area: string)
    | DuplicateCategoryNumber(number: nat, area: string)

  function Message(v: Violation): string
  {
    match v
    case TooManyAreas(n) => "Too many areas: " + NatStr(n) + " (max " + NatStr(MaxAreas - 1) + " user areas)"
    case InvalidAreaName(a) => "Invalid area name format: '" + a + "' (expected 'XX-XX Name')"
    case DuplicateAreaRange(a) => "Duplicate area range: " + a
    case InvalidAreaRange(a) => "Invalid area range: " + a + " (must be X0-X9 pattern)"
    case TooManyCategories(a, n) =>
      "Too many categories in " + a + ": " + NatStr(n) + " (max " + NatStr(MaxCategoriesPerArea) + ")"
    case InvalidCategoryName(c, a) => "Invalid category name format: '" + c + "' in " + a
    case CategoryOutsideRange(c, a) => "Category " + c + " outside range for " + a
    case DuplicateCategoryNumber(n, a) => "Duplicate category number " + NatStr(n) + " in " + a
  }

  /** The names that do not start with the reserved "00-09". */
  function NonSystemNames(names: seq<string>): (r: seq<string>)
    ensures |r| <= |names|
    ensures forall k :: 0 <= k < |r| ==> !StartsWith(r[k], ReservedArea)
  {
    if |names| == 0 then []
    else (if StartsWith(names[0], ReservedArea) then [] else [names[0]]) + NonSystemNames(names[1..])
  }

  function AreaCountCheck(areas: Structure): seq<Violation>
  {
    var n := |NonSystemNames(Keys(areas))|;
    if n > MaxAreas - 1 then [TooManyAreas(n)] else []
  }

  /** The state of the category loop: errors so far and the numbers already used. */
  datatype CategoryScan = CategoryScan(errors: seq<Violation>, used: set<nat>)

  function CategoryStep(area: string, prev: CategoryScan, category: string): CategoryScan
  {
    if !IsValidCategoryName(category) then
      CategoryScan(prev.errors + [InvalidCategoryName(category, area)], prev.used)
    else
      var n := GetCategoryNumber(category).value;
      var outside := if CategoryBelongsToArea(category, area) then [] else [CategoryOutsideRange(category, area)];
      var dup := if n in prev.used then [DuplicateCategoryNumber(n, area)] else [];
      CategoryScan(prev.errors + outside + dup, prev.used + {n})
  }

  /** The category loop over `names`, as a left fold. */
  function ScanCategories(area: string, names: seq<string>): CategoryScan
  {
    if |names| == 0 then CategoryScan([], {})
    else CategoryStep(area, ScanCategories(area, names[..|names| - 1]), names[|names| - 1])
  }

  /** The state of the area loop: errors so far and the ranges already used. */
  datatype AreaScan = AreaScan(errors: seq<Violation>, used: set<(nat, nat)>)

  function AreaHeadErrors(name: string, data: AreaData, used: set<(nat, nat)>): seq<Violation>
    requires IsValidAreaName(name)
  {
    var rng := GetAreaRange(name).value;
    (if rng in used then [DuplicateAreaRange(name)] else [])
    + (if rng in ValidAreaRanges then [] else [InvalidAreaRange(name)])
    + (if |data.categories| > MaxCategoriesPerArea then [TooManyCategories(name, |data.categories|)] else [])
  }

  function AreaStep(prev: AreaScan, area: (string, AreaData)): AreaScan
  {
    var (name, data) := area;
    if !IsValidAreaName(name) then AreaScan(prev.errors + [InvalidAreaName(name)], prev.used)
    else
      AreaScan(prev.errors + AreaHeadErrors(name, data, prev.used) + ScanCategories(name, Keys(data.categories)).errors,
               prev.used + {GetAreaRange(name).value})
  }

  function ScanAreas(areas: Structure): AreaScan
  {
    if |areas| == 0 then AreaScan([], {})
    else AreaStep(ScanAreas(areas[..|areas| - 1]), areas[|areas| - 1])
  }

  /** Every violation of a structure, in the order the program reports them. */
  function Violations(areas: Structure): seq<Violation>
  {
    AreaCountCheck(areas) + ScanAreas(areas).errors
  }

  /**
   * `validate_structure`: every violation, in the program's order; the structure is
   * valid exactly when none is found (and so, by ViolationsIffWellFormed, exactly when
   * it follows every rule).
   */
  method ValidateStructure(areas: Structure) returns (valid: bool, errors: seq<Violation>)
    ensures errors == Violations(areas)
    ensures valid <==> |errors| == 0
  {
    errors := [];
    var nonSystem := NonSystemNames(Keys(areas));
    if |nonSystem| > MaxAreas - 1 {
      errors := errors + [TooManyAreas(|nonSystem|)];
    }
    var usedRanges: set<(nat, nat)> := {};
    var i := 0;
    while i < |areas|
      invariant 0 <= i <= |areas|
      invariant errors == AreaCountCheck(areas) + ScanAreas(areas[..i]).errors
      invariant usedRanges == ScanAreas(areas[..i]).used
    {
      var areaErrors, used := CheckArea(areas[i], usedRanges);
      ValidateStep(areas, i, errors, usedRanges, areaErrors, used);
      errors := errors + areaErrors;
      usedRanges := used;
      i := i + 1;
    }
    assert areas[..i] == areas;
    valid := |errors| == 0;
  }

  /** The range and category-count checks of `validate_structure` for one area. */
  method CheckAreaHead(name: string, data: AreaData, usedRanges: set<(nat, nat)>) returns (errors: seq<Violation>)
    requires IsValidAreaName(name)
    ensures errors == AreaHeadErrors(name, data, usedRanges)
  {
    errors := [];
    var range := GetAreaRange(name).value;
    if range in usedRanges {
      errors := errors + [DuplicateAreaRange(name)];
    }
    if range !in ValidAreaRanges {
      errors := errors + [InvalidAreaRange(name)];
    }
    if |data.categories| > MaxCategoriesPerArea {
      errors := errors + [TooManyCategories(name, |data.categories|)];
    }
  }

  /**
   * One pass of the area loop of `validate_structure`: the errors one area adds and the
   * ranges used after it, given the ranges used before it.
   */
  method CheckArea(area: (string, AreaData), usedRanges: set<(nat, nat)>) returns (errors: seq<Violation>, used: set<(nat, nat)>)
    ensures AreaScan(errors, used) == AreaStep(AreaScan([], usedRanges), area)
  {
    var name, data := area.0, area.1;
    if !IsValidAreaName(name) {
      return [InvalidAreaName(name)], usedRanges;
    }
    var head := CheckAreaHead(name, data, usedRanges);
    var range := GetAreaRange(name).value;
    var categoryErrors := CheckCategories(name, Keys(data.categories));
    AreaStepValidName(AreaScan([], usedRanges), area);
    errors := head + categoryErrors;
    used := usedRanges + {range};
  }

  /** The area loop's invariant survives one more area. */
  lemma ValidateStep(areas: Structure, i: nat, errors: seq<Violation>, usedRanges: set<(nat, nat)>,
                     areaErrors: seq<Violation>, used: set<(nat, nat)>)
    requires i < |areas|
    requires errors == AreaCountCheck(areas) + ScanAreas(areas[..i]).errors
    requires usedRanges == ScanAreas(areas[..i]).used
    requires AreaScan(areaErrors, used) == AreaStep(AreaScan([], usedRanges), areas[i])
    ensures errors + areaErrors == AreaCountCheck(areas) + ScanAreas(areas[..i + 1]).errors
    ensures used == ScanAreas(areas[..i + 1]).used
  {
    var prev := ScanAreas(areas[..i]);
    ScanAreasSnoc(areas, i);
    AreaStepFrom(prev, areas[i]);
    assert ScanAreas(areas[..i + 1]).errors == prev.errors + areaErrors;
    Associative(AreaCountCheck(areas), prev.errors, areaErrors);
  }

  /** An area's step appends to the errors so far what it would add to a fresh scan with the same ranges. */
  lemma AreaStepFrom(prev: AreaScan, area: (string, AreaData))
    ensures AreaStep(prev, area).errors == prev.errors + AreaStep(AreaScan([], prev.used), area).errors
    ensures AreaStep(prev, area).used == AreaStep(AreaScan([], prev.used), area).used
  {
    if IsValidAreaName(area.0) {
      AreaStepValidName(prev, area);
      AreaStepValidName(AreaScan([], prev.used), area);
    }
  }

  lemma ScanAreasSnoc(areas: Structure, i: nat)
    requires i < |areas|
    ensures ScanAreas(areas[..i + 1]) == AreaStep(ScanAreas(areas[..i]), areas[i])
  {
    assert areas[..i + 1][..i] == areas[..i];
  }

  lemma AreaStepValidName(prev: AreaScan, area: (string, AreaData))
    requires IsValidAreaName(area.0)
    ensures AreaStep(prev, area).errors
      == prev.errors + AreaHeadErrors(area.0, area.1, prev.used) + ScanCategories(area.0, Keys(area.1.categories)).errors
    ensures AreaStep(prev, area).used == prev.used + {GetAreaRange(area.0).value}
  {
  }

  /** The category loop of `validate_structure` for one area. */
  method CheckCategories(area: string, names: seq<string>) returns (errors: seq<Violation>)
    ensures errors == ScanCategories(area, names).errors
  {
    errors := [];
    var usedNumbers: set<nat> := {};
    var j := 0;
    while j < |names|
      invariant 0 <= j <= |names|
      invariant errors == ScanCategories(area, names[..j]).errors
      invariant usedNumbers == ScanCategories(area, names[..j]).used
    {
      var category := names[j];
      assert names[..j + 1][..j] == names[..j];
      if !IsValidCategoryName(category) {
        errors := errors + [InvalidCategoryName(category, area)];
        j := j + 1;
        continue;
      }
      if !CategoryBelongsToArea(category, area) {
        errors := errors + [CategoryOutsideRange(category, area)];
      }
      var number := GetCategoryNumber(category).value;
      if number in usedNumbers {
        errors := errors + [DuplicateCategoryNumber(number, area)];
      }
      usedNumbers := usedNumbers + {number};
      j := j + 1;
    }
    assert names[..j] == names;
  }

  // ---------------------------------------------------------------- declarative rules

  predicate CategoriesWellFormed(area: string, names: seq<string>)
  {
    (forall k :: 0 <= k < |names| ==> IsValidCategoryName(names[k]) && CategoryBelongsToArea(names[k], area))
    && (forall k, l :: 0 <= k < l < |names| ==> GetCategoryNumber(names[k]) != GetCategoryNumber(names[l]))
  }

  predicate AreaWellFormed(area: (string, AreaData))
  {
    IsValidAreaName(area.0)
    && GetAreaRange(area.0).value in ValidAreaRanges
    && |area.1.categories| <= MaxCategoriesPerArea
    && CategoriesWellFormed(area.0, Keys(area.1.categories))
  }

  predicate AreasWellFormed(areas: Structure)
  {
    (forall i :: 0 <= i < |areas| ==> AreaWellFormed(areas[i]))
    && (forall i, j :: 0 <= i < j < |areas| ==> GetAreaRange(areas[i].0) != GetAreaRange(areas[j].0))
  }

  /** The rules, stated independently of the order in which the program checks them. */
  predicate WellFormed(areas: Structure)
  {
    |NonSystemNames(Keys(areas))| <= MaxAreas - 1 && AreasWellFormed(areas)
  }

  lemma {:induction false} ScanCategoriesUsed(area: string, names: seq<string>)
    ensures forall n :: n in ScanCategories(area, names).used <==>
      exists k :: 0 <= k < |names| && IsValidCategoryName(names[k]) && GetCategoryNumber(names[k]) == Some(n)
    decreases |names|
  {
    if |names| > 0 {
      var init := names[..|names| - 1];
      ScanCategoriesUsed(area, init);
      forall n ensures n in ScanCategories(area, names).used <==>
        exists k :: 0 <= k < |names| && IsValidCategoryName(names[k]) && GetCategoryNumber(names[k]) == Some(n)
      {
        if n in ScanCategories(area, names).used && n !in ScanCategories(area, init).used {
          assert IsValidCategoryName(names[|names| - 1]) && GetCategoryNumber(names[|names| - 1]) == Some(n);
        }
        if exists k :: 0 <= k < |names| && IsValidCategoryName(names[k]) && GetCategoryNumber(names[k]) == Some(n) {
          var k :| 0 <= k < |names| && IsValidCategoryName(names[k]) && GetCategoryNumber(names[k]) == Some(n);
          if k < |init| { assert init[k] == names[k]; }
        }
      }
    }
  }

  lemma {:induction false} ScanCategoriesClean(area: string, names: seq<string>)
    ensures ScanCategories(area, names).errors == [] <==> CategoriesWellFormed(area, names)
    decreases |names|
  {
    if |names| > 0 {
      var init, last := names[..|names| - 1], names[|names| - 1];
      ScanCategoriesClean(area, init);
      CategoryStepClean(area, ScanCategories(area, init), last);
      WellFormedSnoc(area, init, last);
      LastSplit(names);
      if CategoriesWellFormed(area, init) && IsValidCategoryName(last) {
        NumberUnused(area, init, last);
      }
    }
  }

  /** One step of the category loop adds no error exactly when the name is valid, in range and new. */
  lemma CategoryStepClean(area: string, prev: CategoryScan, category: string)
    ensures CategoryStep(area, prev, category).errors == [] <==>
      prev.errors == [] && IsValidCategoryName(category) && CategoryBelongsToArea(category, area)
      && GetCategoryNumber(category).value !in prev.used
  {
  }

  /** A valid last name's number is unused by the scan of the earlier names iff no earlier name has it. */
  lemma NumberUnused(area: string, init: seq<string>, last: string)
    requires IsValidCategoryName(last)
    requires forall k :: 0 <= k < |init| ==> IsValidCategoryName(init[k])
    ensures GetCategoryNumber(last).value !in ScanCategories(area, init).used <==>
      forall k :: 0 <= k < |init| ==> GetCategoryNumber(init[k]) != GetCategoryNumber(last)
  {
    ScanCategoriesUsed(area, init);
  }

  /** Well-formedness of `init + [last]`, split into that of `init` and the conditions on `last`. */
  lemma WellFormedSnoc(area: string, init: seq<string>, last: string)
    ensures CategoriesWellFormed(area, init + [last]) <==>
      && CategoriesWellFormed(area, init)
      && IsValidCategoryName(last) && CategoryBelongsToArea(last, area)
      && forall k :: 0 <= k < |init| ==> GetCategoryNumber(init[k]) != GetCategoryNumber(last)
  {
    var names := init + [last];
    assert forall k :: 0 <= k < |init| ==> names[k] == init[k];
    assert names[|init|] == last;
  }

  lemma {:induction false} ScanAreasUsed(areas: Structure)
    ensures forall r :: r in ScanAreas(areas).used <==>
      exists k :: 0 <= k < |areas| && IsValidAreaName(areas[k].0) && GetAreaRange(areas[k].0) == Some(r)
    decreases |areas|
  {
    if |areas| > 0 {
      var init := areas[..|areas| - 1];
      ScanAreasUsed(init);
      forall r ensures r in ScanAreas(areas).used <==>
        exists k :: 0 <= k < |areas| && IsValidAreaName(areas[k].0) && GetAreaRange(areas[k].0) == Some(r)
      {
        if r in ScanAreas(areas).used && r !in ScanAreas(init).used {
          assert IsValidAreaName(areas[|areas| - 1].0) && GetAreaRange(areas[|areas| - 1].0) == Some(r);
        }
        if exists k :: 0 <= k < |areas| && IsValidAreaName(areas[k].0) && GetAreaRange(areas[k].0) == Some(r) {
          var k :| 0 <= k < |areas| && IsValidAreaName(areas[k].0) && GetAreaRange(areas[k].0) == Some(r);
          if k < |init| { assert init[k] == areas[k]; }
        }
      }
    }
  }

  lemma AreaStepClean(prev: AreaScan, area: (string, AreaData))
    ensures AreaStep(prev, area).errors == [] <==>
      prev.errors == [] && AreaWellFormed(area) && GetAreaRange(area.0).value !in prev.used
  {
    ScanCategoriesClean(area.0, Keys(area.1.categories));
  }

  lemma AreaStepCleanHead(prev: AreaScan, area: (string, AreaData))
    requires AreaStep(prev, area).errors == []
    ensures prev.errors == [] && IsValidAreaName(area.0) && GetAreaRange(area.0).value !in prev.used
  {
  }

  lemma {:induction false} ScanAreasCleanNames(areas: Structure)
    requires ScanAreas(areas).errors == []
    ensures forall i :: 0 <= i < |areas| ==> IsValidAreaName(areas[i].0)
    decreases |areas|
  {
    if |areas| > 0 {
      var init, last := areas[..|areas| - 1], areas[|areas| - 1];
      AreaStepCleanHead(ScanAreas(init), last);
      ScanAreasCleanNames(init);
      EverySnoc(init, last, (a: (string, AreaData)) => IsValidAreaName(a.0));
      LastSplit(areas);
    }
  }

  lemma {:induction false} ScanAreasCleanDistinct(areas: Structure)
    requires ScanAreas(areas).errors == []
    ensures forall i, j :: 0 <= i < j < |areas| ==> GetAreaRange(areas[i].0) != GetAreaRange(areas[j].0)
    decreases |areas|
  {
    if |areas| > 0 {
      var init, last := areas[..|areas| - 1], areas[|areas| - 1];
      LastSplit(areas);
      var prev := ScanAreas(init);
      AreaStepCleanHead(prev, last);
      ScanAreasCleanDistinct(init);
      ScanAreasCleanNames(init);
      forall i | 0 <= i < |init| ensures GetAreaRange(init[i].0).Some? && GetAreaRange(init[i].0).value in prev.used {
        RangeUsed(init, i);
      }
      DistinctSnoc(init, last, prev.used);
    }
  }

  /** A range that is not among the ranges of distinct-ranged areas keeps them distinct when it is added. */
  lemma DistinctSnoc(init: Structure, last: (string, AreaData), used: set<(nat, nat)>)
    requires forall i, j :: 0 <= i < j < |init| ==> GetAreaRange(init[i].0) != GetAreaRange(init[j].0)
    requires forall i :: 0 <= i < |init| ==> GetAreaRange(init[i].0).Some? && GetAreaRange(init[i].0).value in used
    requires GetAreaRange(last.0).Some? && GetAreaRange(last.0).value !in used
    ensures forall i, j :: 0 <= i < j < |init + [last]| ==>
      GetAreaRange((init + [last])[i].0) != GetAreaRange((init + [last])[j].0)
  {
    var areas := init + [last];
    forall i, j | 0 <= i < j < |areas| ensures GetAreaRange(areas[i].0) != GetAreaRange(areas[j].0) {
      assert areas[i] == init[i];
      if j < |init| {
        assert areas[j] == init[j];
      }
    }
  }

  lemma RangeUsed(areas: Structure, i: nat)
    requires i < |areas| && IsValidAreaName(areas[i].0)
    ensures GetAreaRange(areas[i].0).value in ScanAreas(areas).used
  {
    ScanAreasUsed(areas);
  }

  /** A property of every element of `init` and of `last` holds of every element of `init + [last]`. */
  lemma EverySnoc<T>(init: seq<T>, last: T, p: T -> bool)
    requires forall i :: 0 <= i < |init| ==> p(init[i])
    requires p(last)
    ensures forall i :: 0 <= i < |init + [last]| ==> p((init + [last])[i])
  {
    forall i | 0 <= i < |init + [last]| ensures p((init + [last])[i]) {
      if i < |init| { assert (init + [last])[i] == init[i]; }
    }
  }

  lemma {:induction false} ScanAreasCleanAreas(areas: Structure)
    requires ScanAreas(areas).errors == []
    ensures forall i :: 0 <= i < |areas| ==> AreaWellFormed(areas[i])
    decreases |areas|
  {
    if |areas| > 0 {
      var init, last := areas[..|areas| - 1], areas[|areas| - 1];
      LastSplit(areas);
      AreaStepCleanArea(ScanAreas(init), last);
      ScanAreasCleanAreas(init);
      EverySnoc(init, last, AreaWellFormed);
    }
  }

  lemma AreaStepCleanArea(prev: AreaScan, area: (string, AreaData))
    requires AreaStep(prev, area).errors == []
    ensures prev.errors == [] && AreaWellFormed(area)
  {
    AreaStepClean(prev, area);
  }

  lemma ScanAreasCleanIsWellFormed(areas: Structure)
    requires ScanAreas(areas).errors == []
    ensures AreasWellFormed(areas)
  {
    ScanAreasCleanDistinct(areas);
    ScanAreasCleanAreas(areas);
  }

  lemma {:induction false} WellFormedScansClean(areas: Structure)
    requires AreasWellFormed(areas)
    ensures ScanAreas(areas).errors == []
    decreases |areas|
  {
    if |areas| > 0 {
      var init, last := areas[..|areas| - 1], areas[|areas| - 1];
      assert AreasWellFormed(init) by {
        forall i | 0 <= i < |init| ensures AreaWellFormed(init[i]) { assert init[i] == areas[i]; }
        forall i, j | 0 <= i < j < |init| ensures GetAreaRange(init[i].0) != GetAreaRange(init[j].0) {
          assert init[i] == areas[i] && init[j] == areas[j];
        }
      }
      WellFormedScansClean(init);
      var prev := ScanAreas(init);
      ScanAreasUsed(init);
      assert GetAreaRange(last.0).value !in prev.used by {
        forall k | 0 <= k < |init| ensures GetAreaRange(init[k].0) != GetAreaRange(last.0) {
          assert init[k] == areas[k];
        }
      }
      AreaStepClean(prev, last);
    }
  }

  /** A structure has no violations exactly when it follows every rule. */
  lemma ViolationsIffWellFormed(areas: Structure)
    ensures Violations(areas) == [] <==> WellFormed(areas)
  {
    if ScanAreas(areas).errors == [] { ScanAreasCleanIsWellFormed(areas); }
    if AreasWellFormed(areas) { WellFormedScansClean(areas); }
  }

  // ---------------------------------------------------------------- what is reported

  lemma {:induction false} ScanCategoriesKinds(area: string, names: seq<string>)
    ensures forall v :: v in ScanCategories(area, names).errors ==>
      v.InvalidCategoryName? || v.CategoryOutsideRange? || v.DuplicateCategoryNumber?
    decreases |names|
  {
    if |names| > 0 { ScanCategoriesKinds(area, names[..|names| - 1]); }
  }

  lemma {:induction false} ScanAreasNoCount(areas: Structure)
    ensures forall v :: v in ScanAreas(areas).errors ==> !v.TooManyAreas?
    decreases |areas|
  {
    if |areas| > 0 {
      ScanAreasNoCount(areas[..|areas| - 1]);
      ScanCategoriesKinds(areas[|areas| - 1].0, Keys(areas[|areas| - 1].1.categories));
    }
  }

  /** "Too many areas" is reported, first, exactly when there are more than nine user areas. */
  lemma TooManyAreasReported(areas: Structure)
    ensures |NonSystemNames(Keys(areas))| > MaxAreas - 1 ==>
      Violations(areas)[0] == TooManyAreas(|NonSystemNames(Keys(areas))|)
    ensures |NonSystemNames(Keys(areas))| <= MaxAreas - 1 ==>
      forall v :: v in Violations(areas) ==> !v.TooManyAreas?
  {
    ScanAreasNoCount(areas);
  }

  /** The errors found for the first `i` areas are never withdrawn by later areas. */
  lemma {:induction false} ScanAreasPrefix(areas: Structure, i: nat)
    requires i <= |areas|
    ensures ScanAreas(areas[..i]).errors <= ScanAreas(areas).errors
    decreases |areas| - i
  {
    if i < |areas| {
      ScanAreasPrefix(areas, i + 1);
      ScanAreasSnoc(areas, i);
    } else {
      assert areas[..i] == areas;
    }
  }

  /** Every well-named area with more than ten categories is reported. */
  lemma TooManyCategoriesReported(areas: Structure, i: nat)
    requires i < |areas| && IsValidAreaName(areas[i].0)
    requires |areas[i].1.categories| > MaxCategoriesPerArea
    ensures TooManyCategories(areas[i].0, |areas[i].1.categories|) in Violations(areas)
  {
    ScanAreasSnoc(areas, i);
    ScanAreasPrefix(areas, i + 1);
    var v := TooManyCategories(areas[i].0, |areas[i].1.categories|);
    var step := ScanAreas(areas[..i + 1]).errors;
    AreaStepValidName(ScanAreas(areas[..i]), areas[i]);
    assert v in step;
  }

  /** "Too many categories" is only ever reported for a well-named area that has more than ten. */
  lemma {:induction false} TooManyCategoriesOnlyIfSo(areas: Structure, a: string, n: nat)
    requires TooManyCategories(a, n) in ScanAreas(areas).errors
    ensures exists i :: 0 <= i < |areas| && areas[i].0 == a && IsValidAreaName(a)
                        && |areas[i].1.categories| == n > MaxCategoriesPerArea
    decreases |areas|
  {
    var init, last := areas[..|areas| - 1], areas[|areas| - 1];
    ScanCategoriesKinds(last.0, Keys(last.1.categories));
    if TooManyCategories(a, n) in ScanAreas(init).errors {
      TooManyCategoriesOnlyIfSo(init, a, n);
      var i :| 0 <= i < |init| && init[i].0 == a && IsValidAreaName(a)
               && |init[i].1.categories| == n > MaxCategoriesPerArea;
      assert areas[i] == init[i];
    } else {
      assert areas[|areas| - 1].0 == a;
    }
  }

  // ---------------------------------------------------------------- suggestions

  /** The numbers of the names that start with `^(\d{2})\s+`. */
  function UsedNumbers(names: seq<string>): set<nat>
  {
    if |names| == 0 then {}
    else
      UsedNumbers(names[..|names| - 1])
      + match GetCategoryNumber(names[|names| - 1]) case Some(n) => {n} case None => {}
  }

  /**
   * `suggest_next_category_number`: the smallest number of the area's range that no
   * existing category uses, or None when the name does not parse or every number is taken.
   */
  method SuggestNextCategoryNumber(area: string, existing: seq<string>) returns (r: Option<nat>)
    ensures GetAreaRange(area).None? ==> r.None?
    ensures r.Some? ==> GetAreaRange(area).Some?
    ensures r.Some? ==> GetAreaRange(area).value.0 <= r.value <= GetAreaRange(area).value.1
    ensures r.Some? ==> r.value !in UsedNumbers(existing)
    ensures r.Some? ==> forall n :: GetAreaRange(area).value.0 <= n < r.value ==> n in UsedNumbers(existing)
    ensures r.None? && GetAreaRange(area).Some? ==>
      forall n :: GetAreaRange(area).value.0 <= n <= GetAreaRange(area).value.1 ==> n in UsedNumbers(existing)
  {
    var range := GetAreaRange(area);
    if range.None? {
      return None;
    }
    var (lo, hi) := range.value;
    var used: set<nat> := {};
    var k := 0;
    while k < |existing|
      invariant 0 <= k <= |existing|
      invariant used == UsedNumbers(existing[..k])
    {
      assert existing[..k + 1][..k] == existing[..k];
      var num := GetCategoryNumber(existing[k]);
      if num.Some? {
        used := used + {num.value};
      }
      k := k + 1;
    }
    assert existing[..k] == existing;
    var num := lo;
    while num <= hi
      invariant lo <= num
      invariant forall n :: lo <= n < num ==> n in used
    {
      if num !in used {
        return Some(num);
      }
      num := num + 1;
    }
    return None;
  }

  /** The ranges of the names that start with `^(\d{2})-(\d{2})\s+`. */
  function UsedRanges(names: seq<string>): set<(nat, nat)>
  {
    if |names| == 0 then {}
    else
      UsedRanges(names[..|names| - 1])
      + match GetAreaRange(names[|names| - 1]) case Some(r) => {r} case None => {}
  }

  /** Range number `k` is free and every earlier one is used. */
  predicate FirstFreeRangeAt(existing: seq<string>, k: int)
  {
    0 <= k < |ValidAreaRanges| && ValidAreaRanges[k] !in UsedRanges(existing) &&
    forall j :: 0 <= j < k ==> ValidAreaRanges[j] in UsedRanges(existing)
  }

  /**
   * `suggest_next_area_range`: the first admissible range, in order, that no existing
   * area uses, or None when all ten are taken.
   */
  method SuggestNextAreaRange(existing: seq<string>) returns (r: Option<(nat, nat)>)
    ensures r.Some? ==> r.value !in UsedRanges(existing)
    ensures r.Some? ==> exists k :: FirstFreeRangeAt(existing, k) && ValidAreaRanges[k] == r.value
    ensures r.None? ==> forall j :: 0 <= j < |ValidAreaRanges| ==> ValidAreaRanges[j] in UsedRanges(existing)
  {
    var used: set<(nat, nat)> := {};
    var k := 0;
    while k < |existing|
      invariant 0 <= k <= |existing|
      invariant used == UsedRanges(existing[..k])
    {
      assert existing[..k + 1][..k] == existing[..k];
      var range := GetAreaRange(existing[k]);
      if range.Some? {
        used := used + {range.value};
      }
      k := k + 1;
    }
    assert existing[..k] == existing;
    var j := 0;
    while j < |ValidAreaRanges|
      invariant 0 <= j <= |ValidAreaRanges|
      invariant forall i :: 0 <= i < j ==> ValidAreaRanges[i] in used
    {
      if ValidAreaRanges[j] !in used {
        return Some(ValidAreaRanges[j]);
      }
      j := j + 1;
    }
    return None;
  }
}
