/**
 * The filing rules of the inbox organizer: keyword categorization over the
 * category/subcategory table, the descriptive file name, the numeric-suffix
 * collision loop, the search index, the processed-files ledger keyed by content
 * hash, and one pass over the inbox.
 */
module DocumentOrganizer {
  import opened Base
  import opened Text
  import opened PathNames

  datatype CategoryConfig = CategoryConfig(subcategories: seq<string>, keywords: seq<string>)

  /** The category table: category name to its subcategories and keywords. */
  type Categories = Dict<CategoryConfig>

  /** The category table of the built-in configuration, in source order. */
  const DefaultCategories: Categories := [
    ("financial", FinancialConfig),
    ("medical", MedicalConfig),
    ("legal", LegalConfig),
    ("personal", PersonalConfig),
    ("work", WorkConfig),
    ("education", EducationConfig),
    ("other", OtherConfig)
  ]

  const FinancialConfig: CategoryConfig :=
    CategoryConfig(["invoices", "receipts", "tax_documents", "bank_statements", "contracts"],
                   ["invoice", "receipt", "tax", "payment", "bank", "statement", "account"])

  const MedicalConfig: CategoryConfig :=
    CategoryConfig(["prescriptions", "lab_results", "insurance", "appointments", "records"],
                   ["medical", "doctor", "patient", "diagnosis", "prescription", "health", "hospital"])

  const LegalConfig: CategoryConfig :=
    CategoryConfig(["contracts", "agreements", "correspondence", "court", "property"],
                   ["agreement", "contract", "legal", "attorney", "court", "law", "hereby"])

  const PersonalConfig: CategoryConfig :=
    CategoryConfig(["identification", "correspondence", "certificates", "photos"],
                   ["passport", "license", "certificate", "birth", "marriage", "id"])

  const WorkConfig: CategoryConfig :=
    CategoryConfig(["reports", "presentations", "correspondence", "projects", "hr"],
                   ["report", "meeting", "project", "employee", "company", "quarterly"])

  const EducationConfig: CategoryConfig :=
    CategoryConfig(["transcripts", "certificates", "assignments", "notes"],
                   ["school", "university", "grade", "course", "student", "degree", "diploma"])

  const OtherConfig: CategoryConfig :=
    CategoryConfig(["miscellaneous"], [])

  // ---------------------------------------------------------------- keyword categorization

  /** `sum(1 for kw in keywords if kw in text_lower)`: the keywords are matched as written. */
  function Score(keywords: seq<string>, textLower: string): (n: nat)
    ensures n <= |keywords|
    ensures n == 0 <==> forall i :: 0 <= i < |keywords| ==> !Contains(textLower, keywords[i])
    decreases |keywords|
  {
    if |keywords| == 0 then 0
    else
      var kw := keywords[|keywords| - 1];
      Score(keywords[..|keywords| - 1], textLower) + (if Contains(textLower, kw) then 1 else 0)
  }

  function CategoryScore(categories: Categories, i: nat, textLower: string): nat
    requires i < |categories|
  {
    Score(categories[i].1.keywords, textLower)
  }

  /** The `scores` dictionary, in the order of the category table. */
  function Scores(categories: Categories, textLower: string): (r: seq<nat>)
    ensures |r| == |categories|
  {
    seq(|categories|, i requires 0 <= i < |categories| => CategoryScore(categories, i, textLower))
  }

  /** `max(scores, key=scores.get)`: the first position holding the largest score. */
  function ArgMax(s: seq<nat>): (i: nat)
    requires |s| > 0
    ensures i < |s|
    ensures forall j :: 0 <= j < |s| ==> s[j] <= s[i]
    ensures forall j :: 0 <= j < i ==> s[j] < s[i]
    decreases |s|
  {
    if |s| == 1 then 0
    else
      var k := ArgMax(s[..|s| - 1]);
      if s[|s| - 1] > s[k] then |s| - 1 else k
  }

  /** Category `i` has the highest score and every earlier category a lower one. */
  predicate FirstBest(categories: Categories, textLower: string, i: nat)
  {
    i < |categories| &&
    (forall j :: 0 <= j < |categories| ==> CategoryScore(categories, j, textLower) <= CategoryScore(categories, i, textLower)) &&
    (forall j :: 0 <= j < i ==> CategoryScore(categories, j, textLower) < CategoryScore(categories, i, textLower))
  }

  /** Every keyword of the table, category by category. */
  function AllKeywords(categories: Categories): (r: seq<string>)
    decreases |categories|
  {
    if |categories| == 0 then []
    else AllKeywords(categories[..|categories| - 1]) + categories[|categories| - 1].1.keywords
  }

  /** The matched keywords, each once, in the order they are first met. */
  function Matches(keywords: seq<string>, textLower: string): (r: seq<string>)
    decreases |keywords|
  {
    if |keywords| == 0 then []
    else
      var prev := Matches(keywords[..|keywords| - 1], textLower);
      var kw := keywords[|keywords| - 1];
      if Contains(textLower, kw) && kw !in prev then prev + [kw] else prev
  }

  /** The matched keywords are distinct, and they are exactly the keywords found in the text. */
  lemma {:induction false} MatchesFacts(keywords: seq<string>, textLower: string)
    ensures Distinct(Matches(keywords, textLower))
    ensures forall kw :: kw in Matches(keywords, textLower) <==> kw in keywords && Contains(textLower, kw)
    decreases |keywords|
  {
    if |keywords| > 0 {
      var rest, kw := keywords[..|keywords| - 1], keywords[|keywords| - 1];
      LastSplit(keywords);
      MatchesFacts(rest, textLower);
      var prev := Matches(rest, textLower);
      if Contains(textLower, kw) && kw !in prev {
        var r := prev + [kw];
        forall i, j | 0 <= i < j < |r| ensures r[i] != r[j] {
          if j < |prev| {
            assert r[i] == prev[i] && r[j] == prev[j];
          } else {
            assert r[i] == prev[i] && prev[i] in prev;
          }
        }
      }
    }
  }

  lemma MatchesStep(seen: seq<string>, kw: string, textLower: string)
    ensures Matches(seen + [kw], textLower) ==
      var prev := Matches(seen, textLower);
      if Contains(textLower, kw) && kw !in prev then prev + [kw] else prev
  {
    assert (seen + [kw])[..|seen|] == seen;
  }

  lemma AllKeywordsStep(categories: Categories, i: nat)
    requires i < |categories|
    ensures AllKeywords(categories[..i + 1]) == AllKeywords(categories[..i]) + categories[i].1.keywords
  {
    assert categories[..i + 1][..i] == categories[..i];
  }

  lemma ExtendByNone<T>(a: seq<T>, b: seq<T>)
    ensures a + b[..0] == a
  {
  }

  lemma ExtendByOne<T>(a: seq<T>, b: seq<T>, j: nat)
    requires j < |b|
    ensures a + b[..j] + [b[j]] == a + b[..j + 1]
  {
  }

  lemma ExtendByAll<T>(a: seq<T>, b: seq<T>)
    ensures a + b[..|b|] == a + b
  {
  }

  /** `tags[:10]` */
  function FirstTen(tags: seq<string>): (r: seq<string>)
    ensures |r| <= 10 && |r| <= |tags| && r == tags[..|r|]
    ensures |tags| <= 10 ==> r == tags
  {
    if |tags| <= 10 then tags else tags[..10]
  }

  /** `text[:200] + "..." if len(text) > 200 else text` */
  function Summary(text: string): string
  {
    if |text| > 200 then text[..200] + "..." else text
  }

  datatype KeywordAnalysis = KeywordAnalysis(category: string, subcategory: string, tags: seq<string>,
                                             confidence: string, summary: string)

  /** The category `max` settles on: the first best-scoring one, or "other" when nothing scores. */
  function BestCategory(categories: Categories, textLower: string): string
    requires |categories| > 0
  {
    var scores := Scores(categories, textLower);
    var k := ArgMax(scores);
    if scores[k] > 0 then categories[k].0 else "other"
  }

  /**
   * The category and its first subcategory: `max` of an empty table raises, and so
   * does a missing "other" category or a category without subcategories.
   */
  function KeywordChoice(text: string, categories: Categories): Outcome<(string, string)>
  {
    if |categories| == 0 then Raised("ValueError: max() arg is an empty sequence")
    else
      var best := BestCategory(categories, Lower(text));
      match Get(categories, best)
      case None => Raised("KeyError: 'other'")
      case Some(config) =>
        if |config.subcategories| == 0 then Raised("IndexError: list index out of range")
        else Returned((best, config.subcategories[0]))
  }

  /** `categorize_with_keywords` */
  function KeywordCategorize(text: string, categories: Categories): Outcome<KeywordAnalysis>
  {
    match KeywordChoice(text, categories)
    case Raised(e) => Raised(e)
    case Returned(choice) =>
      Returned(KeywordAnalysis(choice.0, choice.1, FirstTen(Matches(AllKeywords(categories), Lower(text))),
                               "low", Summary(text)))
  }

  /** Only one category can be the first best one. */
  lemma FirstBestUnique(categories: Categories, textLower: string, i: nat, j: nat)
    requires FirstBest(categories, textLower, i) && FirstBest(categories, textLower, j)
    ensures i == j
  {
    var si, sj := CategoryScore(categories, i, textLower), CategoryScore(categories, j, textLower);
    assert si <= sj && sj <= si;
  }

  /** `max` picks the first best category. */
  lemma ArgMaxFirstBest(categories: Categories, textLower: string)
    requires |categories| > 0
    ensures FirstBest(categories, textLower, ArgMax(Scores(categories, textLower)))
  {
    var s := Scores(categories, textLower);
    var k := ArgMax(s);
    assert s[k] == CategoryScore(categories, k, textLower);
    forall j | 0 <= j < |categories|
      ensures CategoryScore(categories, j, textLower) <= CategoryScore(categories, k, textLower)
    {
      assert s[j] == CategoryScore(categories, j, textLower);
    }
    forall j | 0 <= j < k
      ensures CategoryScore(categories, j, textLower) < CategoryScore(categories, k, textLower)
    {
      assert s[j] == CategoryScore(categories, j, textLower);
    }
  }

  /** When some keyword matches, the first best-scoring category wins, with its first subcategory. */
  lemma KeywordBestCategory(text: string, categories: Categories, i: nat)
    requires UniqueKeys(categories)
    requires FirstBest(categories, Lower(text), i) && CategoryScore(categories, i, Lower(text)) > 0
    ensures KeywordChoice(text, categories).Raised? <==> |categories[i].1.subcategories| == 0
    ensures KeywordChoice(text, categories).Returned? ==>
      KeywordChoice(text, categories).value == (categories[i].0, categories[i].1.subcategories[0])
  {
    var t := Lower(text);
    var scores := Scores(categories, t);
    var k := ArgMax(scores);
    ArgMaxFirstBest(categories, t);
    FirstBestUnique(categories, t, i, k);
    FindAt(categories, categories[i].0, i);
  }

  /** When no keyword matches at all, the answer is the "other" category, if the table has one. */
  lemma KeywordOtherCategory(text: string, categories: Categories)
    requires forall kw :: kw in AllKeywords(categories) ==> !Contains(Lower(text), kw)
    ensures KeywordChoice(text, categories).Returned? <==>
      |categories| > 0 && HasKey(categories, "other") && |Get(categories, "other").value.subcategories| > 0
    ensures KeywordChoice(text, categories).Returned? ==>
      KeywordChoice(text, categories).value == ("other", Get(categories, "other").value.subcategories[0])
  {
    var t := Lower(text);
    if |categories| > 0 {
      var k := ArgMax(Scores(categories, t));
      AllKeywordsHold(categories, k);
      assert CategoryScore(categories, k, t) == 0;
    }
  }

  /** Each category's keywords are among the table's keywords. */
  lemma {:induction false} AllKeywordsHold(categories: Categories, i: nat)
    requires i < |categories|
    ensures forall kw :: kw in categories[i].1.keywords ==> kw in AllKeywords(categories)
    decreases |categories|
  {
    if i < |categories| - 1 {
      var front := categories[..|categories| - 1];
      AllKeywordsHold(front, i);
      assert front[i] == categories[i];
    }
  }

  /**
   * Whatever category wins, the confidence is "low", the tags are at most ten distinct
   * matched keywords in first-seen order, and the summary is the text cut to 200 characters.
   */
  lemma KeywordAnalysisFields(text: string, categories: Categories)
    requires KeywordCategorize(text, categories).Returned?
    ensures KeywordChoice(text, categories).Returned?
    ensures var a := KeywordCategorize(text, categories).value;
      (a.category, a.subcategory) == KeywordChoice(text, categories).value &&
      a.confidence == "low" &&
      |a.tags| <= 10 &&
      Distinct(a.tags) &&
      (forall kw :: kw in a.tags ==> kw in AllKeywords(categories) && Contains(Lower(text), kw)) &&
      a.tags == Matches(AllKeywords(categories), Lower(text))[..|a.tags|]
    ensures var a := KeywordCategorize(text, categories).value;
      (|text| <= 200 ==> a.summary == text) && (|text| > 200 ==> a.summary == text[..200] + "...")
  {
    var tags := Matches(AllKeywords(categories), Lower(text));
    MatchesFacts(AllKeywords(categories), Lower(text));
    var a := KeywordCategorize(text, categories).value;
    assert a.tags == FirstTen(tags);
    assert forall i :: 0 <= i < |a.tags| ==> a.tags[i] == tags[i];
    forall kw | kw in a.tags ensures kw in tags {
    }
  }

  /** With fewer than eleven matched keywords, every one of them becomes a tag. */
  lemma KeywordTagsComplete(text: string, categories: Categories, kw: string)
    requires KeywordCategorize(text, categories).Returned?
    requires |Matches(AllKeywords(categories), Lower(text))| <= 10
    requires kw in AllKeywords(categories) && Contains(Lower(text), kw)
    ensures kw in KeywordCategorize(text, categories).value.tags
  {
    MatchesFacts(AllKeywords(categories), Lower(text));
  }

  /** A table with an "other" category and no category without subcategories. */
  predicate Answering(categories: Categories)
  {
    HasKey(categories, "other") && forall i :: 0 <= i < |categories| ==> |categories[i].1.subcategories| > 0
  }

  /** Such a table always yields an answer. */
  lemma AnsweringTable(text: string, categories: Categories)
    requires Answering(categories)
    ensures KeywordChoice(text, categories).Returned?
    ensures KeywordCategorize(text, categories).Returned?
  {
    var k := ArgMax(Scores(categories, Lower(text)));
    var best := BestCategory(categories, Lower(text));
    assert Find(categories, categories[k].0).Some?;
  }

  /** The built-in table is one. */
  lemma DefaultCategoriesAnswer()
    ensures Answering(DefaultCategories)
  {
    var d := DefaultCategories;
    forall j | 0 <= j < 6 ensures d[j].0 != "other" {
      if j == 2 {
        assert d[j].0[0] != "other"[0];
      } else {
        assert |d[j].0| != |"other"|;
      }
    }
    FindAt(d, "other", 6);
  }


  /** `categorize_with_keywords`, with its scoring loop and its nested tag loop. */
  method CategorizeWithKeywords(text: string, categories: Categories) returns (r: Outcome<KeywordAnalysis>)
    ensures r == KeywordCategorize(text, categories)
  {
    var t := Lower(text);
    var scores: seq<nat> := [];
    var i := 0;
    while i < |categories|
      invariant 0 <= i <= |categories|
      invariant |scores| == i
      invariant forall j :: 0 <= j < i ==> scores[j] == CategoryScore(categories, j, t)
    {
      scores := scores + [Score(categories[i].1.keywords, t)];
      i := i + 1;
    }
    assert scores == Scores(categories, t);
    if |scores| == 0 {
      return Raised("ValueError: max() arg is an empty sequence");
    }
    var k := ArgMax(scores);
    var best := if scores[k] > 0 then categories[k].0 else "other";
    assert best == BestCategory(categories, t);

    var tags := CollectTags(categories, t);

    match Get(categories, best)
    case None => r := Raised("KeyError: 'other'");
    case Some(config) =>
      if |config.subcategories| == 0 {
        r := Raised("IndexError: list index out of range");
      } else {
        r := Returned(KeywordAnalysis(best, config.subcategories[0], FirstTen(tags), "low", Summary(text)));
      }
  }

  /** The tag loop of `categorize_with_keywords`: every keyword of every category, in order. */
  method CollectTags(categories: Categories, t: string) returns (tags: seq<string>)
    ensures tags == Matches(AllKeywords(categories), t)
  {
    tags := [];
    var i := 0;
    while i < |categories|
      invariant 0 <= i <= |categories|
      invariant tags == Matches(AllKeywords(categories[..i]), t)
    {
      var keywords := categories[i].1.keywords;
      ghost var before := AllKeywords(categories[..i]);
      var j := 0;
      ExtendByNone(before, keywords);
      while j < |keywords|
        invariant 0 <= j <= |keywords|
        invariant tags == Matches(before + keywords[..j], t)
      {
        var kw := keywords[j];
        MatchesStep(before + keywords[..j], kw, t);
        ExtendByOne(before, keywords, j);
        if Contains(t, kw) && kw !in tags {
          tags := tags + [kw];
        }
        j := j + 1;
      }
      ExtendByAll(before, keywords);
      AllKeywordsStep(categories, i);
      i := i + 1;
    }
    assert categories[..i] == categories;
  }

  /** The result dictionary of the keyword classifier. */
  function KeywordDict(a: KeywordAnalysis): Dict<Json>
  {
    [ ("category", JStr(a.category)), ("subcategory", JStr(a.subcategory)),
      ("tags", JArr(seq(|a.tags|, i requires 0 <= i < |a.tags| => JStr(a.tags[i])))),
      ("confidence", JStr(a.confidence)), ("summary", JStr(a.summary)) ]
  }

  // ---------------------------------------------------------------- file names

  /** Keep letters, digits and `_`, and turn every other character into `_`. */
  function CleanName(s: string): (r: string)
    ensures |r| == |s|
    ensures forall i :: 0 <= i < |r| ==> IsAlnum(r[i]) || r[i] == '_'
    ensures forall i :: 0 <= i < |r| ==> (IsAlnum(s[i]) || s[i] == '_' <==> r[i] == s[i])
  {
    seq(|s|, i requires 0 <= i < |s| => if IsAlnum(s[i]) || s[i] == '_' then s[i] else '_')
  }

  /** `date_mentioned` without dashes, or today's YYYYMMDD, and an underscore. */
  function DatePart(analysis: Dict<Json>, today: string): (r: string)
    ensures |r| > 0 && r[|r| - 1] == '_'
  {
    var date := StrOrEmpty(analysis, "date_mentioned");
    if |date| > 0 then Replace(date, "-", "") + "_" else today + "_"
  }

  /** The first entity, else the first two tags, else the original stem, cut to 30 characters. */
  function RawNamePart(originalName: string, analysis: Dict<Json>): (r: string)
    ensures |r| <= 30
  {
    var entities := StrList(analysis, "entities");
    var tags := StrList(analysis, "tags");
    if |entities| > 0 then Take(Replace(entities[0], " ", "_"), 30)
    else if |tags| > 0 then Take(Join(if |tags| <= 2 then tags else tags[..2], "_"), 30)
    else Take(Stem(originalName), 30)
  }

  function NamePart(originalName: string, analysis: Dict<Json>): (r: string)
    ensures |r| <= 30
    ensures forall i :: 0 <= i < |r| ==> IsAlnum(r[i]) || r[i] == '_'
  {
    CleanName(RawNamePart(originalName, analysis))
  }

  /** `generate_filename`: date part, name part and the original extension. */
  function GenerateFilename(originalName: string, analysis: Dict<Json>, today: string): (r: string)
    ensures EndsWith(r, Suffix(originalName))
    ensures StartsWith(r, DatePart(analysis, today))
  {
    var d, n, x := DatePart(analysis, today), NamePart(originalName, analysis), Suffix(originalName);
    assert (d + n + x)[..|d|] == d;
    assert (d + n + x)[|d + n + x| - |x|..] == x;
    d + n + x
  }

  /** The new name keeps the original extension, and its stem is the date part and the name part. */
  lemma FilenameKeepsExtension(originalName: string, analysis: Dict<Json>, today: string)
    requires Suffix(originalName) != ""
    ensures Suffix(GenerateFilename(originalName, analysis, today)) == Suffix(originalName)
    ensures Stem(GenerateFilename(originalName, analysis, today)) ==
      DatePart(analysis, today) + NamePart(originalName, analysis)
  {
    SuffixSplit(DatePart(analysis, today) + NamePart(originalName, analysis), Suffix(originalName));
  }

  /** The name part survives a second cleaning unchanged. */
  lemma CleanNameIdempotent(s: string)
    ensures CleanName(CleanName(s)) == CleanName(s)
  {
  }

  // ---------------------------------------------------------------- name collisions

  /** The `k`-th name `organize_file` tries: the name itself, then `stem_1.ext`, `stem_2.ext`, ... */
  function Candidate(name: string, k: nat): string
  {
    if k == 0 then name else Stem(name) + "_" + NatStr(k) + Suffix(name)
  }

  /** Different counters give different names. */
  lemma CandidatesDistinct(name: string, a: nat, b: nat)
    requires a != b
    ensures Candidate(name, a) != Candidate(name, b)
  {
    StemSuffix(name);
    if a != 0 && b != 0 && |NatStr(a)| == |NatStr(b)| {
      var head, tail := Stem(name) + "_", Suffix(name);
      var ca, cb := Candidate(name, a), Candidate(name, b);
      assert ca[|head|..|ca| - |tail|] == NatStr(a);
      assert cb[|head|..|cb| - |tail|] == NatStr(b);
      if ca == cb {
        NatStrInjective(a, b);
      }
    }
  }

  /** `k + 1` distinct candidates that all exist need at least `k + 1` names. */
  lemma {:induction false} CandidatesTaken(existing: set<string>, name: string, k: nat)
    requires forall j :: 0 <= j <= k ==> Candidate(name, j) in existing
    ensures k + 1 <= |existing|
    decreases k
  {
    if k > 0 {
      var rest := existing - {Candidate(name, k)};
      forall j | 0 <= j <= k - 1 ensures Candidate(name, j) in rest {
        CandidatesDistinct(name, j, k);
      }
      CandidatesTaken(rest, name, k - 1);
    }
  }

  /** The first counter, from `k` on, whose candidate is free. */
  function FirstFree(existing: set<string>, name: string, k: nat): (r: nat)
    requires forall j :: 0 <= j < k ==> Candidate(name, j) in existing
    ensures k <= r && Candidate(name, r) !in existing
    ensures forall j :: 0 <= j < r ==> Candidate(name, j) in existing
    decreases |existing| - k
  {
    if Candidate(name, k) !in existing then k
    else
      CandidatesTaken(existing, name, k);
      FirstFree(existing, name, k + 1)
  }

  /** The name the file is moved to: the first candidate that does not exist yet. */
  function FreeName(existing: set<string>, name: string): (r: string)
    ensures r !in existing
  {
    Candidate(name, FirstFree(existing, name, 0))
  }

  /** The `while dest_path.exists()` loop of `organize_file`. */
  method ResolveCollision(existing: set<string>, name: string) returns (r: string)
    ensures r == FreeName(existing, name)
  {
    var k := 0;
    r := name;
    while r in existing
      invariant r == Candidate(name, k)
      invariant forall j :: 0 <= j < k ==> Candidate(name, j) in existing
      decreases |existing| - k
    {
      CandidatesTaken(existing, name, k);
      k := k + 1;
      r := Stem(name) + "_" + NatStr(k) + Suffix(name);
    }
    var f := FirstFree(existing, name, 0);
    assert k == f;
  }

  // ---------------------------------------------------------------- files, index and ledger

  /** Where a file lives: the inbox, a category/subcategory folder, or the `_failed` folder. */
  datatype Loc =
    | Inbox(name: string)
    | Filed(category: string, subcategory: string, name: string)
    | Quarantined(name: string)

  /** A document's bytes, or a JSON sidecar. */
  datatype Content = Data(bytes: Bytes) | Sidecar(meta: Dict<Json>)

  /** A JSON file on disk: absent, undecodable, or holding a value. */
  datatype Stored<T> = Missing | Corrupt | Present(value: T)

  datatype LedgerEntry = LedgerEntry(originalName: string, destination: string, processedAt: string)

  /** What text extraction reports. */
  datatype Extraction = Extraction(success: bool, text: string)

  /** The dictionary `process_file` returns. */
  datatype FileResult =
    | ExtractionFailed
    | Organized(original: string, destination: string, analysis: Dict<Json>)

  /**
   * `load_processed_files` and `load_search_index`: a missing or undecodable file reads as
   * `empty` (an empty ledger, an empty index).
   */
  function LoadOr<T>(file: Stored<T>, empty: T): (r: T)
    ensures !file.Present? ==> r == empty
    ensures file.Present? ==> r == file.value
  {
    if file.Present? then file.value else empty
  }

  /** `analysis.get(key)`, with a JSON null for an absent key. */
  function JsonOr(analysis: Dict<Json>, key: string, default: Json): Json
  {
    var g: Option<Json> := Get(analysis, key);
    if g.Some? then g.value else default
  }

  function IndexEntry(docPath: string, originalName: string, analysis: Dict<Json>, text: string, now: string): Dict<Json>
  {
    [ ("file_path", JStr(docPath)), ("original_filename", JStr(originalName)),
      ("category", JsonOr(analysis, "category", JNull)), ("subcategory", JsonOr(analysis, "subcategory", JNull)),
      ("tags", JsonOr(analysis, "tags", JArr([]))), ("summary", JsonOr(analysis, "summary", JStr(""))),
      ("entities", JsonOr(analysis, "entities", JArr([]))), ("date_mentioned", JsonOr(analysis, "date_mentioned", JNull)),
      ("indexed_at", JStr(now)), ("extracted_text", JStr(text)) ]
  }

  /** The `.meta.json` sidecar written by `create_metadata_file`. */
  function SidecarOf(analysis: Dict<Json>, originalName: string, text: string, now: string): Dict<Json>
  {
    [ ("original_filename", JStr(originalName)), ("organized_date", JStr(now)),
      ("category", JsonOr(analysis, "category", JNull)), ("subcategory", JsonOr(analysis, "subcategory", JNull)),
      ("tags", JsonOr(analysis, "tags", JArr([]))), ("summary", JsonOr(analysis, "summary", JStr(""))),
      ("confidence", JsonOr(analysis, "confidence", JStr(""))), ("entities", JsonOr(analysis, "entities", JArr([]))),
      ("date_mentioned", JsonOr(analysis, "date_mentioned", JNull)), ("extracted_text", JStr(text)) ]
  }

  /** `mark_file_processed`: only the entry for `hash` is set. */
  function MarkFileProcessed(processed: Dict<LedgerEntry>, hash: string, entry: LedgerEntry): (r: Dict<LedgerEntry>)
    ensures Get(r, hash) == Some(entry)
    ensures forall h :: h != hash ==> Get(r, h) == Get(processed, h)
    ensures HasKey(processed, hash) ==> Keys(r) == Keys(processed)
    ensures !HasKey(processed, hash) ==> Keys(r) == Keys(processed) + [hash]
  {
    var r := Put(processed, hash, entry);
    assert !HasKey(processed, hash) ==> Keys(r) == Keys(processed) + [hash];
    r
  }

  /** The folder `organize_file` files a document under. */
  function Folder(analysis: Dict<Json>): (string, string)
  {
    (StrOr(analysis, "category", "other"), StrOr(analysis, "subcategory", "miscellaneous"))
  }

  /** The names already present in one category/subcategory folder. */
  function NamesIn(files: map<Loc, Content>, category: string, subcategory: string): set<string>
  {
    set l | l in files && l.Filed? && l.category == category && l.subcategory == subcategory :: l.name
  }

  /** The name the document is moved to. */
  function Target(files: map<Loc, Content>, name: string, analysis: Dict<Json>, today: string): (r: string)
    ensures r !in NamesIn(files, Folder(analysis).0, Folder(analysis).1)
  {
    var (category, subcategory) := Folder(analysis);
    FreeName(NamesIn(files, category, subcategory), GenerateFilename(name, analysis, today))
  }

  /** The files after `organize_file`: the document moved to its folder, its sidecar beside it. */
  function Organize(files: map<Loc, Content>, name: string, analysis: Dict<Json>, text: string,
                    today: string, now: string): map<Loc, Content>
    requires Inbox(name) in files
  {
    var (category, subcategory) := Folder(analysis);
    var target := Target(files, name, analysis, today);
    (files - {Inbox(name)})[Filed(category, subcategory, target) := files[Inbox(name)]]
                           [Filed(category, subcategory, target + ".meta.json") := Sidecar(SidecarOf(analysis, name, text, now))]
  }

  /**
   * Organizing moves the document out of the inbox to a place nothing occupied,
   * and touches nothing but that place and the sidecar's.
   */
  lemma OrganizeMoves(files: map<Loc, Content>, name: string, analysis: Dict<Json>, text: string,
                      today: string, now: string)
    requires Inbox(name) in files
    ensures var after := Organize(files, name, analysis, text, today, now);
      var dest := Filed(Folder(analysis).0, Folder(analysis).1, Target(files, name, analysis, today));
      Inbox(name) !in after && dest !in files && dest in after && after[dest] == files[Inbox(name)]

    ensures var after := Organize(files, name, analysis, text, today, now);
      var dest := Filed(Folder(analysis).0, Folder(analysis).1, Target(files, name, analysis, today));
      var sidecar := Filed(Folder(analysis).0, Folder(analysis).1, Target(files, name, analysis, today) + ".meta.json");
      forall l :: l in files && l != Inbox(name) && l != sidecar ==> l in after && after[l] == files[l]
    ensures forall m :: Inbox(m) in Organize(files, name, analysis, text, today, now) ==> Inbox(m) in files
  {
    var (category, subcategory) := Folder(analysis);
    var target := Target(files, name, analysis, today);
    var dest := Filed(category, subcategory, target);
    var sidecar := Filed(category, subcategory, target + ".meta.json");
    assert dest != sidecar by {
      assert |target + ".meta.json"| > |target|;
    }
    assert dest !in files;
    MoveFacts(files, Inbox(name), dest, sidecar, Sidecar(SidecarOf(analysis, name, text, now)));
  }

  /** Only the inbox file `name` may leave the inbox; every other one stays as it was, and none arrives. */
  ghost predicate InboxKept(before: map<Loc, Content>, after: map<Loc, Content>, name: string)
  {
    && (forall m :: m != name && Inbox(m) in before ==> Inbox(m) in after && after[Inbox(m)] == before[Inbox(m)])
    && (forall m :: Inbox(m) in after ==> Inbox(m) in before)
  }

  /** Quarantining an inbox file keeps the rest of the inbox. */
  lemma QuarantineKeepsInbox(files: map<Loc, Content>, name: string)
    requires Inbox(name) in files
    ensures var after := (files - {Inbox(name)})[Quarantined(name) := files[Inbox(name)]];
      InboxKept(files, after, name) && Inbox(name) !in after
  {
  }

  /** Deleting an inbox file keeps the rest of the inbox. */
  lemma DeleteKeepsInbox(files: map<Loc, Content>, name: string)
    ensures InboxKept(files, files - {Inbox(name)}, name) && Inbox(name) !in files - {Inbox(name)}
  {
  }

  /** Organizing an inbox file keeps the rest of the inbox. */
  lemma OrganizeKeepsInbox(files: map<Loc, Content>, name: string, analysis: Dict<Json>, text: string,
                           today: string, now: string)
    requires Inbox(name) in files
    ensures var after := Organize(files, name, analysis, text, today, now);
      InboxKept(files, after, name) && Inbox(name) !in after
  {
    OrganizeMoves(files, name, analysis, text, today, now);
  }

  /**
   * The inbox after visiting `names[..i]` of a pass that started from `orig`: the files not yet
   * visited and the unsupported ones keep their content, and the supported ones have left.
   */
  ghost predicate PassFiles(orig: map<Loc, Content>, files: map<Loc, Content>, names: seq<string>, supported: seq<bool>, i: nat)
  {
    && i <= |names| <= |supported|
    && (forall j :: 0 <= j < |names| ==> Inbox(names[j]) in orig)
    && (forall j :: i <= j < |names| ==> Inbox(names[j]) in files && files[Inbox(names[j])] == orig[Inbox(names[j])])
    && (forall j :: 0 <= j < i && !supported[j] ==>
         Inbox(names[j]) in files && files[Inbox(names[j])] == orig[Inbox(names[j])])
    && (forall j :: 0 <= j < i && supported[j] ==> Inbox(names[j]) !in files)
  }

  /** The ledger after visiting `names[..i]`: the `known` entries are kept, and each new one is the hash of a visited supported file. */
  ghost predicate PassLedger(orig: map<Loc, Content>, names: seq<string>, supported: seq<bool>, i: nat, hash: Content -> string,
                             known: Dict<LedgerEntry>, processed: Dict<LedgerEntry>)
    requires i <= |names| <= |supported| && forall j :: 0 <= j < |names| ==> Inbox(names[j]) in orig
  {
    && (forall h :: HasKey(known, h) ==> Get(processed, h) == Get(known, h))
    && (forall h :: HasKey(processed, h) && !HasKey(known, h) ==>
         exists j :: 0 <= j < i && supported[j] && h == hash(orig[Inbox(names[j])]))
  }

  /** The entry `mark_file_processed` writes for the inbox file `name` moved to `destination`. */
  function EntryFor(name: string, x: FileResult, now: string): LedgerEntry
    requires x.Organized?
  {
    LedgerEntry(name, x.destination, now)
  }

  /**
   * The results after visiting `names[..i]`: each organized file is a visited one whose hash
   * was not known, and the ledger holds its entry under that hash.
   */
  ghost predicate PassResults(orig: map<Loc, Content>, names: seq<string>, i: nat, hash: Content -> string, inboxDir: string,
                              known: Dict<LedgerEntry>, processed: Dict<LedgerEntry>, now: string, results: seq<FileResult>)
    requires i <= |names| && forall j :: 0 <= j < |names| ==> Inbox(names[j]) in orig
  {
    forall x :: x in results && x.Organized? ==>
      exists j :: 0 <= j < i && x.original == JoinPath(inboxDir, names[j]) && !HasKey(known, hash(orig[Inbox(names[j])]))
        && Get(processed, hash(orig[Inbox(names[j])])) == Some(EntryFor(names[j], x, now))
  }

  /** Each ledger entry added by the first `i` visits is the entry of an organized result of a supported file. */
  ghost predicate PassRecorded(orig: map<Loc, Content>, names: seq<string>, supported: seq<bool>, i: nat, hash: Content -> string,
                               inboxDir: string, known: Dict<LedgerEntry>, processed: Dict<LedgerEntry>, now: string,
                               results: seq<FileResult>)
    requires i <= |names| <= |supported| && forall j :: 0 <= j < |names| ==> Inbox(names[j]) in orig
  {
    forall h :: HasKey(processed, h) && !HasKey(known, h) ==>
      exists j, x :: 0 <= j < i && supported[j] && x in results && x.Organized? && x.original == JoinPath(inboxDir, names[j])
        && h == hash(orig[Inbox(names[j])]) && Get(processed, h) == Some(EntryFor(names[j], x, now))
  }

  /** Processing the supported `names[i]` keeps the inbox facts of the pass. */
  lemma StillGone(orig: map<Loc, Content>, before: map<Loc, Content>, after: map<Loc, Content>,
                  names: seq<string>, supported: seq<bool>, i: nat)
    requires PassFiles(orig, before, names, supported, i) && i < |names| && supported[i]
    requires forall j, k :: 0 <= j < k < |names| ==> names[j] != names[k]
    requires InboxKept(before, after, names[i]) && Inbox(names[i]) !in after
    ensures PassFiles(orig, after, names, supported, i + 1)
  {
    forall j | i + 1 <= j < |names| ensures Inbox(names[j]) in after && after[Inbox(names[j])] == orig[Inbox(names[j])] {
      assert names[j] != names[i];
    }
    forall j | 0 <= j < i && !supported[j] ensures Inbox(names[j]) in after && after[Inbox(names[j])] == orig[Inbox(names[j])] {
      assert names[j] != names[i];
    }
  }

  /** Whatever visiting the supported `names[i]` does, the unsupported files keep their content. */
  lemma KeptOnRaise(orig: map<Loc, Content>, before: map<Loc, Content>, after: map<Loc, Content>,
                    names: seq<string>, supported: seq<bool>, i: nat)
    requires PassFiles(orig, before, names, supported, i) && i < |names| && supported[i]
    requires forall j :: 0 <= j < |names| ==> supported[j] == Supported(names[j])
    requires forall j, k :: 0 <= j < k < |names| ==> names[j] != names[k]
    requires InboxKept(before, after, names[i])
    ensures forall j :: 0 <= j < |names| && !Supported(names[j]) ==>
      Inbox(names[j]) in after && after[Inbox(names[j])] == orig[Inbox(names[j])]
  {
    forall j | 0 <= j < |names| && !Supported(names[j])
      ensures Inbox(names[j]) in after && after[Inbox(names[j])] == orig[Inbox(names[j])]
    {
      assert !supported[j] && names[j] != names[i];
    }
  }

  /** Which of `names` the pass processes. */
  ghost function SupportedFlags(names: seq<string>): (r: seq<bool>)
    ensures |r| == |names| && forall j :: 0 <= j < |names| ==> r[j] == Supported(names[j])
  {
    seq(|names|, j requires 0 <= j < |names| => Supported(names[j]))
  }

  /** Skipping the unsupported `names[i]` keeps the inbox facts of the pass. */
  lemma SkipKeepsGone(orig: map<Loc, Content>, files: map<Loc, Content>, names: seq<string>, supported: seq<bool>, i: nat)
    requires PassFiles(orig, files, names, supported, i) && i < |names| && !supported[i]
    ensures PassFiles(orig, files, names, supported, i + 1)
  {
  }

  /** Skipping a file keeps the ledger and result facts of the pass. */
  lemma SkipKeepsRecords(orig: map<Loc, Content>, names: seq<string>, supported: seq<bool>, i: nat, hash: Content -> string,
                         inboxDir: string, known: Dict<LedgerEntry>, processed: Dict<LedgerEntry>, now: string,
                         results: seq<FileResult>)
    requires i < |names| <= |supported| && forall j :: 0 <= j < |names| ==> Inbox(names[j]) in orig
    requires PassLedger(orig, names, supported, i, hash, known, processed)
    requires PassResults(orig, names, i, hash, inboxDir, known, processed, now, results)
    requires PassRecorded(orig, names, supported, i, hash, inboxDir, known, processed, now, results)
    ensures PassLedger(orig, names, supported, i + 1, hash, known, processed)
    ensures PassResults(orig, names, i + 1, hash, inboxDir, known, processed, now, results)
    ensures PassRecorded(orig, names, supported, i + 1, hash, inboxDir, known, processed, now, results)
  {
    forall h | HasKey(processed, h) && !HasKey(known, h)
      ensures exists j :: 0 <= j < i + 1 && supported[j] && h == hash(orig[Inbox(names[j])])
    {
      var j :| 0 <= j < i && supported[j] && h == hash(orig[Inbox(names[j])]);
    }
    forall x | x in results && x.Organized?
      ensures exists j :: 0 <= j < i + 1 && x.original == JoinPath(inboxDir, names[j]) && !HasKey(known, hash(orig[Inbox(names[j])]))
                && Get(processed, hash(orig[Inbox(names[j])])) == Some(EntryFor(names[j], x, now))
    {
      var j :| 0 <= j < i && x.original == JoinPath(inboxDir, names[j]) && !HasKey(known, hash(orig[Inbox(names[j])]))
        && Get(processed, hash(orig[Inbox(names[j])])) == Some(EntryFor(names[j], x, now));
    }
    forall h | HasKey(processed, h) && !HasKey(known, h)
      ensures exists j, x :: 0 <= j < i + 1 && supported[j] && x in results && x.Organized? && x.original == JoinPath(inboxDir, names[j])
                && h == hash(orig[Inbox(names[j])]) && Get(processed, h) == Some(EntryFor(names[j], x, now))
    {
      var j, x :| 0 <= j < i && supported[j] && x in results && x.Organized? && x.original == JoinPath(inboxDir, names[j])
        && h == hash(orig[Inbox(names[j])]) && Get(processed, h) == Some(EntryFor(names[j], x, now));
    }
  }

  /** Visiting the supported `names[i]` keeps the ledger facts of the pass. */
  lemma LedgerStep(orig: map<Loc, Content>, names: seq<string>, supported: seq<bool>, i: nat, hash: Content -> string,
                   known: Dict<LedgerEntry>, processed: Dict<LedgerEntry>, marked: Dict<LedgerEntry>)
    requires i < |names| <= |supported| && supported[i]
    requires forall j :: 0 <= j < |names| ==> Inbox(names[j]) in orig
    requires PassLedger(orig, names, supported, i, hash, known, processed)
    requires forall h :: HasKey(processed, h) ==> Get(marked, h) == Get(processed, h)
    requires forall h :: HasKey(marked, h) && !HasKey(processed, h) ==> h == hash(orig[Inbox(names[i])])
    ensures PassLedger(orig, names, supported, i + 1, hash, known, marked)
  {
    forall h | HasKey(known, h) ensures Get(marked, h) == Get(known, h) {
      assert HasKey(processed, h);
    }
    forall h | HasKey(marked, h) && !HasKey(known, h)
      ensures exists j :: 0 <= j < i + 1 && supported[j] && h == hash(orig[Inbox(names[j])])
    {
      if !HasKey(processed, h) {
        assert supported[i] && h == hash(orig[Inbox(names[i])]);
      } else {
        var j :| 0 <= j < i && supported[j] && h == hash(orig[Inbox(names[j])]);
      }
    }
  }

  /**
   * Visiting the supported `names[i]` keeps the result facts of the pass: an organized result
   * is new, and `marked` holds its entry; a new key of `marked` is that result's hash.
   */
  lemma ResultStep(orig: map<Loc, Content>, names: seq<string>, supported: seq<bool>, i: nat, hash: Content -> string,
                   inboxDir: string, known: Dict<LedgerEntry>, processed: Dict<LedgerEntry>, marked: Dict<LedgerEntry>,
                   now: string, results: seq<FileResult>, next: seq<FileResult>)
    requires i < |names| <= |supported| && supported[i]
    requires forall j :: 0 <= j < |names| ==> Inbox(names[j]) in orig
    requires PassLedger(orig, names, supported, i, hash, known, processed)
    requires PassResults(orig, names, i, hash, inboxDir, known, processed, now, results)
    requires PassRecorded(orig, names, supported, i, hash, inboxDir, known, processed, now, results)
    requires forall h :: HasKey(processed, h) ==> Get(marked, h) == Get(processed, h)
    requires forall x :: x in next && x !in results && x.Organized? ==>
      && x.original == JoinPath(inboxDir, names[i]) && !HasKey(processed, hash(orig[Inbox(names[i])]))
      && Get(marked, hash(orig[Inbox(names[i])])) == Some(EntryFor(names[i], x, now))
    requires forall h :: HasKey(marked, h) && !HasKey(processed, h) ==>
      exists x :: x in next && x.Organized? && x.original == JoinPath(inboxDir, names[i])
        && h == hash(orig[Inbox(names[i])]) && Get(marked, h) == Some(EntryFor(names[i], x, now))
    requires forall x :: x in results ==> x in next
    ensures PassResults(orig, names, i + 1, hash, inboxDir, known, marked, now, next)
    ensures PassRecorded(orig, names, supported, i + 1, hash, inboxDir, known, marked, now, next)
  {
    forall x | x in next && x.Organized?
      ensures exists j :: 0 <= j < i + 1 && x.original == JoinPath(inboxDir, names[j]) && !HasKey(known, hash(orig[Inbox(names[j])]))
                && Get(marked, hash(orig[Inbox(names[j])])) == Some(EntryFor(names[j], x, now))
    {
      if x !in results {
        var h := hash(orig[Inbox(names[i])]);
        assert HasKey(known, h) ==> Get(processed, h) == Get(known, h);
      } else {
        var j :| 0 <= j < i && x.original == JoinPath(inboxDir, names[j]) && !HasKey(known, hash(orig[Inbox(names[j])]))
          && Get(processed, hash(orig[Inbox(names[j])])) == Some(EntryFor(names[j], x, now));
        assert HasKey(processed, hash(orig[Inbox(names[j])]));
      }
    }
    forall h | HasKey(marked, h) && !HasKey(known, h)
      ensures exists j, x :: 0 <= j < i + 1 && supported[j] && x in next && x.Organized? && x.original == JoinPath(inboxDir, names[j])
                && h == hash(orig[Inbox(names[j])]) && Get(marked, h) == Some(EntryFor(names[j], x, now))
    {
      if HasKey(processed, h) {
        var j, x :| 0 <= j < i && supported[j] && x in results && x.Organized? && x.original == JoinPath(inboxDir, names[j])
          && h == hash(orig[Inbox(names[j])]) && Get(processed, h) == Some(EntryFor(names[j], x, now));
        assert x in next;
      } else {
        var x :| x in next && x.Organized? && x.original == JoinPath(inboxDir, names[i])
          && h == hash(orig[Inbox(names[i])]) && Get(marked, h) == Some(EntryFor(names[i], x, now));
      }
    }
  }

  /** At the end of the pass its facts are those `VisitAll` promises. */
  lemma PassDone(orig: map<Loc, Content>, files: map<Loc, Content>, names: seq<string>, supported: seq<bool>,
                 hash: Content -> string, inboxDir: string, known: Dict<LedgerEntry>, processed: Dict<LedgerEntry>,
                 now: string, results: seq<FileResult>)
    requires |supported| == |names| && forall j :: 0 <= j < |names| ==> supported[j] == Supported(names[j])
    requires PassFiles(orig, files, names, supported, |names|)
    requires PassLedger(orig, names, supported, |names|, hash, known, processed)
    requires PassResults(orig, names, |names|, hash, inboxDir, known, processed, now, results)
    requires PassRecorded(orig, names, supported, |names|, hash, inboxDir, known, processed, now, results)
    ensures forall i :: 0 <= i < |names| && !Supported(names[i]) ==>
      Inbox(names[i]) in files && files[Inbox(names[i])] == orig[Inbox(names[i])]
    ensures forall i :: 0 <= i < |names| && Supported(names[i]) ==> Inbox(names[i]) !in files
    ensures forall h :: HasKey(known, h) ==> Get(processed, h) == Get(known, h)
    ensures forall h :: HasKey(processed, h) && !HasKey(known, h) ==>
      exists i, x :: 0 <= i < |names| && Supported(names[i]) && x in results && x.Organized? && x.original == JoinPath(inboxDir, names[i])
        && h == hash(orig[Inbox(names[i])]) && Get(processed, h) == Some(EntryFor(names[i], x, now))
    ensures forall x :: x in results && x.Organized? ==>
      exists i :: 0 <= i < |names| && x.original == JoinPath(inboxDir, names[i]) && !HasKey(known, hash(orig[Inbox(names[i])]))
        && Get(processed, hash(orig[Inbox(names[i])])) == Some(EntryFor(names[i], x, now))
  {
    forall h | HasKey(processed, h) && !HasKey(known, h)
      ensures exists i, x :: 0 <= i < |names| && Supported(names[i]) && x in results && x.Organized? && x.original == JoinPath(inboxDir, names[i])
                && h == hash(orig[Inbox(names[i])]) && Get(processed, h) == Some(EntryFor(names[i], x, now))
    {
      var j, x :| 0 <= j < |names| && supported[j] && x in results && x.Organized? && x.original == JoinPath(inboxDir, names[j])
        && h == hash(orig[Inbox(names[j])]) && Get(processed, h) == Some(EntryFor(names[j], x, now));
      assert Supported(names[j]);
    }
  }

  /** Moving `from` to a fresh `dest` and writing `side` beside it. */
  lemma MoveFacts(files: map<Loc, Content>, from: Loc, dest: Loc, side: Loc, content: Content)
    requires from in files && dest !in files && dest != side
    ensures var after := (files - {from})[dest := files[from]][side := content];
      from != side ==> from !in after
    ensures var after := (files - {from})[dest := files[from]][side := content];
      dest in after && after[dest] == files[from]
    ensures var after := (files - {from})[dest := files[from]][side := content];
      forall l :: l in files && l != from && l != side ==> l in after && after[l] == files[l]
    ensures var after := (files - {from})[dest := files[from]][side := content];
      forall l :: l in after ==> l in files || l == dest || l == side
  {
  }

  /** The supported inbox extensions, compared lower-cased. */
  const SupportedExtensions: seq<string> :=
    [".pdf", ".png", ".jpg", ".jpeg", ".tiff", ".bmp", ".docx", ".pptx", ".xlsx", ".txt", ".html"]

  /** Membership decided one entry at a time, so that a literal table is not expanded at once. */
  predicate Listed(x: string, xs: seq<string>)
  {
    |xs| > 0 && (xs[0] == x || Listed(x, xs[1..]))
  }

  lemma {:induction false} ListedIff(x: string, xs: seq<string>)
    ensures Listed(x, xs) <==> x in xs
  {
    if |xs| > 0 {
      ListedIff(x, xs[1..]);
      assert xs == [xs[0]] + xs[1..];
    }
  }

  /** The extension test of `process_once`, case-insensitive. */
  predicate Supported(name: string)
  {
    Listed(Lower(Suffix(name)), SupportedExtensions)
  }

  /** Docling first, the fallback extractor when Docling fails. */
  function ExtractText(content: Content, docling: Content -> Extraction, fallback: Content -> Extraction): Extraction
  {
    var first := docling(content);
    if first.success then first else fallback(content)
  }

  /** Extraction failed, or found only whitespace. */
  predicate Unreadable(e: Extraction)
  {
    !e.success || Strip(e.text) == ""
  }

  /**
   * Step 2 of `process_file`: the Claude CLI (None when it fails) or the API
   * (None when it falls back), the keyword classifier otherwise; printing the
   * category and subcategory raises KeyError when either is missing.
   */
  function Analyze(text: string, categories: Categories, mode: string,
                   claudeCode: string -> Option<Dict<Json>>, llm: string -> Option<Dict<Json>>): (r: Outcome<Dict<Json>>)
    ensures r.Returned? ==> HasKey(r.value, "category") && HasKey(r.value, "subcategory")
  {
    var remote := if mode == "claude-code" then claudeCode(text) else if mode == "api" then llm(text) else None;
    var analysis :=
      if remote.Some? then Returned(remote.value)
      else match KeywordCategorize(text, categories)
        case Raised(e) => Raised(e)
        case Returned(k) => Returned(KeywordDict(k));
    if analysis.Raised? then analysis
    else if !HasKey(analysis.value, "category") then Raised("KeyError: 'category'")
    else if !HasKey(analysis.value, "subcategory") then Raised("KeyError: 'subcategory'")
    else analysis
  }

  /** Step 2 of `process_file`, with the keyword classifier's loops. */
  method AnalyzeText(text: string, categories: Categories, mode: string,
                     claudeCode: string -> Option<Dict<Json>>, llm: string -> Option<Dict<Json>>)
    returns (r: Outcome<Dict<Json>>)
    ensures r == Analyze(text, categories, mode, claudeCode, llm)
  {
    var analysis: Dict<Json>;
    var remote := None;
    if mode == "claude-code" {
      remote := claudeCode(text);
    } else if mode == "api" {
      remote := llm(text);
    }
    if remote.Some? {
      analysis := remote.value;
    } else {
      var k := CategorizeWithKeywords(text, categories);
      if k.Raised? {
        return Raised(k.reason);
      }
      analysis := KeywordDict(k.value);
    }
    if !HasKey(analysis, "category") {
      return Raised("KeyError: 'category'");
    }
    if !HasKey(analysis, "subcategory") {
      return Raised("KeyError: 'subcategory'");
    }
    r := Returned(analysis);
  }

  /** A remote answer that names both fields is used as it is. */
  lemma AnalyzeTrustsRemote(text: string, categories: Categories, mode: string,
                            claudeCode: string -> Option<Dict<Json>>, llm: string -> Option<Dict<Json>>, a: Dict<Json>)
    requires mode == "claude-code" ==> claudeCode(text) == Some(a)
    requires mode == "api" ==> llm(text) == Some(a)
    requires mode == "claude-code" || mode == "api"
    requires HasKey(a, "category") && HasKey(a, "subcategory")
    ensures Analyze(text, categories, mode, claudeCode, llm) == Returned(a)
  {
  }

  /** Without a remote answer the keyword classifier decides, and over an answering table it never fails. */
  lemma AnalyzeByKeywords(text: string, categories: Categories, mode: string,
                          claudeCode: string -> Option<Dict<Json>>, llm: string -> Option<Dict<Json>>)
    requires Answering(categories)
    requires mode == "claude-code" ==> claudeCode(text).None?
    requires mode == "api" ==> llm(text).None?
    ensures KeywordCategorize(text, categories).Returned?
    ensures Analyze(text, categories, mode, claudeCode, llm) ==
      Returned(KeywordDict(KeywordCategorize(text, categories).value))
  {
    AnsweringTable(text, categories);
    var k := KeywordCategorize(text, categories).value;
    FindAt(KeywordDict(k), "category", 0);
    FindAt(KeywordDict(k), "subcategory", 1);
  }

  /** The inbox, the output tree and its two JSON databases. */
  class Organizer {
    var files: map<Loc, Content>
    var index: Stored<seq<Dict<Json>>>
    var ledger: Stored<Dict<LedgerEntry>>
    const inboxDir: string
    const outputDir: string

    constructor (files: map<Loc, Content>, index: Stored<seq<Dict<Json>>>, ledger: Stored<Dict<LedgerEntry>>,
                 inboxDir: string, outputDir: string)
      ensures this.files == files && this.index == index && this.ledger == ledger
      ensures this.inboxDir == inboxDir && this.outputDir == outputDir
    {
      this.files := files;
      this.index := index;
      this.ledger := ledger;
      this.inboxDir := inboxDir;
      this.outputDir := outputDir;
    }

    function DestPath(analysis: Dict<Json>, target: string): string
    {
      JoinPath(JoinPath(JoinPath(outputDir, Folder(analysis).0), Folder(analysis).1), target)
    }

    /** `add_to_search_index`: the index becomes exactly one entry longer. */
    method AddToSearchIndex(docPath: string, originalName: string, analysis: Dict<Json>, text: string, now: string)
      modifies this
      ensures index == Present(LoadOr(old(index), []) + [IndexEntry(docPath, originalName, analysis, text, now)])
      ensures files == old(files) && ledger == old(ledger)
    {
      var entries := LoadOr(index, []);
      entries := entries + [IndexEntry(docPath, originalName, analysis, text, now)];
      index := Present(entries);
    }

    /** `organize_file`: move, sidecar, index entry; returns the destination path. */
    method OrganizeFile(name: string, analysis: Dict<Json>, text: string, today: string, now: string)
      returns (dest: string)
      requires Inbox(name) in files
      modifies this
      ensures dest == DestPath(analysis, Target(old(files), name, analysis, today))
      ensures files == Organize(old(files), name, analysis, text, today, now)
      ensures index == Present(LoadOr(old(index), []) + [IndexEntry(dest, name, analysis, text, now)])
      ensures ledger == old(ledger)
    {
      var (category, subcategory) := Folder(analysis);
      var newName := GenerateFilename(name, analysis, today);
      var target := ResolveCollision(NamesIn(files, category, subcategory), newName);
      dest := JoinPath(JoinPath(JoinPath(outputDir, category), subcategory), target);
      var content := files[Inbox(name)];
      files := (files - {Inbox(name)})[Filed(category, subcategory, target) := content];
      files := files[Filed(category, subcategory, target + ".meta.json") := Sidecar(SidecarOf(analysis, name, text, now))];
      AddToSearchIndex(dest, name, analysis, text, now);
    }

    /** `process_file`: extract, quarantine unreadable files, categorize, organize. */
    method ProcessFile(name: string, categories: Categories, mode: string,
                       docling: Content -> Extraction, fallback: Content -> Extraction,
                       claudeCode: string -> Option<Dict<Json>>, llm: string -> Option<Dict<Json>>,
                       today: string, now: string)
      returns (r: Outcome<FileResult>)
      requires Inbox(name) in files
      modifies this
      ensures ledger == old(ledger)
      ensures r.Returned? ==> Inbox(name) !in files
      ensures InboxKept(old(files), files, name)
      ensures var e := ExtractText(old(files)[Inbox(name)], docling, fallback);
        Unreadable(e) ==>
          r == Returned(ExtractionFailed) && index == old(index) &&
          files == (old(files) - {Inbox(name)})[Quarantined(name) := old(files)[Inbox(name)]]
      ensures var e := ExtractText(old(files)[Inbox(name)], docling, fallback);
        !Unreadable(e) && Analyze(e.text, categories, mode, claudeCode, llm).Raised? ==>
          r.Raised? && files == old(files) && index == old(index)
      ensures var e := ExtractText(old(files)[Inbox(name)], docling, fallback);
        var a := Analyze(e.text, categories, mode, claudeCode, llm);
        !Unreadable(e) && a.Returned? ==>
          r == Returned(Organized(JoinPath(inboxDir, name), DestPath(a.value, Target(old(files), name, a.value, today)), a.value)) &&
          files == Organize(old(files), name, a.value, e.text, today, now) &&
          index == Present(LoadOr(old(index), []) + [IndexEntry(r.value.destination, name, a.value, e.text, now)])
    {
      var content := files[Inbox(name)];
      var result := docling(content);
      if !result.success {
        result := fallback(content);
      }
      if !result.success || Strip(result.text) == "" {
        QuarantineKeepsInbox(files, name);
        files := (files - {Inbox(name)})[Quarantined(name) := content];
        return Returned(ExtractionFailed);
      }
      var analysis := AnalyzeText(result.text, categories, mode, claudeCode, llm);
      if analysis.Raised? {
        return Raised(analysis.reason);
      }
      ghost var before := files;
      var dest := OrganizeFile(name, analysis.value, result.text, today, now);
      OrganizeKeepsInbox(before, name, analysis.value, result.text, today, now);
      r := Returned(Organized(JoinPath(inboxDir, name), dest, analysis.value));
    }

    /** The facts about one `process_file` call that a pass over the inbox relies on. */
    method ProcessInboxFile(name: string, categories: Categories, mode: string,
                            docling: Content -> Extraction, fallback: Content -> Extraction,
                            claudeCode: string -> Option<Dict<Json>>, llm: string -> Option<Dict<Json>>,
                            today: string, now: string)
      returns (r: Outcome<FileResult>)
      requires Inbox(name) in files
      modifies this
      ensures ledger == old(ledger)
      ensures r.Returned? ==> Inbox(name) !in files
      ensures r.Returned? && r.value.Organized? ==> r.value.original == JoinPath(inboxDir, name)
      ensures InboxKept(old(files), files, name)
    {
      r := ProcessFile(name, categories, mode, docling, fallback, claudeCode, llm, today, now);
    }

    /**
     * One supported inbox file within `process_once`: a known content hash is
     * deleted unprocessed (`None`); otherwise the file goes through `process_file`
     * and a success is recorded in the ledger under its pre-move hash.
     */
    method VisitInboxFile(name: string, processed: Dict<LedgerEntry>, categories: Categories, mode: string,
                          docling: Content -> Extraction, fallback: Content -> Extraction,
                          claudeCode: string -> Option<Dict<Json>>, llm: string -> Option<Dict<Json>>,
                          hash: Content -> string, today: string, now: string)
      returns (r: Outcome<Option<FileResult>>, marked: Dict<LedgerEntry>)
      requires Inbox(name) in files
      modifies this
      ensures ledger == old(ledger)
      ensures HasKey(processed, hash(old(files)[Inbox(name)])) ==>
        r == Returned(None) && marked == processed && files == old(files) - {Inbox(name)}
      ensures r.Returned? ==> Inbox(name) !in files
      ensures InboxKept(old(files), files, name)
      ensures forall h :: HasKey(processed, h) ==> Get(marked, h) == Get(processed, h)
      ensures forall h :: HasKey(marked, h) && !HasKey(processed, h) ==> h == hash(old(files)[Inbox(name)])
      ensures r.Returned? && r.value.Some? && r.value.value.Organized? ==>
        r.value.value.original == JoinPath(inboxDir, name) && !HasKey(processed, hash(old(files)[Inbox(name)]))
      ensures r.Returned? && r.value.Some? && r.value.value.Organized? ==>
        Get(marked, hash(old(files)[Inbox(name)])) == Some(EntryFor(name, r.value.value, now))
      ensures !(r.Returned? && r.value.Some? && r.value.value.Organized?) ==> marked == processed
    {
      var content := files[Inbox(name)];
      var h := hash(content);
      marked := processed;
      if HasKey(processed, h) {
        DeleteKeepsInbox(files, name);
        files := files - {Inbox(name)};
        return Returned(None), marked;
      }
      var result := ProcessInboxFile(name, categories, mode, docling, fallback, claudeCode, llm, today, now);
      if result.Raised? {
        return Raised(result.reason), marked;
      }
      if result.value.Organized? {
        marked := MarkFileProcessed(processed, h, LedgerEntry(name, result.value.destination, now));
      }
      r := Returned(Some(result.value));
    }

    /** One file of the loop of `process_once`: unsupported names are skipped, and the facts of the pass so far extend to `names[i]`. */
    method VisitNext(ghost orig: map<Loc, Content>, ghost supported: seq<bool>, names: seq<string>, i: nat,
                     known: Dict<LedgerEntry>, processed: Dict<LedgerEntry>, results: seq<FileResult>,
                     categories: Categories, mode: string,
                     docling: Content -> Extraction, fallback: Content -> Extraction,
                     claudeCode: string -> Option<Dict<Json>>, llm: string -> Option<Dict<Json>>,
                     hash: Content -> string, today: string, now: string)
      returns (raised: Option<string>, marked: Dict<LedgerEntry>, next: seq<FileResult>)
      requires i < |names| == |supported|
      requires forall j :: 0 <= j < |names| ==> supported[j] == Supported(names[j])
      requires forall j, k :: 0 <= j < k < |names| ==> names[j] != names[k]
      requires PassFiles(orig, files, names, supported, i)
      requires PassLedger(orig, names, supported, i, hash, known, processed)
      requires PassResults(orig, names, i, hash, inboxDir, known, processed, now, results)
      requires PassRecorded(orig, names, supported, i, hash, inboxDir, known, processed, now, results)
      modifies this
      ensures ledger == old(ledger)
      ensures raised.Some? ==> forall j :: 0 <= j < |names| && !Supported(names[j]) ==>
        Inbox(names[j]) in files && files[Inbox(names[j])] == orig[Inbox(names[j])]
      ensures raised.None? ==> PassFiles(orig, files, names, supported, i + 1)
      ensures raised.None? ==> PassLedger(orig, names, supported, i + 1, hash, known, marked)
      ensures raised.None? ==> PassResults(orig, names, i + 1, hash, inboxDir, known, marked, now, next)
      ensures raised.None? ==> PassRecorded(orig, names, supported, i + 1, hash, inboxDir, known, marked, now, next)
    {
      if !Supported(names[i]) {
        assert !supported[i];
        SkipKeepsGone(orig, files, names, supported, i);
        SkipKeepsRecords(orig, names, supported, i, hash, inboxDir, known, processed, now, results);
        return None, processed, results;
      }
      ghost var before := files;
      var visit;
      visit, marked := VisitInboxFile(names[i], processed, categories, mode, docling, fallback,
                                      claudeCode, llm, hash, today, now);
      if visit.Raised? {
        KeptOnRaise(orig, before, files, names, supported, i);
        return Some(visit.reason), marked, results;
      }
      StillGone(orig, before, files, names, supported, i);
      LedgerStep(orig, names, supported, i, hash, known, processed, marked);
      next := if visit.value.Some? then results + [visit.value.value] else results;
      if visit.value.Some? {
        assert visit.value.value in next;
      }
      ResultStep(orig, names, supported, i, hash, inboxDir, known, processed, marked, now, results, next);
      raised := None;
    }

    /** The loop of `process_once` over the listed inbox names, stated by the pass predicates. */
    method VisitInbox(names: seq<string>, known: Dict<LedgerEntry>, categories: Categories, mode: string,
                      docling: Content -> Extraction, fallback: Content -> Extraction,
                      claudeCode: string -> Option<Dict<Json>>, llm: string -> Option<Dict<Json>>,
                      hash: Content -> string, today: string, now: string)
      returns (raised: Option<string>, processed: Dict<LedgerEntry>, results: seq<FileResult>)
      requires forall i, j :: 0 <= i < j < |names| ==> names[i] != names[j]
      requires forall i :: 0 <= i < |names| ==> Inbox(names[i]) in files
      modifies this
      ensures ledger == old(ledger)
      ensures raised.Some? ==> forall j :: 0 <= j < |names| && !Supported(names[j]) ==>
        Inbox(names[j]) in files && files[Inbox(names[j])] == old(files)[Inbox(names[j])]
      ensures raised.None? ==> PassFiles(old(files), files, names, SupportedFlags(names), |names|)
      ensures raised.None? ==> PassLedger(old(files), names, SupportedFlags(names), |names|, hash, known, processed)
      ensures raised.None? ==> PassResults(old(files), names, |names|, hash, inboxDir, known, processed, now, results)
      ensures raised.None? ==>
        PassRecorded(old(files), names, SupportedFlags(names), |names|, hash, inboxDir, known, processed, now, results)
    {
      processed := known;
      ghost var supported := SupportedFlags(names);
      results := [];
      var i := 0;
      while i < |names|
        invariant ledger == old(ledger)
        invariant PassFiles(old(files), files, names, supported, i)
        invariant PassLedger(old(files), names, supported, i, hash, known, processed)
        invariant PassResults(old(files), names, i, hash, inboxDir, known, processed, now, results)
        invariant PassRecorded(old(files), names, supported, i, hash, inboxDir, known, processed, now, results)
      {
        var marked, next;
        raised, marked, next := VisitNext(old(files), supported, names, i, known, processed, results, categories,
                                          mode, docling, fallback, claudeCode, llm, hash, today, now);
        if raised.Some? {
          return;
        }
        processed, results := marked, next;
        i := i + 1;
      }
      raised := None;
    }

    /**
     * The loop of `process_once` over the inbox listing, from the ledger entries `known`:
     * known hashes are deleted unprocessed, successes are recorded under their pre-move hash.
     */
    method VisitAll(names: seq<string>, known: Dict<LedgerEntry>, categories: Categories, mode: string,
                    docling: Content -> Extraction, fallback: Content -> Extraction,
                    claudeCode: string -> Option<Dict<Json>>, llm: string -> Option<Dict<Json>>,
                    hash: Content -> string, today: string, now: string)
      returns (r: Outcome<seq<FileResult>>, processed: Dict<LedgerEntry>)
      requires forall i, j :: 0 <= i < j < |names| ==> names[i] != names[j]
      requires forall i :: 0 <= i < |names| ==> Inbox(names[i]) in files
      modifies this
      ensures ledger == old(ledger)
      ensures forall i :: 0 <= i < |names| && !Supported(names[i]) ==>
        Inbox(names[i]) in files && files[Inbox(names[i])] == old(files)[Inbox(names[i])]
      ensures r.Returned? ==> forall i :: 0 <= i < |names| && Supported(names[i]) ==> Inbox(names[i]) !in files
      ensures r.Returned? ==> forall h :: HasKey(known, h) ==> Get(processed, h) == Get(known, h)
      ensures r.Returned? ==> forall h :: HasKey(processed, h) && !HasKey(known, h) ==>
        exists i, x :: 0 <= i < |names| && Supported(names[i]) && x in r.value && x.Organized? && x.original == JoinPath(inboxDir, names[i])
          && h == hash(old(files)[Inbox(names[i])]) && Get(processed, h) == Some(EntryFor(names[i], x, now))
      ensures r.Returned? ==> forall x :: x in r.value && x.Organized? ==>
        exists i :: 0 <= i < |names| && x.original == JoinPath(inboxDir, names[i]) && !HasKey(known, hash(old(files)[Inbox(names[i])]))
          && Get(processed, hash(old(files)[Inbox(names[i])])) == Some(EntryFor(names[i], x, now))
    {
      var raised, results;
      raised, processed, results := VisitInbox(names, known, categories, mode, docling, fallback, claudeCode, llm,
                                               hash, today, now);
      if raised.Some? {
        return Raised(raised.value), processed;
      }
      PassDone(old(files), files, names, SupportedFlags(names), hash, inboxDir, known, processed, now, results);
      r := Returned(results);
    }

    /**
     * `process_once`: one pass over the inbox listing. Known hashes are deleted
     * unprocessed, successes are recorded under their pre-move hash, and the ledger
     * is saved once, after the pass.
     */
    method ProcessOnce(names: seq<string>, categories: Categories, mode: string,
                       docling: Content -> Extraction, fallback: Content -> Extraction,
                       claudeCode: string -> Option<Dict<Json>>, llm: string -> Option<Dict<Json>>,
                       hash: Content -> string, today: string, now: string)
      returns (r: Outcome<seq<FileResult>>)
      requires forall i, j :: 0 <= i < j < |names| ==> names[i] != names[j]
      requires forall i :: 0 <= i < |names| ==> Inbox(names[i]) in files
      modifies this
      ensures forall i :: 0 <= i < |names| && !Supported(names[i]) ==>
        Inbox(names[i]) in files && files[Inbox(names[i])] == old(files)[Inbox(names[i])]
      ensures r.Returned? ==> forall i :: 0 <= i < |names| && Supported(names[i]) ==> Inbox(names[i]) !in files
      ensures r.Raised? ==> ledger == old(ledger)
      ensures r.Returned? ==> ledger.Present?
      ensures r.Returned? ==> forall h :: HasKey(LoadOr(old(ledger), []), h) ==>
        Get(ledger.value, h) == Get(LoadOr(old(ledger), []), h)
      ensures r.Returned? ==> forall h :: HasKey(ledger.value, h) && !HasKey(LoadOr(old(ledger), []), h) ==>
        exists i, x :: 0 <= i < |names| && Supported(names[i]) && x in r.value && x.Organized? && x.original == JoinPath(inboxDir, names[i])
          && h == hash(old(files)[Inbox(names[i])]) && Get(ledger.value, h) == Some(EntryFor(names[i], x, now))
      ensures r.Returned? ==> forall x :: x in r.value && x.Organized? ==>
        exists i :: 0 <= i < |names| && x.original == JoinPath(inboxDir, names[i])
          && Get(ledger.value, hash(old(files)[Inbox(names[i])])) == Some(EntryFor(names[i], x, now))
      ensures r.Returned? ==> forall i, x ::
        (0 <= i < |names| && Supported(names[i]) && HasKey(LoadOr(old(ledger), []), hash(old(files)[Inbox(names[i])])) &&
         x in r.value && x.Organized?) ==> x.original != JoinPath(inboxDir, names[i])
    {
      var known := LoadOr(ledger, []);
      var visit, processed := VisitAll(names, known, categories, mode, docling, fallback, claudeCode, llm, hash, today, now);
      if visit.Raised? {
        return visit;
      }
      ledger := Present(processed);
      r := visit;
      forall j, x | 0 <= j < |names| && Supported(names[j]) &&
          HasKey(known, hash(old(files)[Inbox(names[j])])) && x in r.value && x.Organized?
        ensures x.original != JoinPath(inboxDir, names[j])
      {
        var k :| 0 <= k < |names| && x.original == JoinPath(inboxDir, names[k]) && !HasKey(known, hash(old(files)[Inbox(names[k])]));
        if x.original == JoinPath(inboxDir, names[j]) {
          JoinPathInjective(inboxDir, names[k], names[j]);
        }
      }
    }
  }

  /** A path under one folder determines the name. */
  lemma JoinPathInjective(dir: string, a: string, b: string)
    requires JoinPath(dir, a) == JoinPath(dir, b)
    ensures a == b
  {
    var n := |dir + "/"|;
    assert a == JoinPath(dir, a)[n..];
    assert b == JoinPath(dir, b)[n..];
  }
}
