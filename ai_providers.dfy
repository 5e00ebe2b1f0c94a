/**
 * The classification back ends: the keyword classifier, the decoding of a model's
 * reply, the categorisation prompt, the provider registry with its selection rule,
 * and `categorize_document`'s fallback. Remote back ends (Anthropic, OpenAI,
 * Bedrock, Ollama and the Claude Code command) are oracles: `probe(name)` is the
 * provider's `is_available()` and `remote(name)` the result its `categorize` call
 * returns for the document at hand.
 */
module AIProviders {
  import opened Base
  import opened Text
  import opened JDSystem

  const SystemArea: string := "00-09 System"
  const ArchiveArea: string := "90-99 Archive"

  /** The two areas no classifier proposes. */
  predicate Excluded(area: string)
  {
    area == SystemArea || area == ArchiveArea
  }

  // ---------------------------------------------------------------- keyword scoring

  /** How many keywords, lower-cased, occur in the lower-cased text. */
  function Score(keywords: seq<string>, textLower: string): (n: nat)
    ensures n <= |keywords|
  {
    if |keywords| == 0 then 0
    else (if Contains(textLower, Lower(keywords[0])) then 1 else 0) + Score(keywords[1..], textLower)
  }

  predicate IsCell(areas: Taxonomy, i: int, j: int)
  {
    0 <= i < |areas| && 0 <= j < |areas[i].1|
  }

  function ScoreAt(areas: Taxonomy, i: int, j: int, textLower: string): nat
    requires IsCell(areas, i, j)
  {
    Score(areas[i].1[j].1, textLower)
  }

  /** The best category so far (area index, category index) and its score. */
  datatype Best = Best(at: Option<(int, int)>, score: nat)

  /** The inner loop over the first `m` categories of area `i`. */
  function CategoryFold(areas: Taxonomy, i: int, m: int, prev: Best, textLower: string): (r: Best)
    requires 0 <= i < |areas| && 0 <= m <= |areas[i].1|
    requires prev.at.Some? ==> IsCell(areas, prev.at.value.0, prev.at.value.1)
    ensures r.at.Some? ==> IsCell(areas, r.at.value.0, r.at.value.1)
    decreases m
  {
    if m == 0 then prev
    else
      var s := CategoryFold(areas, i, m - 1, prev, textLower);
      var score := ScoreAt(areas, i, m - 1, textLower);
      if score > s.score then Best(Some((i, m - 1)), score) else s
  }

  /** The outer loop over the first `n` areas, skipping System and Archive. */
  function AreaFold(areas: Taxonomy, n: int, textLower: string): (r: Best)
    requires 0 <= n <= |areas|
    ensures r.at.Some? ==> IsCell(areas, r.at.value.0, r.at.value.1)
    decreases n
  {
    if n == 0 then Best(None, 0)
    else
      var s := AreaFold(areas, n - 1, textLower);
      if Excluded(areas[n - 1].0) then s else CategoryFold(areas, n - 1, |areas[n - 1].1|, s, textLower)
  }

  /** Category `j` of area `i` is visited before position (`n`, `m`) of the loops. */
  predicate Visited(areas: Taxonomy, n: int, m: int, i: int, j: int)
  {
    IsCell(areas, i, j) && !Excluded(areas[i].0) && (i < n || (i == n && j < m))
  }

  predicate Earlier(i: int, j: int, at: (int, int))
  {
    i < at.0 || (i == at.0 && j < at.1)
  }

  /** What the loop state means: the best visited score, first reached at `at`. */
  ghost predicate Sound(areas: Taxonomy, textLower: string, s: Best, n: int, m: int)
  {
    && (s.at.None? ==> s.score == 0)
    && (forall i, j :: Visited(areas, n, m, i, j) ==> ScoreAt(areas, i, j, textLower) <= s.score)
    && (s.at.Some? ==>
         && Visited(areas, n, m, s.at.value.0, s.at.value.1)
         && ScoreAt(areas, s.at.value.0, s.at.value.1, textLower) == s.score > 0
         && forall i, j :: Visited(areas, n, m, i, j) && Earlier(i, j, s.at.value) ==> ScoreAt(areas, i, j, textLower) < s.score)
  }

  lemma {:induction false} CategoryFoldSound(areas: Taxonomy, i: int, m: int, prev: Best, textLower: string)
    requires 0 <= i < |areas| && 0 <= m <= |areas[i].1| && !Excluded(areas[i].0)
    requires prev.at.Some? ==> IsCell(areas, prev.at.value.0, prev.at.value.1)
    requires Sound(areas, textLower, prev, i, 0)
    ensures Sound(areas, textLower, CategoryFold(areas, i, m, prev, textLower), i, m)
    decreases m
  {
    if m > 0 {
      CategoryFoldSound(areas, i, m - 1, prev, textLower);
    }
  }

  lemma {:induction false} AreaFoldSound(areas: Taxonomy, n: int, textLower: string)
    requires 0 <= n <= |areas|
    ensures Sound(areas, textLower, AreaFold(areas, n, textLower), n, 0)
    decreases n
  {
    if n > 0 {
      var s := AreaFold(areas, n - 1, textLower);
      AreaFoldSound(areas, n - 1, textLower);
      if !Excluded(areas[n - 1].0) {
        CategoryFoldSound(areas, n - 1, |areas[n - 1].1|, s, textLower);
      }
    }
  }

  /** The first area that is neither System nor Archive. */
  function FirstEligible(areas: Taxonomy): (r: Option<nat>)
    ensures r.Some? ==> r.value < |areas| && !Excluded(areas[r.value].0)
    ensures r.Some? ==> forall k :: 0 <= k < r.value ==> Excluded(areas[k].0)
    ensures r.None? ==> forall k :: 0 <= k < |areas| ==> Excluded(areas[k].0)
  {
    if |areas| == 0 then None
    else if !Excluded(areas[0].0) then Some(0)
    else match FirstEligible(areas[1..])
      case None => None
      case Some(k) => Some(k + 1)
  }

  /** The fields of a keyword classification that depend on the input. */
  datatype Match = Match(area: string, category: string, confidence: string, summary: string)

  const MatchedSummary: string := "Categorized by keyword matching"
  const DefaultSummary: string := "Default categorization"

  function Confidence(score: nat): string
  {
    if score < 2 then "low" else "medium"
  }

  /**
   * `KeywordProvider.categorize`: the best-scoring category, or else the first category of
   * the first eligible area (which raises when that area has no categories), or None.
   */
  function KeywordCategorize(areas: Taxonomy, text: string): Outcome<Option<Match>>
  {
    var best := AreaFold(areas, |areas|, Lower(text));
    match best.at
    case Some((i, j)) =>
      Returned(Some(Match(areas[i].0, areas[i].1[j].0, Confidence(best.score), MatchedSummary)))
    case None =>
      match FirstEligible(areas)
      case None => Returned(None)
      case Some(i) =>
        if |areas[i].1| == 0 then Raised("IndexError: list index out of range")
        else Returned(Some(Match(areas[i].0, areas[i].1[0].0, "low", DefaultSummary)))
  }

  /** Category `j` of area `i` is the one the scoring loop settles on. */
  ghost predicate Winner(areas: Taxonomy, textLower: string, i: int, j: int)
  {
    && IsCell(areas, i, j) && !Excluded(areas[i].0)
    && ScoreAt(areas, i, j, textLower) > 0
    && (forall a, c :: Visited(areas, |areas|, 0, a, c) ==> ScoreAt(areas, a, c, textLower) <= ScoreAt(areas, i, j, textLower))
    && (forall a, c :: Visited(areas, |areas|, 0, a, c) && Earlier(a, c, (i, j)) ==>
          ScoreAt(areas, a, c, textLower) < ScoreAt(areas, i, j, textLower))
  }

  /**
   * When some eligible category scores, the result is the highest-scoring one, ties going
   * to the first visited, with confidence "medium" from two matched keywords on.
   */
  lemma KeywordBestMatch(areas: Taxonomy, text: string, i: int, j: int)
    requires Visited(areas, |areas|, 0, i, j) && ScoreAt(areas, i, j, Lower(text)) > 0
    ensures exists a, c :: (Winner(areas, Lower(text), a, c) &&
      KeywordCategorize(areas, text) ==
        Returned(Some(Match(areas[a].0, areas[a].1[c].0, Confidence(ScoreAt(areas, a, c, Lower(text))), MatchedSummary))))
  {
    AreaFoldSound(areas, |areas|, Lower(text));
    var best := AreaFold(areas, |areas|, Lower(text));
    var (a, c) := best.at.value;
    assert Winner(areas, Lower(text), a, c);
  }

  /** Only one category can be the winner. */
  lemma WinnerUnique(areas: Taxonomy, textLower: string, i: int, j: int, a: int, c: int)
    requires Winner(areas, textLower, i, j) && Winner(areas, textLower, a, c)
    ensures i == a && j == c
  {
  }

  /**
   * When no eligible category scores, the result is the first category of the first
   * eligible area, with confidence "low"; None only when every area is System or Archive.
   */
  lemma KeywordDefault(areas: Taxonomy, text: string)
    requires forall i, j :: Visited(areas, |areas|, 0, i, j) ==> ScoreAt(areas, i, j, Lower(text)) == 0
    ensures KeywordCategorize(areas, text) == match FirstEligible(areas)
      case None => Returned(None)
      case Some(i) =>
        if |areas[i].1| == 0 then Raised("IndexError: list index out of range")
        else Returned(Some(Match(areas[i].0, areas[i].1[0].0, "low", DefaultSummary)))
  {
    AreaFoldSound(areas, |areas|, Lower(text));
  }

  /** The keyword classifier answers None exactly when every area is System or Archive. */
  lemma KeywordNoneIff(areas: Taxonomy, text: string)
    ensures KeywordCategorize(areas, text) == Returned(None) <==> FirstEligible(areas).None?
  {
    AreaFoldSound(areas, |areas|, Lower(text));
  }

  /** `KeywordProvider.categorize`, with its scoring and default loops. */
  method KeywordProviderCategorize(areas: Taxonomy, text: string) returns (r: Outcome<Option<Match>>)
    ensures r == KeywordCategorize(areas, text)
  {
    var textLower := Lower(text);
    var bestMatch: Option<(string, string)> := None;
    var bestScore: nat := 0;
    ghost var at: Option<(int, int)> := None;
    var i := 0;
    while i < |areas|
      invariant 0 <= i <= |areas|
      invariant Best(at, bestScore) == AreaFold(areas, i, textLower)
      invariant at.None? <==> bestMatch.None?
      invariant at.Some? ==> bestMatch.value == (areas[at.value.0].0, areas[at.value.0].1[at.value.1].0)
    {
      var (area, categories) := areas[i];
      if !Excluded(area) {
        var j := 0;
        while j < |categories|
          invariant 0 <= j <= |categories|
          invariant Best(at, bestScore) == CategoryFold(areas, i, j, AreaFold(areas, i, textLower), textLower)
          invariant at.None? <==> bestMatch.None?
          invariant at.Some? ==> bestMatch.value == (areas[at.value.0].0, areas[at.value.0].1[at.value.1].0)
        {
          var score := Score(categories[j].1, textLower);
          if score > bestScore {
            bestScore := score;
            bestMatch := Some((area, categories[j].0));
            at := Some((i, j));
          }
          j := j + 1;
        }
      }
      i := i + 1;
    }
    if bestMatch.Some? {
      return Returned(Some(Match(bestMatch.value.0, bestMatch.value.1, Confidence(bestScore), MatchedSummary)));
    }
    var k := 0;
    while k < |areas|
      invariant 0 <= k <= |areas|
      invariant forall l :: 0 <= l < k ==> Excluded(areas[l].0)
    {
      var (area, categories) := areas[k];
      if !Excluded(area) {
        if |categories| == 0 {
          return Raised("IndexError: list index out of range");
        }
        return Returned(Some(Match(area, categories[0].0, "low", DefaultSummary)));
      }
      k := k + 1;
    }
    return Returned(None);
  }

  /** The result dictionary the keyword classifier returns. */
  function MatchDict(m: Match): Dict<Json>
  {
    [ ("jd_area", JStr(m.area)), ("jd_category", JStr(m.category)),
      ("document_type", JStr("Document")), ("issuer", JStr("Unknown")),
      ("subject_person", JNull), ("tags", JArr([])), ("confidence", JStr(m.confidence)),
      ("summary", JStr(m.summary)), ("date_mentioned", JNull), ("entities", JArr([])) ]
  }

  // ---------------------------------------------------------------- model replies

  /** Position of the first `{` or `}` from `from` on. */
  function NextBrace(s: string, from: nat): (r: Option<nat>)
    ensures r.Some? ==> from <= r.value < |s| && (s[r.value] == '{' || s[r.value] == '}')
    ensures r.Some? ==> forall k :: from <= k < r.value ==> s[k] != '{' && s[k] != '}'
    ensures r.None? ==> forall k :: from <= k < |s| ==> s[k] != '{' && s[k] != '}'
    decreases |s| - from
  {
    if from >= |s| then None
    else if s[from] == '{' || s[from] == '}' then Some(from)
    else NextBrace(s, from + 1)
  }

  /**
   * The first match of `\{[^{}]*\}`: the first `{` whose next brace closes it, as the
   * bounds of the matched text.
   */
  function FlatObject(s: string, from: nat): (r: Option<(nat, nat)>)
    ensures r.Some? ==> from <= r.value.0 < r.value.1 <= |s|
    ensures r.Some? ==> s[r.value.0] == '{' && s[r.value.1 - 1] == '}'
    ensures r.Some? ==> forall k :: r.value.0 < k < r.value.1 - 1 ==> s[k] != '{' && s[k] != '}'
    decreases |s| - from
  {
    if from >= |s| then None
    else if s[from] == '{' then
      match NextBrace(s, from + 1)
      case Some(q) => if s[q] == '}' then Some((from, q + 1)) else FlatObject(s, from + 1)
      case None => None
    else FlatObject(s, from + 1)
  }

  /** The text handed to the decoder once the fences are cut away. */
  function ReplyBody(response: string): string
  {
    var text := Strip(response);
    if Contains(text, "```json") then
      SplitFound(text, "```json");
      Split(Split(text, "```json")[1], "```")[0]
    else if Contains(text, "```") then
      SplitFound(text, "```");
      Split(Split(text, "```")[1], "```")[0]
    else text
  }

  /** The first flat object in the body, or the whole body when there is none. */
  function JsonCandidate(body: string): string
  {
    match FlatObject(body, 0)
    case Some((i, j)) => body[i..j]
    case None => body
  }

  /** `AIProvider.parse_json_response`; `decode` is `json.loads`, None where it raises. */
  function ParseJsonResponse(response: string, decode: string -> Option<Json>): Option<Json>
  {
    decode(JsonCandidate(ReplyBody(response)))
  }

  /** A reply that is a single flat object is decoded as it stands. */
  lemma ParseCleanObject(body: string, decode: string -> Option<Json>)
    requires forall k :: 0 <= k < |body| ==> body[k] != '{' && body[k] != '}' && body[k] != '`'
    ensures ParseJsonResponse("{" + body + "}", decode) == decode("{" + body + "}")
  {
    var s := "{" + body + "}";
    StripKeeps(s);
    NotContainsByChar(s, "```json", 0);
    NotContainsByChar(s, "```", 0);
    assert NextBrace(s, 1) == Some(|s| - 1) by {
      forall k | 1 <= k < |s| - 1 ensures s[k] != '{' && s[k] != '}' { assert s[k] == body[k - 1]; }
    }
    assert s[0..|s|] == s;
  }

  /** Only what lies inside a ```json fence is looked at. */
  lemma ParseFenced(inner: string, decode: string -> Option<Json>)
    requires forall k :: 0 <= k < |inner| ==> inner[k] != '`'
    ensures ParseJsonResponse("```json" + inner + "```", decode) == decode(JsonCandidate(inner))
  {
    var s := "```json" + inner + "```";
    StripKeeps(s);
    assert OccursAt(s, "```json", 0);
    ContainsAt(s, "```json", 0);
    var rest := inner + "```";
    assert s[7..] == rest;
    assert !Contains(rest, "```json") by {
      forall p | 0 <= p && p + 7 <= |rest| ensures !OccursAt(rest, "```json", p) {
        assert rest[p] == inner[p] && rest[p..p + 7][0] == rest[p];
      }
    }
    assert Split(s, "```json") == ["", rest] by {
      SplitFound(s, "```json");
      assert FindFrom(s, "```json", 0) == Some(0);
    }
    assert FindFrom(rest, "```", 0) == Some(|inner|) by {
      assert OccursAt(rest, "```", |inner|);
      forall j | 0 <= j < |inner| ensures !OccursAt(rest, "```", j) {
        assert rest[j] == inner[j];
      }
    }
    ContainsAt(rest, "```", |inner|);
    SplitFound(rest, "```");
    assert rest[..|inner|] == inner;
  }

  /** A reply that cannot be decoded gives None. */
  lemma ParseUndecodable(response: string, decode: string -> Option<Json>)
    requires decode(JsonCandidate(ReplyBody(response))).None?
    ensures ParseJsonResponse(response, decode).None?
  {
  }

  // ---------------------------------------------------------------- prompt

  const MaxPromptChars: nat := 8000

  /** The areas and category names shown in the prompt: all but System and Archive. */
  function PromptAreas(areas: Taxonomy): (r: Dict<seq<string>>)
    ensures forall k :: 0 <= k < |r| ==> !Excluded(r[k].0)
    decreases |areas|
  {
    if |areas| == 0 then []
    else
      var prev := PromptAreas(areas[..|areas| - 1]);
      var (area, categories) := areas[|areas| - 1];
      if Excluded(area) then prev else Put(prev, area, Keys(categories))
  }

  /** Every other area appears in the prompt with its category names. */
  lemma {:induction false} PromptAreasShown(areas: Taxonomy, area: string)
    requires UniqueKeys(areas) && HasKey(areas, area) && !Excluded(area)
    ensures Get(PromptAreas(areas), area) == Some(Keys(Get(areas, area).value))
    decreases |areas|
  {
    var init, last := areas[..|areas| - 1], areas[|areas| - 1];
    FindAppend(init, last.0, last.1, area);
    LastSplit(areas);
    if last.0 != area {
      assert UniqueKeys(init);
      PromptAreasShown(init, area);
    } else {
      assert Find(init, area).None? by {
        forall j | 0 <= j < |init| ensures init[j].0 != area { assert areas[j].0 != areas[|areas| - 1].0; }
      }
    }
  }

  const PromptHead: string := "You are a document categorization assistant using the Johnny.Decimal system.\n\nAvailable Johnny.Decimal areas and categories:\n"

  const PromptMiddle: string := "\n\nAnalyze this document and categorize it.\n\nDocument content:\n---\n"

  const PromptTail: string := @"
---

IMPORTANT naming rules:
- ""document_type"" should describe WHAT the document is (e.g., ""Blood Test Results"", ""Employment Contract"", ""Insurance Card"")
- ""issuer"" should be the organization/entity that CREATED or ISSUED the document (e.g., ""CharitÃ© Hospital"", ""TK Insurance"", ""AutoScout24"")
- Do NOT use the document subject's personal name as issuer (e.g., if it's a medical report FOR ""John Smith"", the issuer is the hospital, not John Smith)
- ""subject_person"" should ONLY be filled if the document is about someone OTHER than the system owner (e.g., spouse's documents)

Respond with ONLY valid JSON in this exact format:
{
    ""jd_area"": ""one of the areas like 10-19 Finance"",
    ""jd_category"": ""one of the categories like 14 Receipts"",
    ""document_type"": ""specific type like Blood Test Results or Employment Contract"",
    ""issuer"": ""organization that created/issued the document"",
    ""subject_person"": ""only if document is about someone other than system owner, otherwise null"",
    ""tags"": [""tag1"", ""tag2"", ""tag3""],
    ""confidence"": ""high/medium/low"",
    ""summary"": ""One sentence summary of the document"",
    ""date_mentioned"": ""YYYY-MM-DD if a date is found, null otherwise"",
    ""entities"": [""organization names"", ""relevant identifiers""]
}"

  /**
   * `get_categorization_prompt`: the fixed instructions around the rendered area list and
   * at most the first 8000 characters of the text; `dumps` renders the list as JSON.
   */
  function CategorizationPrompt(text: string, areas: Taxonomy, dumps: Dict<seq<string>> -> string): (r: string)
    ensures EndsWith(r, Take(text, MaxPromptChars) + PromptTail)
  {
    PromptHead + dumps(PromptAreas(areas)) + PromptMiddle + Take(text, MaxPromptChars) + PromptTail
  }

  /** The prompt holds the whole text when it is short, and its first 8000 characters otherwise. */
  lemma PromptText(text: string, areas: Taxonomy, dumps: Dict<seq<string>> -> string)
    ensures |text| <= MaxPromptChars ==> EndsWith(CategorizationPrompt(text, areas, dumps), text + PromptTail)
    ensures |text| > MaxPromptChars ==>
      EndsWith(CategorizationPrompt(text, areas, dumps), text[..MaxPromptChars] + PromptTail)
  {
  }

  // ---------------------------------------------------------------- providers

  /** The `PROVIDERS` registry: name, display name, whether an API key is required. */
  const Registry: seq<(string, string, bool)> := [
    ("anthropic", "Anthropic Claude", true),
    ("claude-code", "Claude Code CLI", false),
    ("openai", "OpenAI GPT", true),
    ("bedrock", "AWS Bedrock", false),
    ("ollama", "Ollama (Local)", false),
    ("keywords", "Keyword Matching (No AI)", false)
  ]

  const KeywordsName: string := "keywords"

  /** The order auto-detection tries; the keyword provider comes last and is always available. */
  const AutoOrder: seq<string> := ["claude-code", "anthropic", "openai", "bedrock", "ollama", "keywords"]

  predicate Registered(name: string)
  {
    exists k :: 0 <= k < |Registry| && Registry[k].0 == name
  }

  /** `is_available()`: the keyword provider always is; the others as the probe says. */
  predicate Available(name: string, probe: string -> bool)
  {
    name == KeywordsName || probe(name)
  }

  /** The first provider of `order` that is available, or the keyword provider. */
  function FirstAvailable(order: seq<string>, probe: string -> bool): string
  {
    if |order| == 0 then KeywordsName
    else if Available(order[0], probe) then order[0]
    else FirstAvailable(order[1..], probe)
  }

  const UnknownProviderSuffix: string := "'. Available: anthropic, claude-code, openai, bedrock, ollama, keywords"

  /** The provider name asked for: the argument, or the lower-cased AI_PROVIDER variable. */
  function RequestedProvider(name: Option<string>, envProvider: string): string
  {
    match name
    case None => Lower(envProvider)
    case Some(n) => n
  }

  /** `get_provider`, by name: ValueError for an unknown name. */
  function SelectProvider(name: Option<string>, envProvider: string, probe: string -> bool): Outcome<string>
  {
    var n := RequestedProvider(name, envProvider);
    if n == "" then Returned(FirstAvailable(AutoOrder, probe))
    else if Registered(n) then Returned(n)
    else Raised("Unknown provider '" + n + UnknownProviderSuffix)
  }

  lemma {:induction false} FirstAvailableIsFirst(order: seq<string>, probe: string -> bool)
    requires |order| > 0 && order[|order| - 1] == KeywordsName
    ensures exists k :: (0 <= k < |order| && order[k] == FirstAvailable(order, probe)
      && Available(order[k], probe) && forall l :: 0 <= l < k ==> !Available(order[l], probe))
    decreases |order|
  {
    if !Available(order[0], probe) {
      FirstAvailableIsFirst(order[1..], probe);
      var k :| 0 <= k < |order[1..]| && order[1..][k] == FirstAvailable(order[1..], probe)
        && Available(order[1..][k], probe) && forall l :: 0 <= l < k ==> !Available(order[1..][l], probe);
      assert order[k + 1] == FirstAvailable(order, probe);
    } else {
      assert order[0] == FirstAvailable(order, probe);
    }
  }

  /**
   * With no provider named the first available one of claude-code, anthropic, openai,
   * bedrock, ollama and keywords is chosen; a named one is chosen exactly when registered.
   */
  lemma SelectProviderRule(name: Option<string>, envProvider: string, probe: string -> bool)
    ensures RequestedProvider(name, envProvider) == "" ==>
      SelectProvider(name, envProvider, probe).Returned? &&
      exists k :: 0 <= k < |AutoOrder| && AutoOrder[k] == SelectProvider(name, envProvider, probe).value
        && Available(AutoOrder[k], probe) && forall l :: 0 <= l < k ==> !Available(AutoOrder[l], probe)
    ensures RequestedProvider(name, envProvider) != "" ==>
      (SelectProvider(name, envProvider, probe).Returned? <==> Registered(RequestedProvider(name, envProvider)))
      && (SelectProvider(name, envProvider, probe).Returned? ==>
            SelectProvider(name, envProvider, probe).value == RequestedProvider(name, envProvider))
  {
    FirstAvailableIsFirst(AutoOrder, probe);
  }

  /** `get_provider`, with its auto-detection loop. */
  method GetProvider(name: Option<string>, envProvider: string, probe: string -> bool) returns (r: Outcome<string>)
    ensures r == SelectProvider(name, envProvider, probe)
  {
    var n := match name case None => Lower(envProvider) case Some(s) => s;
    if n == "" {
      var k := 0;
      while k < |AutoOrder|
        invariant 0 <= k <= |AutoOrder|
        invariant FirstAvailable(AutoOrder[k..], probe) == FirstAvailable(AutoOrder, probe)
      {
        assert AutoOrder[k..][1..] == AutoOrder[k + 1..];
        if Available(AutoOrder[k], probe) {
          return Returned(AutoOrder[k]);
        }
        k := k + 1;
      }
      return Returned(KeywordsName);
    }
    var j := 0;
    while j < |Registry|
      invariant 0 <= j <= |Registry|
      invariant forall l :: 0 <= l < j ==> Registry[l].0 != n
    {
      if Registry[j].0 == n {
        return Returned(n);
      }
      j := j + 1;
    }
    return Raised("Unknown provider '" + n + UnknownProviderSuffix);
  }

  datatype ProviderInfo = ProviderInfo(displayName: string, requiresApiKey: bool, available: bool)

  /** `list_providers`: every registered provider, in registry order, with its status. */
  method ListProviders(probe: string -> bool) returns (r: Dict<ProviderInfo>)
    ensures |r| == |Registry|
    ensures forall k :: 0 <= k < |Registry| ==>
      r[k] == (Registry[k].0, ProviderInfo(Registry[k].1, Registry[k].2, Available(Registry[k].0, probe)))
  {
    r := [];
    var i := 0;
    while i < |Registry|
      invariant 0 <= i <= |Registry| && |r| == i
      invariant forall k :: 0 <= k < i ==>
        r[k] == (Registry[k].0, ProviderInfo(Registry[k].1, Registry[k].2, Available(Registry[k].0, probe)))
    {
      var (name, display, needsKey) := Registry[i];
      assert !HasKey(r, name) by {
        forall k | 0 <= k < i ensures r[k].0 != name { assert Registry[k].0 != Registry[i].0; }
      }
      r := Put(r, name, ProviderInfo(display, needsKey, Available(name, probe)));
      i := i + 1;
    }
  }

  // ---------------------------------------------------------------- categorize_document

  function KeywordResult(areas: Taxonomy, text: string): Outcome<Option<Dict<Json>>>
  {
    match KeywordCategorize(areas, text)
    case Raised(e) => Raised(e)
    case Returned(None) => Returned(None)
    case Returned(Some(m)) => Returned(Some(MatchDict(m)))
  }

  /** `provider.categorize(text, jd_areas)` for the named provider. */
  function ProviderResult(provider: string, areas: Taxonomy, text: string, probe: string -> bool,
                          remote: string -> Option<Dict<Json>>): Outcome<Option<Dict<Json>>>
  {
    if provider == KeywordsName then KeywordResult(areas, text)
    else if probe(provider) then Returned(remote(provider))
    else Returned(None)
  }

  /**
   * `categorize_document`: the provider's result when it is a non-empty dict; otherwise,
   * and also when selecting or running the provider raised, the keyword result if
   * fallback is on (and the provider was not already the keyword one), else None.
   */
  function CategorizeDocument(text: string, areas: Taxonomy, provider: Option<string>, fallback: bool,
                              envProvider: string, probe: string -> bool,
                              remote: string -> Option<Dict<Json>>): Outcome<Option<Dict<Json>>>
  {
    match SelectProvider(provider, envProvider, probe)
    case Raised(_) => if fallback then KeywordResult(areas, text) else Returned(None)
    case Returned(p) =>
      match ProviderResult(p, areas, text, probe, remote)
      case Raised(_) => if fallback then KeywordResult(areas, text) else Returned(None)
      case Returned(Some(d)) =>
        if |d| > 0 then Returned(Some(d))
        else if fallback && p != KeywordsName then KeywordResult(areas, text)
        else Returned(None)
      case Returned(None) =>
        if fallback && p != KeywordsName then KeywordResult(areas, text)
        else Returned(None)
  }

  /** A provider's non-empty answer is passed through unchanged. */
  lemma CategorizeKeepsAnswer(text: string, areas: Taxonomy, provider: Option<string>, fallback: bool,
                              envProvider: string, probe: string -> bool, remote: string -> Option<Dict<Json>>)
    requires SelectProvider(provider, envProvider, probe).Returned?
    requires var p := SelectProvider(provider, envProvider, probe).value;
      p != KeywordsName && probe(p) && remote(p).Some? && |remote(p).value| > 0
    ensures CategorizeDocument(text, areas, provider, fallback, envProvider, probe, remote)
      == Returned(remote(SelectProvider(provider, envProvider, probe).value))
  {
  }

  /** Without fallback, a provider that gives nothing, or cannot be selected, gives None. */
  lemma CategorizeWithoutFallback(text: string, areas: Taxonomy, provider: Option<string>,
                                  envProvider: string, probe: string -> bool, remote: string -> Option<Dict<Json>>)
    requires SelectProvider(provider, envProvider, probe).Returned? ==>
      var p := SelectProvider(provider, envProvider, probe).value;
      p != KeywordsName && (!probe(p) || remote(p).None? || |remote(p).value| == 0)
    ensures CategorizeDocument(text, areas, provider, false, envProvider, probe, remote) == Returned(None)
  {
  }

  /**
   * With fallback, a remote provider that gives nothing, or a name that cannot be
   * selected, is replaced by the keyword classifier.
   */
  lemma CategorizeFallsBack(text: string, areas: Taxonomy, provider: Option<string>,
                            envProvider: string, probe: string -> bool, remote: string -> Option<Dict<Json>>)
    requires SelectProvider(provider, envProvider, probe).Returned? ==>
      var p := SelectProvider(provider, envProvider, probe).value;
      p != KeywordsName && (!probe(p) || remote(p).None? || |remote(p).value| == 0)
    ensures CategorizeDocument(text, areas, provider, true, envProvider, probe, remote) == KeywordResult(areas, text)
  {
  }

  /** Asking for the keyword provider gives the keyword classifier's answer. */
  lemma CategorizeByKeywords(text: string, areas: Taxonomy, fallback: bool, envProvider: string,
                             probe: string -> bool, remote: string -> Option<Dict<Json>>)
    requires KeywordCategorize(areas, text).Returned?
    ensures CategorizeDocument(text, areas, Some(KeywordsName), fallback, envProvider, probe, remote)
      == KeywordResult(areas, text)
  {
    assert Registry[5].0 == KeywordsName;
  }
}
