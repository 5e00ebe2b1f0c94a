# Johnny.Decimal document organiser, modelled in Dafny

This project models the Johnny.Decimal ("JD") core of a document organiser. The organiser files scanned documents into a two-level taxonomy:

- **areas**, such as `10-19 Finance`: at most nine user areas plus the reserved `00-09 System`;
- **categories** inside each area, such as `14 Receipts`: at most ten per area, numbered inside the area's range.

The model covers the parts of the program that decide things rather than perform I/O:

- the taxonomy validator, its suggestions, and the taxonomy store (`jd_system.py`);
- the keyword classifier, the reply decoder, provider selection and fallback (`ai_providers.py`);
- the older filing pipeline (`document_organizer.py`): keyword categorisation, filename generation, collision resolution, the processed-file ledger, the search index and one pass over the inbox;
- the two migrations: to grouped JD IDs (`migrate_to_jd.py`) and to flat IDs (`flatten_to_v2.py`). This covers the ID allocators, filename cleaning, metadata extraction and the JDex markdown index;
- folder-name parsing, rename proposals, rename execution and the rename report (`preview_renames.py`);
- the interview and wizard builders (`jd_builder.py`) and the detection of a finished proposal in a model's reply (`jd_prompts.py`);
- the UI helpers for search, area selection and orphan cleanup (`ui.py`);
- the settings store with its keychain, environment precedence and provider auto-selection (`settings.py`).

## How Python concepts are modelled

- **Dictionaries**: a Python `dict` keeps insertion order, so it is modelled as `Base.Dict<V>`, a sequence of key/value pairs. `Put` replaces a key in place or appends a new one, as `d[k] = v` does.
- **JSON**: JSON values are the `Base.Json` datatype. `json.loads` is a parameter `decode: string -> Option<Json>`; `None` stands for a decoding error.
- **Exceptions**: an exception the program lets escape is the `Raised` case of `Base.Outcome`.
- **Loops**: a loop in the source is a `method` with a `while` loop. It is proved equal to a specification function defined on the last element, and the properties the program promises are proved about that function as lemmas.
- **Mutable objects**: objects whose fields change (`JDSystem`, `Organizer`, `InterviewBuilder`, `WizardBuilder`, `Settings`, the keychain, a folder) are classes whose methods state their whole new state.
- **Outside inputs**: the clock, the file system probes, hashing, text extraction, remote model backends, the keychain and the environment are parameters or fields that the caller supplies.

Shared helpers are in these files:

- `base.dfy`: dictionaries, JSON and outcomes;
- `text.dfy`: ASCII string functions such as lower, title, strip, split, find and replace;
- `order.dfy`: Python's string order and `sorted`;
- `paths.dfy`: path names.

## Model

| member | source | states |
|---|---|---|
| JDValidator.ValidAreaRangeShape | jd_system.py:34-46 | the admissible ranges are exactly the ten decades `(10k, 10k+9)`, in order from `(0, 9)` |
| JDValidator.IsValidAreaName | jd_system.py:49-52 | the area-name pattern `^\d{2}-\d{2}\s+.+` over ASCII digits; `GetAreaRange` reads a range from every name it accepts |
| JDValidator.GetAreaRange | jd_system.py:60-66 | every valid area name has a range, and each of its two numbers is below 100 |
| JDValidator.GetCategoryNumber | jd_system.py:68-74 | every valid category name has a number, and that number is below 100 |
| JDValidator.CategoryNameRoundTrip | jd_system.py:54-74 | a two-digit number, a space and a label form a valid category name that reads back as that number |
| JDValidator.NonSystemNames | jd_system.py:98 | the names kept are the ones that do not start with `00-09`, and there are no more of them than names |
| JDValidator.Violations | jd_system.py:86-150 | every violation of a structure in the program's order; `ValidateStructure` computes it and `ViolationsIffWellFormed` shows it empty exactly for a structure that follows every rule |
| JDValidator.ValidateStructure | jd_system.py:85-150 | the error list is every violation, in the program's order, and the structure is valid exactly when that list is empty |
| JDValidator.CheckAreaHead | jd_system.py:110-130 | one area's duplicate-range, invalid-range and too-many-categories errors |
| JDValidator.CheckCategories | jd_system.py:132-148 | one area's category-name, outside-range and duplicate-number errors, each category after the previous ones |
| JDValidator.ScanCategoriesUsed | jd_system.py:144-148 | the numbers marked used are exactly those of the well-formed category names seen |
| JDValidator.ScanCategoriesClean | jd_system.py:132-148 | an area's category loop reports nothing exactly when every category name is valid, inside the range and unique in number |
| JDValidator.ScanAreasUsed | jd_system.py:110-116 | the ranges marked used are exactly those of the well-formed area names seen |
| JDValidator.AreaStepClean | jd_system.py:104-148 | one area adds no error exactly when it is well formed and its range is new |
| JDValidator.ScanAreasCleanDistinct | jd_system.py:110-116 | when the area loop reports nothing, no two areas share a range |
| JDValidator.ScanAreasCleanIsWellFormed | jd_system.py:104-148 | when the area loop reports nothing, every area follows every rule |
| JDValidator.WellFormedScansClean | jd_system.py:104-148 | when every area follows every rule, the area loop reports nothing |
| JDValidator.ViolationsIffWellFormed | jd_system.py:86-150 | a structure has no violation exactly when it follows every rule (decade ranges, unique ranges, at most nine user areas, at most ten categories, categories in range and unique) |
| JDValidator.ScanCategoriesKinds | jd_system.py:134-148 | the category loop reports only name, range and duplicate-number errors |
| JDValidator.ScanAreasNoCount | jd_system.py:104-148 | the area loop never reports the area count |
| JDValidator.TooManyAreasReported | jd_system.py:97-100 | "Too many areas" is reported, as the first error, exactly when more than nine names do not start with `00-09` |
| JDValidator.ScanAreasPrefix | jd_system.py:104-148 | later areas never withdraw the errors found for earlier ones, so every violation is collected |
| JDValidator.TooManyCategoriesReported | jd_system.py:128-130 | every well-named area with more than ten categories is reported |
| JDValidator.TooManyCategoriesOnlyIfSo | jd_system.py:106-130 | "Too many categories" is reported only for a well-named area that has more than ten categories |
| JDValidator.SuggestNextCategoryNumber | jd_system.py:152-178 | the smallest number of the area's range that no existing category uses; None when the name does not parse or every number is taken |
| JDValidator.SuggestNextAreaRange | jd_system.py:180-197 | the first range, in the fixed order, that no existing area uses; None exactly when all ten are used |
| JDSystem.ClassificationViewShape | jd_system.py:311-341 | the classification view keeps every area in place and maps every category to its keywords |
| JDSystem.LegacyRoundTrip | jd_system.py:624-638 | converting a legacy table and reading it back for classification gives the same table |
| JDSystem.ConvertLegacy | jd_system.py:624-638 | the converted structure holds every legacy area and category, in order, with its keywords and empty descriptions |
| JDSystem.WithCategory | jd_system.py:434-446 | setting a category changes only that area, whose categories now map the name to the new record; the area names stay the same |
| JDSystem.CanAddAreaIsNew | jd_system.py:476-499 | a name that passes `add_area`'s checks is not yet a key, so the new area goes last |
| JDSystem.AddAreaKeepsWellFormed | jd_system.py:476-499 | adding a well-formed area through `add_area` keeps a well-formed structure well formed |
| JDSystem.AddAreaAcceptsOffDecadeRange | jd_system.py:476-493 | `add_area` checks the name's shape but not the decade: `15-24 Misc` is accepted into an empty system, and the result fails validation |
| JDSystem.AddCategoryKeepsWellFormed | jd_system.py:419-446 | adding a category with a valid name and an unused number keeps a well-formed structure well formed |
| JDSystem.AddCategoryAcceptsDuplicateNumber | jd_system.py:419-432 | `add_category` does not check the number: `14 Invoices` is accepted beside `14 Receipts`, and the result fails validation |
| JDSystem.NextMilestone | jd_system.py:534-538 | the milestone never goes down |
| JDSystem.RecordCountsTally | jd_system.py:523-529 | recording adds one to the counted total exactly when the confidence is "high", "medium" or "low" |
| JDSystem.MilestoneStaysAhead | jd_system.py:531-538 | the milestone stays ahead of the document total, and moves only when the total reaches it |
| JDSystem.JDSystem.constructor | jd_system.py:216-289 | the document starts empty, with milestone 100, and is replaced by the stored `jdex.json` when that is readable |
| JDSystem.JDSystem.Save | jd_system.py:291-309 | `last_modified` is stamped even when the write then fails; the stored file is the whole document when the write succeeds |
| JDSystem.JDSystem.GetAreasForClassification | jd_system.py:311-341 | the result is the classification view of the current areas |
| JDSystem.JDSystem.CreateFromStructure | jd_system.py:343-397 | a structure with violations changes nothing; a valid one replaces the areas, and resets the metadata, the history (one "system_created" entry) and the statistics before saving |
| JDSystem.JDSystem.AddCategory | jd_system.py:399-456 | refused, with nothing changed, when the area is missing, the number is outside its range or the area is full; otherwise the category is set, exactly one "category_added" entry is appended, and the system is saved |
| JDSystem.JDSystem.AddArea | jd_system.py:458-509 | refused, with nothing changed, when the name is malformed, its range is used or nine user areas exist; otherwise the area goes last with its categories, exactly one "area_added" entry is appended, and the system is saved |
| JDSystem.JDSystem.RecordClassification | jd_system.py:511-539 | the per-category counter moves only for a known confidence; the total always grows by one; the milestone rises by 100 once reached; nothing is saved |
| JDSystem.GetJdAreas | jd_system.py:573-609 | with a `jdex.json`, its classification view (no areas when it is unreadable); without one, the fallback table |
| JDSystem.MigrateFromLegacy | jd_system.py:612-646 | a valid legacy table becomes the areas, created by "migration" with the `migrated_from` context; an invalid one leaves the system as loaded |
| AIProviders.Score | ai_providers.py:540-541 | a category's score is how many of its keywords occur in the lower-cased text, so it never exceeds the keyword count |
| AIProviders.CategoryFold | ai_providers.py:539-545 | the best cell found in one area's inner loop is always a real category of a real area |
| AIProviders.AreaFold | ai_providers.py:535-545 | the best cell found by the outer loop is always a real category of a real area |
| AIProviders.CategoryFoldSound | ai_providers.py:539-545 | after the inner loop, the best cell scores at least as much as every category visited, and strictly more than every earlier one |
| AIProviders.AreaFoldSound | ai_providers.py:535-545 | after the outer loop, which skips System and Archive, the best cell is the first category with the highest positive score |
| AIProviders.FirstEligible | ai_providers.py:561-563 | the first area that is neither `00-09 System` nor `90-99 Archive`, and None exactly when every area is one of them |
| AIProviders.KeywordCategorize | ai_providers.py:528-578 | `KeywordProvider.categorize`; `KeywordBestMatch`, `KeywordDefault` and `KeywordNoneIff` state its answer in each case, and `KeywordProviderCategorize` computes it with the source's loops |
| AIProviders.KeywordBestMatch | ai_providers.py:535-559 | when some eligible category scores, the answer is the highest-scoring one, ties going to the first visited; confidence is "medium" from two matches on, "low" below |
| AIProviders.WinnerUnique | ai_providers.py:543-545 | the strict comparison makes the winning category unique |
| AIProviders.KeywordDefault | ai_providers.py:561-578 | when nothing scores, the answer is the first category of the first eligible area with confidence "low"; an eligible area without categories raises; None only when no area is eligible |
| AIProviders.KeywordNoneIff | ai_providers.py:528-578 | the keyword classifier answers None exactly when every area is System or Archive |
| AIProviders.KeywordProviderCategorize | ai_providers.py:528-578 | the two loops compute the keyword classifier's answer |
| AIProviders.NextBrace | ai_providers.py:139 | the first `{` or `}` at or after a position, and None exactly when there is none |
| AIProviders.FlatObject | ai_providers.py:139 | the first match of `\{[^{}]*\}`: it opens with `{`, closes with `}`, and has no brace inside |
| AIProviders.ParseJsonResponse | ai_providers.py:127-145 | `parse_json_response`: the fenced body, else the reply, narrowed to its first brace-free object and decoded; `ParseCleanObject`, `ParseFenced` and `ParseUndecodable` state the cases |
| AIProviders.ParseCleanObject | ai_providers.py:127-145 | a reply that is a single flat object, without fences, is decoded as it stands |
| AIProviders.ParseFenced | ai_providers.py:133-134 | of a ```` ```json ```` fenced reply only the fenced text is decoded |
| AIProviders.ParseUndecodable | ai_providers.py:143-145 | a reply whose candidate text does not decode gives None |
| AIProviders.PromptAreas | ai_providers.py:89-93 | the area list in the prompt never names System or Archive |
| AIProviders.PromptAreasShown | ai_providers.py:89-93 | every other area appears in the prompt's list with its category names, in order |
| AIProviders.CategorizationPrompt | ai_providers.py:83-125 | the prompt ends with the first 8000 characters of the text followed by the fixed instructions |
| AIProviders.PromptText | ai_providers.py:85-87 | a text of at most 8000 characters is embedded whole, and a longer one as its first 8000 characters |
| AIProviders.FirstAvailableIsFirst | ai_providers.py:633-638 | auto-detection returns a provider of the list that is available, and every provider before it is unavailable |
| AIProviders.SelectProvider | ai_providers.py:609-645 | which provider `get_provider` builds, or its ValueError; `SelectProviderRule` states the rule and `GetProvider` computes it with the detection loop |
| AIProviders.SelectProviderRule | ai_providers.py:626-645 | with no name and no AI_PROVIDER, the first available of claude-code, anthropic, openai, bedrock, ollama and keywords; a named provider is chosen exactly when it is registered, and an unknown one raises |
| AIProviders.GetProvider | ai_providers.py:609-645 | the auto-detection loop chooses as the selection rule does |
| AIProviders.ListProviders | ai_providers.py:596-606 | every registered provider, in registry order, with its display name, key requirement and availability |
| AIProviders.CategorizeDocument | ai_providers.py:648-685 | `categorize_document` over the provider oracle; `CategorizeKeepsAnswer`, `CategorizeWithoutFallback`, `CategorizeFallsBack` and `CategorizeByKeywords` state its result in each case |
| AIProviders.CategorizeKeepsAnswer | ai_providers.py:668-673 | an available remote provider's non-empty answer is returned unchanged |
| AIProviders.CategorizeWithoutFallback | ai_providers.py:675-685 | without fallback, an empty answer, an unavailable provider or an unknown name gives None |
| AIProviders.CategorizeFallsBack | ai_providers.py:675-685 | with fallback, an empty answer, an unavailable provider or an unknown name gives the keyword classifier's answer |
| AIProviders.CategorizeByKeywords | ai_providers.py:668-679 | asking for the keyword provider gives the keyword classifier's answer, with or without fallback |
| DocumentOrganizer.Score | document_organizer.py:149 | a category scores 0 exactly when none of its keywords, taken as written, occurs in the lower-cased text |
| DocumentOrganizer.Scores | document_organizer.py:146-150 | one score per category, in the table's order |
| DocumentOrganizer.ArgMax | document_organizer.py:153 | `max(scores, key=scores.get)` is the first position that holds the largest score |
| DocumentOrganizer.MatchesFacts | document_organizer.py:155-160 | the tags collected are distinct, and are exactly the table's keywords that occur in the text |
| DocumentOrganizer.FirstTen | document_organizer.py:165 | `tags[:10]` is a prefix of at most ten tags, and is all of them when there are at most ten |
| DocumentOrganizer.FirstBestUnique | document_organizer.py:153 | only one category is the first best one |
| DocumentOrganizer.ArgMaxFirstBest | document_organizer.py:152-153 | `max` picks the first category with the best score |
| DocumentOrganizer.KeywordCategorize | document_organizer.py:143-168 | `categorize_with_keywords`; `KeywordBestCategory`, `KeywordOtherCategory` and `KeywordAnalysisFields` state its answer, and `CategorizeWithKeywords` computes it with the source's loops |
| DocumentOrganizer.KeywordBestCategory | document_organizer.py:152-164 | when a keyword matches, the first best category wins with its first subcategory; a winner without subcategories raises |
| DocumentOrganizer.KeywordOtherCategory | document_organizer.py:152-164 | when nothing matches, the answer is "other" with its first subcategory; an empty table, a missing "other" or an "other" without subcategories raises |
| DocumentOrganizer.AllKeywordsHold | document_organizer.py:157-158 | the tag loop visits every keyword of every category |
| DocumentOrganizer.KeywordAnalysisFields | document_organizer.py:143-168 | the confidence is always "low"; the tags are at most ten distinct matched keywords in first-seen order; the summary is the whole text up to 200 characters, and otherwise the first 200 and "..." |
| DocumentOrganizer.KeywordTagsComplete | document_organizer.py:155-165 | with at most ten matched keywords, every one of them becomes a tag |
| DocumentOrganizer.AnsweringTable | document_organizer.py:143-168 | a table with an "other" category, and a subcategory in every category, always gives an answer |
| DocumentOrganizer.DefaultCategoriesAnswer | document_organizer.py:143-168 | the built-in category table is such a table |
| DocumentOrganizer.CategorizeWithKeywords | document_organizer.py:143-168 | the scoring loop and the nested tag loop compute the keyword answer |
| DocumentOrganizer.CollectTags | document_organizer.py:155-160 | the tag loop collects each matched keyword once, in table order |
| DocumentOrganizer.CleanName | document_organizer.py:325 | the cleaned name has the same length and only letters, digits and `_`: those characters are kept and every other one becomes `_` |
| DocumentOrganizer.DatePart | document_organizer.py:305-310 | the date part always ends with `_` |
| DocumentOrganizer.RawNamePart | document_organizer.py:312-322 | the first entity, else the first two tags, else the stem, is cut to at most 30 characters |
| DocumentOrganizer.NamePart | document_organizer.py:312-325 | the name part is at most 30 characters of letters, digits and `_` |
| DocumentOrganizer.GenerateFilename | document_organizer.py:301-327 | the new name starts with the date part and ends with the original extension |
| DocumentOrganizer.FilenameKeepsExtension | document_organizer.py:301-327 | a name with an extension keeps it, and its stem is exactly the date part followed by the name part |
| DocumentOrganizer.CleanNameIdempotent | document_organizer.py:325 | a second cleaning leaves the name unchanged |
| DocumentOrganizer.CandidatesDistinct | document_organizer.py:364-369 | different counters give different candidate names |
| DocumentOrganizer.CandidatesTaken | document_organizer.py:364-369 | candidates that all exist need as many existing names, so the loop ends |
| DocumentOrganizer.FirstFree | document_organizer.py:364-369 | the first counter whose candidate is free; every earlier candidate exists |
| DocumentOrganizer.FreeName | document_organizer.py:363-369 | the chosen destination never exists already |
| DocumentOrganizer.ResolveCollision | document_organizer.py:363-369 | the `while dest_path.exists()` loop tries `new_name`, then `stem_1.ext`, `stem_2.ext` and so on, and stops at the first free one |
| DocumentOrganizer.LoadOr | document_organizer.py:394-403 | a missing or undecodable ledger reads as empty, a readable one as stored; `load_search_index` (lines 423-432) reads the search index the same way |
| DocumentOrganizer.MarkFileProcessed | document_organizer.py:480-486 | the entry for the hash is set or overwritten; every other entry is unchanged, and a new hash goes last |
| DocumentOrganizer.Target | document_organizer.py:356-369 | the target name is not taken in the destination folder |
| DocumentOrganizer.Organize | document_organizer.py:350-382 | the files after `organize_file`: the document moved to its free name in its category folder, its sidecar beside it; `OrganizeMoves` states that nothing else changes |
| DocumentOrganizer.OrganizeMoves | document_organizer.py:350-382 | organizing moves the document, with its content, out of the inbox to a place nothing occupied, and changes nothing but that place and its sidecar |
| DocumentOrganizer.MoveFacts | document_organizer.py:374-377 | a move to a fresh place followed by a sidecar write keeps every other file |
| DocumentOrganizer.Analyze | document_organizer.py:519-533 | an analysis that gets past the category print names both a category and a subcategory |
| DocumentOrganizer.AnalyzeText | document_organizer.py:519-533 | step 2 of `process_file`, with the keyword classifier's loops, computes the analysis |
| DocumentOrganizer.AnalyzeTrustsRemote | document_organizer.py:523-529 | a remote answer that names both fields is used as given |
| DocumentOrganizer.AnalyzeByKeywords | document_organizer.py:523-531 | without a remote answer, the keyword classifier decides, and over an answering table it never fails |
| DocumentOrganizer.Organizer.constructor | document_organizer.py:599-606 | an organizer over the given files, index file, ledger file and directories |
| DocumentOrganizer.Organizer.AddToSearchIndex | document_organizer.py:442-461 | the stored index becomes the loaded index plus exactly one new entry at the end, so earlier entries stay in order |
| DocumentOrganizer.Organizer.OrganizeFile | document_organizer.py:350-382 | the file moves to the first free name in its category folder, gets its sidecar and one new index entry; the destination path is returned |
| DocumentOrganizer.Organizer.ProcessFile | document_organizer.py:493-547 | a failed or whitespace-only extraction moves the file to `_failed`; a categorisation that raises changes nothing; otherwise the file is organized; other inbox files are untouched |
| DocumentOrganizer.Organizer.ProcessInboxFile | document_organizer.py:493-547 | the facts about one `process_file` call that the pass relies on: the file leaves the inbox and no other inbox file changes |
| DocumentOrganizer.Organizer.VisitInboxFile | document_organizer.py:620-635 | a file whose hash is known is deleted unprocessed and the ledger is unchanged; otherwise it is processed, and exactly when it is organized the ledger maps its pre-move hash to the entry (its name, its destination, the time), every other entry unchanged |
| DocumentOrganizer.Organizer.VisitInbox | document_organizer.py:614-638 | the loop of `process_once`: the stored ledger is untouched; on a raise the unsupported files are as they were; on completion every supported file has left the inbox, known entries are kept, and the new entries are exactly those of the organized results, under their pre-move hashes |
| DocumentOrganizer.Organizer.VisitAll | document_organizer.py:614-635 | the loop over the inbox listing: unsupported files stay as they were; on completion every supported file has left the inbox, the known ledger entries are kept, every new entry is the entry of an organized result of a supported file, under that file's pre-move hash, and every organized result is a file whose hash was new and whose entry the ledger holds |
| DocumentOrganizer.Organizer.ProcessOnce | document_organizer.py:599-647 | unsupported files stay; every supported file leaves the inbox; known ledger entries are kept; the saved ledger maps the pre-move hash of every organized result to its entry (name, destination, time), and every new entry is one of these; a duplicate is never processed; the ledger is saved once, and not at all when processing raises |
| DocumentOrganizer.JoinPathInjective | document_organizer.py:544 | a path under one folder determines the file name |
| LegacyMapping.Lookup | flatten_to_v2.py:177-179 | the first entry listed under the key, and None exactly when no entry has it |
| LegacyMapping.JdMapping | migrate_to_jd.py:110-116 | `get_jd_mapping` of both scripts; `JdMappingIgnoresCase`, `JdMappingCases` and `JdMappingOfEntry` state what it returns |
| LegacyMapping.JdMappingIgnoresCase | flatten_to_v2.py:175-181 | `get_jd_mapping` ignores letter case in both arguments |
| LegacyMapping.JdMappingCases | migrate_to_jd.py:110-116 | a listed pair gets the target the table gives it, and an unlisted one `("50-59 Personal", "54 Memberships")` |
| LegacyMapping.JdMappingOfEntry | flatten_to_v2.py:175-181 | in a table with unique lower-case keys, every entry is reached by its own pair, in any letter case |
| FlattenToV2.FlatYear | flatten_to_v2.py:184-200 | the first four characters of `document_date`, else of `date_mentioned`, else of `organized_date`, else the current year |
| FlattenToV2.Issuer | flatten_to_v2.py:203-218 | the first entity when there is one, and "" when there is none and the stem does not start with an eight-digit date part |
| FlattenToV2.IssuerFromStem | flatten_to_v2.py:211-216 | for a stem `YYYYMMDD_a_b`, the parts after the date joined by spaces |
| FlattenToV2.DocType | flatten_to_v2.py:221-234 | the explicit `document_type` when set; else, when a subcategory is set, that subcategory made singular by `SubcategoryType`; "Document" when neither is set; never "" |
| FlattenToV2.SubcategoryType | flatten_to_v2.py:232 | the title-cased subcategory, with `_` as spaces, minus its trailing `s` characters: a non-empty prefix of it that does not end in `s`, every character cut off being an `s` |
| FlattenToV2.CleanForFilename | flatten_to_v2.py:237-247 | "" for an empty input; otherwise at most `max_length` characters with no `/`, `\` or `:`; a result shorter than `max_length` does not end in `.`, `,`, `;` or `:` |
| FlattenToV2.CleanSafe | flatten_to_v2.py:244 | the three replacements leave no `/`, `\` or `:` behind |
| FlattenToV2.CleanKeepsClean | flatten_to_v2.py:237-247 | a short name that is already clean comes back unchanged |
| FlattenToV2.Descriptor | flatten_to_v2.py:256-266 | the cleaned issuer and doc type, each at most 30 characters, joined by a space; "Document" when both are empty |
| FlattenToV2.FlatFilename | flatten_to_v2.py:250-268 | `generate_flat_filename`, `"{id} {descriptor} {year}{ext}"`; `Descriptor` bounds and sanitises the descriptor, and `FlatFilenameParts` shows the ID reads back as the text before the first space |
| FlattenToV2.FlatFilenameParts | flatten_to_v2.py:250-268 | the name splits at its first space into the ID and `descriptor year.ext`, so the ID can be read back |
| FlattenToV2.CatNum | flatten_to_v2.py:403 | "09" for an empty category, the first word otherwise; a blank category raises IndexError |
| FlattenToV2.Allocate | flatten_to_v2.py:405-414 | the lookup-or-assign step touches only its own category's tracker, creating it as a `defaultdict` read does |
| FlattenToV2.AllocateStable | flatten_to_v2.py:408-409 | a key seen before in the category gets the same ID back and changes nothing |
| FlattenToV2.AllocateFresh | flatten_to_v2.py:410-414 | a new key gets `cat_num.NN` from `next_id`, which then grows by one, and the key now holds that ID |
| FlattenToV2.AllocateValid | flatten_to_v2.py:349 | allocation keeps every tracker valid: its IDs are `cat.01`, `cat.02`, ... in order, one per key |
| FlattenToV2.TrackerStepValid | flatten_to_v2.py:410-414 | assigning a new key keeps a tracker valid |
| FlattenToV2.AssignedDistinct | flatten_to_v2.py:405-414 | in a valid tracker different keys hold different IDs, so two issuer/year pairs never share an ID |
| FlattenToV2.FlatFromFirstFree | flatten_to_v2.py:423-432 | the chosen name is the first candidate that is not taken, or the hundredth when all before it are taken |
| FlattenToV2.FreeFlatName | flatten_to_v2.py:423-432 | the counter loop with its safety limit of 100 |
| FlattenToV2.AiCategorize | flatten_to_v2.py:87-109 | no AI call when there is neither a summary nor text; an answer without `jd_area` or `jd_category` is rejected |
| FlattenToV2.Place | flatten_to_v2.py:365-400 | the file is uncategorized exactly when AI is on and gives no answer, and it then goes to `00-09 System` / `09 Uncategorized`; without AI the static mapping applies |
| FlattenToV2.MigrateOne | flatten_to_v2.py:402-470 | one step of the loop for a placed file: category number, ID, name, and the copy unless in a dry run |
| FlattenToV2.MigrateToFlat | flatten_to_v2.py:331-476 | the loop over every scanned file computes the pass's counts and destination tree, or the exception that stopped it |
| FlattenToV2.FoldNext | flatten_to_v2.py:356-470 | one more file extends the pass by one step |
| FlattenToV2.FoldStopped | flatten_to_v2.py:403 | once a file raises, the pass stops there |
| FlattenToV2.PlaceUncategorized | flatten_to_v2.py:386-394 | the uncategorized count is taken exactly for the files the AI could not place |
| FlattenToV2.FlatFoldCounts | flatten_to_v2.py:351-476 | a completed pass counts every file as migrated and counts exactly the files the AI could not place as uncategorized |
| FlattenToV2.FlatFoldDryRun | flatten_to_v2.py:435-436 | a dry run leaves the destination as it was, even when it stops early |
| FlattenToV2.FlatFoldTrackersValid | flatten_to_v2.py:349-414 | every tracker built by a pass is valid: IDs `cat.01`, `cat.02`, ... in first-seen order, one per issuer/year key |
| FlattenToV2.FlatFromFree | flatten_to_v2.py:423-432 | the chosen name is free unless the generated name and its first 99 variants are all taken |
| FlattenToV2.FlatStepNoOverwrite | flatten_to_v2.py:419-442 | a copy never replaces an existing file unless the generated name and its first 99 variants are all taken |
| MigrateToJd.Correspondent | migrate_to_jd.py:119-136 | at most 30 characters, and "Unknown" when there is neither an entity nor an original filename |
| MigrateToJd.CorrespondentFromEntity | migrate_to_jd.py:121-125 | the first entity, with spaces and slashes turned into `_` and cut to 30 characters, so it holds no space or slash |
| MigrateToJd.CorrespondentPlainStem | migrate_to_jd.py:127-134 | with no entity, a stem without a leading all-digit part before `_` is kept whole, cut to 30 characters |
| MigrateToJd.CorrespondentFromStem | migrate_to_jd.py:127-134 | a stem `digits_rest` gives `rest`, cut to 30 characters, keeping its own underscores |
| MigrateToJd.ExtractYear | migrate_to_jd.py:139-155 | the first four characters of `date_mentioned`, else of `organized_date`, else the current year |
| MigrateToJd.FirstWord | migrate_to_jd.py:240 | `split()[0]` is the first word, and raises exactly when the string is blank |
| MigrateToJd.KeyList | migrate_to_jd.py:225-234 | one group key per scanned document, in scan order |
| MigrateToJd.Members | migrate_to_jd.py:235 | a group only holds scanned documents with its own key |
| MigrateToJd.FindGroup | migrate_to_jd.py:235 | the position of the group with a key, and None exactly when no group has it |
| MigrateToJd.GroupDocs | migrate_to_jd.py:222-235 | the grouping loop builds the `grouped` dictionary |
| MigrateToJd.GroupedSpec | migrate_to_jd.py:222-235 | one group per distinct key, in order of first occurrence, holding exactly the documents with that key in scan order |
| MigrateToJd.AddStep | migrate_to_jd.py:235 | appending one more document keeps the grouping matched to the keys seen so far |
| MigrateToJd.GroupedCovers | migrate_to_jd.py:225-235 | every document lands in the group of its own key |
| MigrateToJd.GroupedKeysDistinct | migrate_to_jd.py:223 | no two groups share a key |
| MigrateToJd.GroupedTotal | migrate_to_jd.py:222-235 | grouping neither loses nor duplicates a document |
| MigrateToJd.Bump | migrate_to_jd.py:244 | counting a key changes only its own category's counter, adding the key when it is new |
| MigrateToJd.AssignId | migrate_to_jd.py:239-247 | a blank category raises; otherwise the key is counted and the ID is `cat_num.NN`, where NN is the number of keys counted in the category so far |
| MigrateToJd.JdFieldsUnique | migrate_to_jd.py:268-275 | the five JD fields written over the metadata have distinct names |
| MigrateToJd.UpdatedMetadataFields | migrate_to_jd.py:268-275 | the updated metadata sets `id`, `jd_area`, `jd_category`, `correspondent` and `current_filename`, and keeps every other original field |
| MigrateToJd.CopyGroup | migrate_to_jd.py:258-303 | the inner loop computes the copies of one group's documents |
| MigrateToJd.GroupEntries | migrate_to_jd.py:291-301 | one index record per document of the group |
| MigrateToJd.GroupEntriesAt | migrate_to_jd.py:291-301 | the i-th record belongs to the i-th document, with the group's ID and key |
| MigrateToJd.CopyDocsEntries | migrate_to_jd.py:258-303 | copying a group appends one index record per document and counts each one; the tracker is unchanged |
| MigrateToJd.CopyDocsDryRun | migrate_to_jd.py:277-279 | a dry run copies nothing |
| MigrateToJd.CopyDocWrites | migrate_to_jd.py:280-286 | outside a dry run, the document and its updated sidecar are in the ID folder, and no other file changes |
| MigrateToJd.GroupsFoldNext | migrate_to_jd.py:238-303 | one more group extends the run by one step |
| MigrateToJd.GroupsFoldStopped | migrate_to_jd.py:240 | once a group raises, the run stops there |
| MigrateToJd.ProcessGroup | migrate_to_jd.py:238-303 | one pass of the group loop: the ID is assigned, then the group's files are copied |
| MigrateToJd.AdvanceRun | migrate_to_jd.py:238-303 | one pass of the group loop on a run that has not stopped |
| MigrateToJd.NextGroup | migrate_to_jd.py:237-303 | one pass of the group loop takes the run after the first i groups to the run after the first i + 1 |
| MigrateToJd.RunGroups | migrate_to_jd.py:237-303 | the group loop, halted at the first exception |
| MigrateToJd.Migrate | migrate_to_jd.py:203-313 | `migrate_files` over the scanned documents, with the destination before and after; `MigrateCountsAll`, `MigrateDryRun` and `MigrateSameGroupSameId` state its results |
| MigrateToJd.MigrateFiles | migrate_to_jd.py:203-313 | `migrate_files`: an empty scan returns zeros; otherwise the files are grouped, then the groups are processed |
| MigrateToJd.GroupsFoldCounts | migrate_to_jd.py:258-303 | every document of every group processed is counted and indexed exactly once |
| MigrateToJd.GroupsFoldDryRun | migrate_to_jd.py:253-279 | a dry run leaves the destination as it was |
| MigrateToJd.MigrateCountsAll | migrate_to_jd.py:203-313 | a completed migration counts and indexes every scanned document, with no errors, in a dry run too |
| MigrateToJd.MigrateDryRun | migrate_to_jd.py:213-279 | in a dry run nothing is written |
| MigrateToJd.SameIdStep | migrate_to_jd.py:291-301 | appending a new group's records keeps one ID per group key |
| MigrateToJd.GroupsFoldSameId | migrate_to_jd.py:238-303 | over groups with distinct keys, every record with a key carries that group's single ID |
| MigrateToJd.MigrateSameGroupSameId | migrate_to_jd.py:223-303 | all files of one (area, category, correspondent, year) group share one JD ID |
| MigrateToJd.CatCountMonotone | migrate_to_jd.py:244-245 | a category's count of groups never goes down along the run |
| MigrateToJd.GroupsFoldTracker | migrate_to_jd.py:243-245 | when no two groups of a category share a correspondent/year key, the tracker counts exactly the groups met so far |
| MigrateToJd.TrackerStep | migrate_to_jd.py:243-245 | counting the last group's key adds a new key to its category |
| MigrateToJd.GroupNumbering | migrate_to_jd.py:239-247 | the groups of a category are numbered `cat.01`, `cat.02`, ... in first-seen order, as long as no two of them share a correspondent/year key |
| MigrateToJd.GroupIdsDistinct | migrate_to_jd.py:239-247 | then two groups of one category get different IDs |
| MigrateToJd.IdKeyInjective | migrate_to_jd.py:243 | with years free of `_`, the key `correspondent_year` determines both parts |
| MigrateToJd.SeparateWhenPlain | migrate_to_jd.py:234-243 | distinct group keys give distinct correspondent/year keys in a category when no year holds `_` and each category lies in one area |
| MigrateToJd.ShortSummary | migrate_to_jd.py:359-361 | a summary of at most 100 characters is kept whole; a longer one becomes its first 100 characters and "..." |
| MigrateToJd.Select | migrate_to_jd.py:321-323 | the entries picked for a value are exactly those whose field has that value, in order |
| MigrateToJd.SortedKeysSpec | migrate_to_jd.py:337 | the keys are sorted, each occurs once, and they are exactly the values that entries carry |
| MigrateToJd.EntryBlocks | migrate_to_jd.py:358-364 | one block of lines per entry |
| MigrateToJd.IdBlocks | migrate_to_jd.py:351-366 | one block per ID, holding that ID's entries |
| MigrateToJd.CategoryBlocks | migrate_to_jd.py:341-366 | one block per category, holding that category's entries |
| MigrateToJd.AreaBlocks | migrate_to_jd.py:337-368 | one block per area, holding that area's entries |
| MigrateToJd.EntriesBlock | migrate_to_jd.py:358-364 | the entry loop writes the entry blocks one after another |
| MigrateToJd.IdBlock | migrate_to_jd.py:352-366 | the heading `#### id correspondent year` and the location line, followed by the entries' lines |
| MigrateToJd.IdsBlocks | migrate_to_jd.py:351-366 | the ID loop writes the ID blocks in the given order |
| MigrateToJd.CategoryBlock | migrate_to_jd.py:342-366 | the heading `### category`, followed by the category's IDs in sorted order |
| MigrateToJd.CategoriesBlocks | migrate_to_jd.py:341-366 | the category loop writes the category blocks in the given order |
| MigrateToJd.AreaBlock | migrate_to_jd.py:338-368 | the heading `## area`, followed by the area's categories in sorted order |
| MigrateToJd.AreasBlocks | migrate_to_jd.py:337-368 | the area loop writes the area blocks in the given order |
| MigrateToJd.JdexIndex | migrate_to_jd.py:316-379 | the destination after `generate_jdex_index`; `GenerateJdexIndex` computes the lines, and `IndexHeading` and `IndexListsEntry` state what the written index holds |
| MigrateToJd.GenerateJdexIndex | migrate_to_jd.py:316-379 | in a dry run nothing is written; otherwise `00.00 Index.md` holds the generated lines |
| MigrateToJd.IndexHeading | migrate_to_jd.py:326-334 | the index opens with its title and the time, and states "Total documents: N" for the N entries |
| MigrateToJd.IdLinesList | migrate_to_jd.py:358-362 | each entry of an ID is listed as `- filename` |
| MigrateToJd.CategoryLinesList | migrate_to_jd.py:346-362 | each entry of a category is listed under one of its IDs |
| MigrateToJd.AreaLinesList | migrate_to_jd.py:341-362 | each entry of an area is listed under one of its categories |
| MigrateToJd.IndexListsEntry | migrate_to_jd.py:320-368 | every index record is listed as `- filename` |
| MigrateToJd.MigrationRunWrites | migrate_to_jd.py:316-379 | a dry run writes nothing; a real run over documents writes the index that lists the migrated records |
| JdIds.JdIdInjective | migrate_to_jd.py:247 | `f"{cat_num}.{n:02d}"` gives different IDs for different numbers |
| JdIds.IdFolderNameRest | migrate_to_jd.py:248 | the ID folder name is the ID, a space, and then `descriptor year` |
| PathNames.BaseName | preview_renames.py:278-279 | the last path component holds no `/` and ends the path |
| PathNames.SuffixDot | document_organizer.py:303 | the dot that starts `Path.suffix` is the last dot, neither first nor last in the name |
| PathNames.Suffix | document_organizer.py:303 | `Path.suffix` is empty or a dot followed by at least one character, with no further dot, and ends the name |
| PathNames.StemSuffix | document_organizer.py:366-367 | stem and suffix put together give the name back |
| PathNames.SuffixSplit | document_organizer.py:366-368 | a stem followed by an extension has that stem and that suffix |
| PathNames.JoinPath | document_organizer.py:356-361 | a joined path ends with `/` and the name |
| PathNames.ParentJoin | preview_renames.py:278-279 | the parent of a joined path is the folder it was joined to |
| PreviewRenames.ExtractCurrentInfo | preview_renames.py:55-74 | the ID, which holds no space, is the text before the first space; the year is empty or four digits; a name without a space gives an empty descriptor and year; otherwise the name is rebuilt from the parts |
| PreviewRenames.YearHasNoSpace | preview_renames.py:66-70 | a four-digit year holds no space |
| PreviewRenames.RestWithoutYear | preview_renames.py:66-72 | when the last word is not four digits, the descriptor does not end in a year |
| PreviewRenames.ExtractBuilt | preview_renames.py:232 | parsing inverts the build `f"{jd_id} {desc} {year}"` whenever the ID has no space and the year has four digits |
| PreviewRenames.FirstWords | preview_renames.py:159 | `summary.split()[:4]` is the first four words, or all of them when there are fewer |
| PreviewRenames.ProposeNewName | preview_renames.py:142-163 | `propose_new_name`; `ProposePriority` states the order in which issuer, doc type and summary are consulted, and `ProposeFallback` the last resort |
| PreviewRenames.ProposePriority | preview_renames.py:142-163 | "issuer doctype", else the doc type, else the issuer, else the first four words of a summary longer than five characters, title-cased |
| PreviewRenames.ProposeFallback | preview_renames.py:162-163 | with nothing else, the original name, title-cased, with every `_` as a space |
| PreviewRenames.AnyInSpec | preview_renames.py:254-267 | the pattern test holds exactly when some pattern occurs |
| PreviewRenames.DetectIssue | preview_renames.py:248-270 | `detect_issue`; `DetectIssueOrder` states its checks and their fixed order |
| PreviewRenames.DetectIssueOrder | preview_renames.py:248-270 | the checks run in a fixed order: a personal name, then length below five, then a URL, then a file extension, and otherwise "Missing issuer/document type" |
| PreviewRenames.FolderProposal | preview_renames.py:184-243 | a proposal is made exactly when the folder is not hidden, not already named "issuer doctype", and the proposed name differs from the current one |
| PreviewRenames.Scan | preview_renames.py:166-245 | every proposal comes from a scanned folder and renames it to a different name |
| PreviewRenames.ScanJdDocuments | preview_renames.py:166-245 | the walk collects the proposals in walk order |
| PreviewRenames.WellNamedSkipped | preview_renames.py:190-194 | a folder already named from its issuer and doc type gets no proposal |
| PreviewRenames.ProposalKeepsId | preview_renames.py:229-232 | a proposed name keeps the folder's ID, and its year or else the current year |
| PreviewRenames.RenameOne | preview_renames.py:286-292 | a rename succeeds exactly when the old folder exists and the new path is free, is an empty folder (which it replaces, as POSIX `rename` does) or is the old path itself; a failure changes nothing |
| PreviewRenames.ExecuteRenames | preview_renames.py:273-294 | `execute_renames` as a pass over the proposals, with the folders before and after; `ExecuteDryRun`, `ExecuteNext` and `ExecutePartition` state where each proposal ends up |
| PreviewRenames.ExecuteRenamesLoop | preview_renames.py:273-294 | the rename loop computes the results and the folders after it |
| PreviewRenames.FailedProposals | preview_renames.py:292 | each failure is its proposal with the error added |
| PreviewRenames.ExecuteDryRun | preview_renames.py:281-284 | a dry run puts every proposal in `success`, in order, and renames nothing |
| PreviewRenames.ExecuteNext | preview_renames.py:277-292 | each proposal is appended to exactly one of `success` and `failed` |
| PreviewRenames.ExecutePartition | preview_renames.py:273-294 | `success` and `failed` together hold every proposal exactly once |
| PreviewRenames.RenameMoves | preview_renames.py:286-287 | a successful rename puts the folder, with its contents, at the new path, removes the old path, and touches no other folder |
| PreviewRenames.SectionKeys | preview_renames.py:312-313 | one section key per proposal, `"area / category"` |
| PreviewRenames.Items | preview_renames.py:311-316 | a section holds exactly the proposals with its key |
| PreviewRenames.ReportNext | preview_renames.py:312-316 | one more proposal adds its key and joins its own section |
| PreviewRenames.Rows | preview_renames.py:324-328 | one table row per item |
| PreviewRenames.Sections | preview_renames.py:318-330 | one block per section, holding that section's proposals |
| PreviewRenames.SectionRows | preview_renames.py:324-328 | the row loop writes one row per item, in order |
| PreviewRenames.GroupKeys | preview_renames.py:311-316 | `by_category` has exactly the keys met, in first-seen order |
| PreviewRenames.GroupItems | preview_renames.py:311-316 | each key of `by_category` holds exactly its proposals, in order |
| PreviewRenames.GroupByCategory | preview_renames.py:311-316 | the grouping loop builds `by_category` |
| PreviewRenames.SectionsLoop | preview_renames.py:318-330 | the section loop writes the sections in the given order |
| PreviewRenames.Report | preview_renames.py:297-339 | `generate_report`'s returned text, the report lines joined by newlines; `ReportTotal`, `ReportSections` and `ReportRow` state what the lines hold |
| PreviewRenames.GenerateReport | preview_renames.py:297-339 | the report is the header followed by the sections in sorted order, joined into one text |
| PreviewRenames.ReportTotal | preview_renames.py:299-308 | the report states "Total folders to rename: **N**" for the N proposals |
| PreviewRenames.ReportSections | preview_renames.py:318 | the sections are sorted, each appears once, and they are exactly the keys of the proposals |
| PreviewRenames.ReportRow | preview_renames.py:318-328 | every proposal has its row in the report |
| JdBuilder.CategoryOf | jd_builder.py:113-114 | a category read from a proposal starts with no documents and no last document, and keeps the keywords the proposal lists |
| JdBuilder.PatchAreaKeys | jd_builder.py:152-159 | one merge step leaves the proposal's areas in place and adds the modified area's name, and no other |
| JdBuilder.MergeKeys | jd_builder.py:151-159 | after merging, the areas are exactly those of the proposal plus those named by the modifications |
| JdBuilder.MergeUntouched | jd_builder.py:151-159 | an area no modification names is left exactly as it was |
| JdBuilder.MergeNamed | jd_builder.py:151-159 | a modified area that already existed gets the modification's categories merged into its own (or is left alone when the modification has no "categories" key); a new area is the modification's record |
| JdBuilder.WithSystemArea | jd_builder.py:196-209 | the result has a "00-09 System" area, and every other area is what it was |
| JdBuilder.SystemAreaWellFormed | jd_builder.py:197-209 | the inserted System area, with "00 Index" and "01 Inbox", obeys every area and category rule and is reserved |
| JdBuilder.SystemAreaNameShape | jd_builder.py:197 | "00-09 System" is a valid area name for the range 00-09 and carries the reserved prefix |
| JdBuilder.SystemCategoriesShape | jd_builder.py:199-208 | "00 Index" and "01 Inbox" are valid category names inside 00-09, apart, and within the category limit |
| JdBuilder.NonSystemNamesAppend | jd_builder.py:196-209 | adding a reserved area does not change the count of non-system areas |
| JdBuilder.WellFormedAppend | jd_builder.py:196-209 | appending a well-formed area whose range no existing area uses keeps a structure valid, when the non-system count stays within limit |
| JdBuilder.SystemAreaAppended | jd_builder.py:196-209 | without a System area, the insertion appends it at the end and the non-system areas are unchanged |
| JdBuilder.SystemAreaKeepsValid | jd_builder.py:185-209 | a valid proposal in which no area uses the range 00-09 stays valid after the System area is added |
| JdBuilder.SystemAreaClash | jd_builder.py:185-218 | a valid proposal that uses 00-09 under another name becomes invalid once the System area is added, so creating the system then fails |
| JdBuilder.Answer | jd_builder.py:97-137 | the reply is a proposal exactly when the non-empty answer parses to one, and a question exactly when it parses to nothing; an empty answer gives the "Failed to get response" error; the proposal's structure is the parsed "structure" field |
| JdBuilder.ErrorTexts | jd_builder.py:172 | one message per violation, in the same order, each the validator's text for it |
| JdBuilder.ContextFor | jd_builder.py:215 | a given, non-empty user context wins; otherwise the builder's own |
| JdBuilder.CreateSystem | jd_builder.py:211-222 | a new system exists exactly when the areas are valid and the index file can be written; it then holds those areas, the generation method and the user context, stamped with `now` |
| JdBuilder.InterviewBuilder.constructor | jd_builder.py:34-44 | an interview starts with no conversation, no proposal, no context and no provider |
| JdBuilder.InterviewBuilder.SetAiProvider | jd_builder.py:56-62 | installs the provider and changes nothing else |
| JdBuilder.InterviewBuilder.ConversationForDisplay | jd_builder.py:64-73 | the greeting while the conversation is empty, the conversation otherwise |
| JdBuilder.InterviewBuilder.ProcessMessage | jd_builder.py:75-137 | without a provider: the "No AI provider configured" error and no change; with one: the user's message is appended before asking, the model's answer is appended unless the exchange failed, and a proposal replaces the proposed structure |
| JdBuilder.InterviewBuilder.ModifyProposal | jd_builder.py:139-161 | without a (non-empty) proposal the result is empty and nothing changes; otherwise the proposal becomes the merge of the modifications into it, and is returned |
| JdBuilder.InterviewBuilder.ValidateProposal | jd_builder.py:163-172 | without a proposal: invalid with "No structure has been proposed yet"; otherwise valid exactly when the validator finds no violation, with one message per violation |
| JdBuilder.InterviewBuilder.Finalize | jd_builder.py:174-222 | nothing is created and the proposal is untouched when it is missing or invalid; otherwise the System area is added to the proposal first, and a system is created from it with method "interview" and the chosen user context exactly when that succeeds |
| JdBuilder.InterviewBuilder.Reset | jd_builder.py:224-228 | the conversation, proposal and user context are cleared; the provider is kept |
| JdBuilder.TemplateInfos | jd_builder.py:362-370 | one entry per template, in order, with its key, name and description |
| JdBuilder.WizardBuilder.constructor | jd_builder.py:355-359 | the wizard starts with the class's templates, nothing selected and no customisations |
| JdBuilder.WizardBuilder.SelectTemplate | jd_builder.py:372-377 | succeeds exactly for a known template key, and then selects it; an unknown key leaves the selection as it was |
| JdBuilder.WizardBuilder.GetStructure | jd_builder.py:379-395 | nothing before a selection; otherwise the selected template's areas with the customisations merged in, the template table itself unchanged |
| JdBuilder.WizardBuilder.Customize | jd_builder.py:397-399 | the modifications are added to the customisations, replacing earlier ones for the same area |
| JdBuilder.WizardBuilder.Finalize | jd_builder.py:401-430 | a system is created exactly when there is a non-empty, valid structure and the index can be written; it has method "wizard" and the template key as its user context |
| JdPrompts.InterviewMessages | jd_prompts.py:280-300 | never empty: the greeting for an empty history, the history itself otherwise |
| JdPrompts.JsonBlock | jd_prompts.py:316 | no block without a "```json" fence; a block found holds no fence and has no whitespace at either end |
| JdPrompts.BeforeFirstLacks | jd_prompts.py:316 | text before the first closing fence contains no fence |
| JdPrompts.JsonBlockFenced | jd_prompts.py:316-318 | a fenced body without backquotes and without surrounding whitespace is extracted exactly |
| JdPrompts.OpeningFence | jd_prompts.py:316 | the opening fence is found at the start, and what follows is the body and the closing fence |
| JdPrompts.ClosingFence | jd_prompts.py:316 | the closing fence is found right after a backquote-free body |
| JdPrompts.Accepts | jd_prompts.py:321-322 | raises exactly for decoded values that are not objects; otherwise accepts exactly objects with a truthy "ready" and a "structure" key |
| JdPrompts.TryProposal | jd_prompts.py:318-332 | raises exactly when the text decodes to a non-object; gives the decoded value exactly when it is a proposal |
| JdPrompts.ParseStructureFromResponse | jd_prompts.py:303-334 | whatever is returned is a proposal, decoded either from the fenced block or from the whole reply |
| JdPrompts.BlockFirst | jd_prompts.py:316-323 | a proposal in the fenced block is returned, whatever the whole reply holds |
| JdPrompts.WholeReply | jd_prompts.py:326-332 | when the block is missing or does not decode, the result is that of the whole reply |
| JdPrompts.NotJson | jd_prompts.py:318-334 | text that decodes neither in the block nor as a whole yields nothing |
| JdPrompts.NotReady | jd_prompts.py:318-334 | when every decodable text is an object that is not a ready proposal, nothing is returned |
| JdPrompts.BlockNotObject | jd_prompts.py:318-325 | a block that decodes to something other than an object makes the call raise, since only decoding errors are caught |
| Ui.TagsHit | ui.py:311-314 | true exactly when some tag, lower-cased, contains the query |
| Ui.MetadataHit | ui.py:291-323 | true exactly when one of the analysis attributes the field selects (issuer, document type, summary, tags, area or category, extracted text) contains the query, absent or null attributes reading as empty |
| Ui.RowMatches | ui.py:286-326 | true exactly when the selected file name contains the query or, for a row with a non-empty analysis, one of its selected attributes does |
| Ui.Filter | ui.py:284-328 | the rows kept by `filter_files`, in their order; `FilterIsSubList`, `FilterCounts`, `NameOnlyWithoutMetadata` and `AllWidens` state which |
| Ui.FilterFiles | ui.py:278-328 | an empty query returns the rows unchanged; otherwise the rows that match the lower-cased query, in their order |
| Ui.FilterIsSubList | ui.py:285-328 | the filtered rows are a sub-list of the input, order kept |
| Ui.FilterCounts | ui.py:285-328 | a matching row occurs in the result as often as in the input, a non-matching row not at all, so nothing is added or duplicated |
| Ui.NameOnlyWithoutMetadata | ui.py:286-291 | a row without analysis matches exactly when the file name is searched and contains the query |
| Ui.AllWidens | ui.py:288-326 | whatever matches under one field also matches under "all" |
| Ui.Offered | ui.py:376-382 | the System area offers only "09 Uncategorized"; any other area offers its own categories |
| Ui.Choices | ui.py:372-384 | the areas `get_areas_and_categories` offers, each with its categories; `ChoicesKeys`, `ChoicesGet` and `ChoicesUnique` state what it holds |
| Ui.ChoicesStep | ui.py:375-383 | each area adds its choices after those of the areas before it, the Archive area adding none |
| Ui.ChoicesKeys | ui.py:375-383 | the areas offered are exactly the known areas other than the Archive |
| Ui.ChoicesGet | ui.py:375-383 | each offered area comes with the categories `Offered` gives for it |
| Ui.ChoicesUnique | ui.py:375-383 | no area is offered twice |
| Ui.AreasAndCategories | ui.py:372-384 | the category lists are the choices for the areas, and the area list is exactly their keys, in order |
| Ui.Orphans | ui.py:415-421 | an analysis file is an orphan exactly when it is listed and its document does not exist; a listing without repeats gives orphans without repeats |
| Ui.Folder.constructor | ui.py:402 | a folder with the given existence and entries |
| Ui.FindOrphans | ui.py:415-421 | the loop collects exactly the orphans, in listing order |
| Ui.DeleteAll | ui.py:430-437 | every orphan is removed from the folder, nothing else is, and the count is the number of orphans |
| Ui.CleanupOrphanedAnalysisFiles | ui.py:402-439 | a missing folder gives 0 and is untouched; otherwise every orphaned analysis file is deleted, the newest included, and their number returned |
| Ui.CleanupKeeps | ui.py:402-439 | after cleanup, an entry remains exactly when it is not an analysis file or its document exists |
| Ui.CleanupCount | ui.py:430-439 | the count returned equals the number of distinct files deleted |
| Ui.DistinctCard | ui.py:430-439 | a list without repeats has as many elements as its set |
| Settings.DefaultsUnique | settings.py:108-128 | the default settings name no setting twice |
| Settings.Public | settings.py:173-174 | nothing `save` writes is one of the two API keys |
| Settings.PublicGet | settings.py:173-174 | the saved settings hold every non-secret setting with its value in memory, and neither API key |
| Settings.Keychain.constructor | settings.py:34-40 | a keychain with or without a working keyring, and its passwords |
| Settings.Keychain.Lookup | settings.py:43-52 | a password is found exactly when there is a keyring holding a non-empty one for the key, and it is that password |
| Settings.Keychain.Store | settings.py:55-71 | the keychain changes as `Stored` says |
| Settings.Keychain.Delete | settings.py:74-83 | the password is gone afterwards; success exactly when a keyring held it |
| Settings.Stored | settings.py:55-71 | without a keyring nothing changes and False is returned; an empty value deletes the password; a non-empty string value is stored; nothing else changes on refusal |
| Settings.Loaded | settings.py:143-153 | a missing or unreadable settings file leaves the defaults as they are |
| Settings.LoadedKeepsDefaults | settings.py:138-153 | every default setting exists after loading, with the file's value when the file has one and the default otherwise |
| Settings.UpdatedValuesGet | settings.py:205-213 | after `update`, an API key it names is blank in memory, another setting it names has its new value, and every setting it does not name is as before |
| Settings.Settings.constructor | settings.py:138-167 | the settings are the defaults overlaid with the file, then each truthy API key the keychain accepts is moved there and blanked in memory; the file is rewritten only if a key moved |
| Settings.Settings.Save | settings.py:169-178 | the file receives the settings without the API keys when it can be written, and is unchanged otherwise; memory is unchanged |
| Settings.Settings.MigrateKey | settings.py:158-165 | one key moves as `MigrateStep` says, and the file is untouched |
| Settings.Settings.MigrateKeysToKeychain | settings.py:155-167 | both keys are migrated in turn, and the settings are saved only when at least one of them moved |
| Settings.Settings.GetSetting | settings.py:180-188 | an API key comes from the keychain when it holds a non-empty one, else from memory; any setting missing from memory gives the default |
| Settings.Settings.Set | settings.py:190-203 | an API key the keychain accepts is blanked in memory, one it refuses is kept in memory; any other setting takes the value; the settings are saved in every case |
| Settings.Settings.UpdateSettings | settings.py:205-213 | memory and keychain end as the entries applied in order say, the API keys blanked in memory whatever the keychain answered, with one save at the end |
| Settings.Settings.Reset | settings.py:215-221 | both API keys leave the keychain, the defaults are restored and saved |
| Settings.Settings.OutputDir | settings.py:228-242 | the saved directory if non-empty, else OUTPUT_DIR if non-empty, else the default under the home directory |
| Settings.Settings.InboxDir | settings.py:245-259 | the saved inbox if non-empty, else INBOX_DIR if non-empty, else the System Inbox folder of the output directory |
| Settings.Settings.AiProvider | settings.py:262-264 | the `ai_provider` setting, "auto" when absent; `ProviderTryOrder` and `ProviderRungs` state what `get_effective_provider` makes of it |
| Settings.Settings.EffectiveProvider | settings.py:271-303 | a provider other than "auto" is returned as set; under "auto" the result is one of the known providers, and "keywords" exactly when no saved key, no key variable, no `claude` command and no answering Ollama exists |
| Settings.FirstApplying | settings.py:278-303 | the first source in the list that applies gives the provider; the fallback when none applies |
| Settings.ProviderTryOrder | settings.py:271-303 | under "auto", the provider is that of the first applying source, in the order saved Anthropic key, saved OpenAI key, ANTHROPIC_API_KEY, OPENAI_API_KEY, `claude` on the PATH, an answering Ollama, and "keywords" after them |
| Settings.ProviderRungs | settings.py:278-300 | each rung of that order on its own: the saved Anthropic key gives "anthropic"; failing it a saved OpenAI key gives "openai"; failing both ANTHROPIC_API_KEY gives "anthropic"; then OPENAI_API_KEY "openai"; then `claude` on the PATH "claude-code"; then an answering Ollama "ollama" |
| Settings.MigrateStep | settings.py:158-165 | a key migrates exactly when its value is truthy and the keychain accepts it; it is then blanked in memory, otherwise nothing changes |
| Settings.EnvValue | settings.py:236-240 | the variable's value, or empty when it is not set |
| Settings.KeychainKeyIgnored | settings.py:277-289 | with a key only in the keychain and no other source, `get` finds the key but "auto" still yields "keywords" |
| Settings.Settings.IntendedEffectiveProvider | settings.py:271-303 | like `get_effective_provider`, but with the keys read through `get`: a key the keychain holds selects its provider |
| Settings.MemoryKeySeenAlike | settings.py:180-188 | without a keyring the corrected and the written choice agree |
| StrOrder.Sort | migrate_to_jd.py:337 | `sorted` returns the same elements, each as often |
| StrOrder.SortSorted | migrate_to_jd.py:337 | `sorted` returns them in Python's string order |
| StrOrder.SortedUnique | preview_renames.py:318 | two sorted lists of the same elements are equal, so the order of the input does not matter |
| StrOrder.SortedDistinctSpec | migrate_to_jd.py:337 | the sorted keys of a grouping are in order, without repeats, and exactly the values grouped |
| StrOrder.BelowTotal | preview_renames.py:318 | two different strings are ordered one way or the other |

## Left out

General:

- File I/O, JSON encoding, `Path` operations, `shutil` and directory creation (`create_folders`, `create_jd_folder_structure`, `mkdir`). The file system is an abstract map or set of names. Paths are joined with "/" and read by name only, without `pathlib`'s normalisation.
- Printing and logging are not modelled. This includes the dry-run previews, the warnings and the skipped counter of `process_once`, which is only printed.
- Strings are ASCII only. `lower`, `title`, `isdigit`, `isalnum` and whitespace follow the ASCII rules, and regex `\d` and `isdigit` accept only '0'-'9'. Unicode digits and case mapping are not modelled.
- JSON numbers are integers (`JNum`); floating-point values are not modelled, since no modelled rule reads a number that is not a whole count.
- JSON values that are not strings, where the program expects strings (metadata fields, settings), read as absent. Non-string items of a list field are dropped.
- The clock is a parameter. Each call receives one `now` timestamp and one current year; a call that reads the clock twice sees the same value both times.
- The text-extraction libraries (Docling, pdfplumber, pytesseract) are an oracle returning the extraction outcome.
- Content hashing is an opaque function parameter. The digest is not modelled, and the model does not rely on its length (MD5 in the code, 64 hex digits in the tests).
- The remote categorisation and chat back ends are oracles: Anthropic, OpenAI, Bedrock, Ollama, the Claude Code command, `categorize_with_claude_code`, `categorize_with_llm`, the AI step of `flatten_to_v2.py` and `propose_new_name_from_ai`. So are their `is_available` probes. The API-key and URL checks inside them, including Ollama's `_validate_url`, are part of those oracles.
- The polling loop `watch_folder` (sleep, interrupts) is not modelled; the model covers one pass, `process_once`.
- The command-line entry points (`main` of each script) are not modelled; they only parse arguments and print.
- Not modelled at all: `api_server.py`, `device_auth.py`, `icons.py`, the Streamlit rendering in `ui.py`, and the packaging and launch scripts. They are plumbing, randomness and rendering outside the filing rules.
- Aliasing between Python objects is not modelled, because every structure is a value. `modify_proposal` mutating nested dictionaries that the caller still holds, and the deep copy in `get_structure`, therefore both amount to working on a value.

`jd_system.py`:

- The legacy area format, in which an area dictionary holds its categories directly, is not modelled; `migrate_from_legacy` is the one exception. Every area record has a `categories` dictionary.
- `jdex.json` is the `JdexFile` value, and the outcome of a write is the `writeOk` parameter. `get_jd_areas` takes the saved file and the fallback table (`JD_AREAS`) as parameters.
- The evolution fields `last_review` and `pending_suggestions` and the statistic `low_confidence_patterns` are not modelled: `Evolution` holds only the document count, the next milestone and the history, and `Document` only the per-category counts. So the reset of these three by `create_from_structure` (`jd_system.py:378-395`) is not modelled either; the model resets the rest of evolution and the counts as the source does.

`ai_providers.py`:

- The worked keyword examples of tests/test_ai_providers.py:92-108 ("receipt for purchase", "Blood test results from hospital") are not proved as concrete instances. They evaluate the classifier on the whole literal category table, which is too costly to unfold; the general lemmas about the classifier cover them.

`document_organizer.py`:

- `load_metadata` and the inbox listing are inputs. The walk order of the inbox is the order of the listing.
- Inbox files, filed documents, quarantined files and the two databases are separate kinds of location (`Loc`), so the model assumes that the inbox does not lie inside the output tree.
- A failed `shutil.move` is not modelled: a move to a free name always succeeds.
- The sidecar and index writes always succeed.

`flatten_to_v2.py` and `migrate_to_jd.py`:

- Copying a file or writing its metadata always succeeds, so the `errors` counter of both migrations stays 0. An exception the loop does not catch (a blank category name at `jd_category.split()[0]`) ends the run as `Raised`.
- The scanners (`scan_existing_structure`, `scan_existing_files`) are inputs: the list of files with their metadata, in walk order.
- MigrateToJd.SeparateWhenPlain: groups are kept apart only under the stated conditions (no year holding "_", each category in a single area). The program's key `f"{correspondent}_{year}"` can in principle merge two different groups.

`preview_renames.py`:

- The directory walk of `scan_jd_documents` is an input: the ID folders with their metadata, in sorted walk order.
- PreviewRenames.RenameOne: only folders are tracked, each with whether it is empty. A rename fails when the source is missing or the target is a non-empty folder; a target that is a regular file, permission errors and other operating-system errors are not modelled. The ID folders sit side by side, so a rename never moves another tracked folder.
- `detect_issue` has a metadata parameter that its body never reads; the model leaves that parameter out.
- Writing the report file is not modelled; the report is returned as text.

`jd_builder.py` and `jd_prompts.py`:

- The chat back end is a function of the conversation, with Raised where the call raises. The interview's system prompt is implicit in that function. `set_ai_provider` takes that function.
- A proposal's JSON is read into typed records. A missing description reads as empty, and document counts start at 0.
- JdBuilder.InterviewBuilder.ModifyProposal and JdBuilder.WizardBuilder.Customize require the modifications' category dictionaries to have unique keys, which any Python dict has.
- The output directory is the `file` and `writeOk` parameters of `finalize`; `create_folders` is not modelled.
- `DocumentAnalysisBuilder` is not modelled; it is a stub for future work.
- The wizard templates are not proved valid; unfolding the literal table costs too much. `WizardBuilder.finalize` still validates before creating a system, and the model proves that it does.

`ui.py`:

- The glob listing of `*.analysis.json` files is an input of cleanup, and directories are plain entries. Sorting the orphans by modification time is not modelled, since every orphan is deleted anyway.
- `get_areas_and_categories` takes `JD_AREAS` as a parameter.
- `get_inbox_files`, `get_folder_files`, `get_all_organized_files`, `display_pdf`, `display_image`, `delete_analysis_file` and `reanalyze_file` are file listing and rendering, and are not modelled.

`settings.py`:

- The keychain is a map of passwords, with a flag saying whether a working keyring is installed. A keyring refuses a password that is not a string. Keys are migrated and reset in the order anthropic, then openai.
- An `IOError` on save is the `writable` flag. A settings file that is not a JSON object is not modelled.
- `get_config_dir`, `has_keychain_support`, `validate_directories` and `create_directories` are I/O and are not modelled.
- The accessors (`output_dir`, `inbox_dir`, `ai_provider`) treat non-string values as absent.

## Code and documentation

- The docstring of `cleanup_orphaned_analysis_files` says the newest orphan is kept. The code deletes every orphan, and the model follows the code.
- The docstring of `WizardBuilder` calls it a future feature, but its methods are complete; the model covers them as written.

## Findings

| source | as written | input that shows it | evidently intended | confidence | as-written member | corrected member |
|---|---|---|---|---|---|---|
| settings.py:277-280 | under "auto", the saved keys are read from the in-memory settings, which `set` and the key migration blank once the keychain holds the key | ai_provider "auto"; `set("anthropic_api_key", "sk-…")` with a working keyring; no key variables, no `claude` command, no Ollama: the choice is "keywords", although `get("anthropic_api_key")` returns the key | read the keys through `get`, as `api_server.py` does for `has_anthropic_key`, so a key in the keychain selects its provider | medium, not executed | Settings.KeychainKeyIgnored | Settings.Settings.IntendedEffectiveProvider |
