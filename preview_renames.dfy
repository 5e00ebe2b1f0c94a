/**
 * The rename preview for an existing Johnny.Decimal tree: reading an ID folder's
 * name (`"14.01 Descriptor 2024"`), proposing an "Issuer Document-type" descriptor
 * from the folder's metadata, saying why the old name falls short, renaming the
 * folders, and the markdown report of the proposals.
 */
module PreviewRenames {
  import opened Base
  import opened Text
  import opened PathNames
  import opened JdIds
  import opened StrOrder

  // ---------------------------------------------------------------------------
  // Reading an ID folder's name
  // ---------------------------------------------------------------------------

  /** The `jd_id`, `descriptor` and `year` of an ID folder's name. */
  datatype FolderInfo = FolderInfo(jdId: string, descriptor: string, year: string)

  /** A token taken as a year: `isdigit()` and four characters long. */
  predicate IsYear(s: string)
  {
    |s| == 4 && IsDigits(s)
  }

  /** The text ends in a space and a year. */
  predicate EndsInYear(s: string)
  {
    |s| >= 5 && s[|s| - 5] == ' ' && IsYear(s[|s| - 4..])
  }

  /**
   * `extract_current_info`: the text before the first space is the ID; the last
   * space-separated token is the year when it looks like one.
   */
  function ExtractCurrentInfo(name: string): (r: FolderInfo)
    ensures ' ' !in r.jdId
    ensures r.year == "" || IsYear(r.year)
    ensures ' ' !in name ==> r == FolderInfo(name, "", "")
    ensures ' ' in name && r.year != "" ==> name == IdFolderName(r.jdId, r.descriptor, r.year)
    ensures ' ' in name && r.year == "" ==> name == r.jdId + " " + r.descriptor && !EndsInYear(r.descriptor)
  {
    var parts := SplitOnce(name, " ");
    ContainsChar(name, ' ');
    ContainsChar(parts[0], ' ');
    if |parts| < 2 then FolderInfo(parts[0], "", "")
    else
      var rest := parts[1];
      var restParts := RSplitOnce(rest, " ");
      if |restParts| == 2 && IsDigits(restParts[1]) && |restParts[1]| == 4 then
        var jdId, descriptor, year := parts[0], restParts[0], restParts[1];
        IdFolderNameRest(jdId, descriptor, year);
        FolderInfo(jdId, descriptor, year)
      else
        RestWithoutYear(rest);
        FolderInfo(parts[0], rest, "")
  }

  /** A year token has no space. */
  lemma YearHasNoSpace(y: string)
    requires IsYear(y)
    ensures ' ' !in y
  {
  }

  /** When the last token of `rest` is not a year, `rest` does not end in one. */
  lemma RestWithoutYear(rest: string)
    requires var p := RSplitOnce(rest, " "); !(|p| == 2 && IsDigits(p[1]) && |p[1]| == 4)
    ensures !EndsInYear(rest)
  {
    if EndsInYear(rest) {
      var head, year := rest[..|rest| - 5], rest[|rest| - 4..];
      YearHasNoSpace(year);
      assert rest == head + [' '] + year;
      RSplitOnceTail(head, ' ', year);
    }
  }

  /** Reading a folder name built from an ID without spaces and a year gives the three parts back. */
  lemma ExtractBuilt(jdId: string, descriptor: string, year: string)
    requires ' ' !in jdId && IsYear(year)
    ensures ExtractCurrentInfo(IdFolderName(jdId, descriptor, year)) == FolderInfo(jdId, descriptor, year)
  {
    var rest := descriptor + " " + year;
    IdFolderNameRest(jdId, descriptor, year);
    SplitOnceHead(jdId, ' ', rest);
    YearHasNoSpace(year);
    assert rest == descriptor + [' '] + year;
    RSplitOnceTail(descriptor, ' ', year);
  }

  // ---------------------------------------------------------------------------
  // Proposing a descriptor
  // ---------------------------------------------------------------------------

  /** `s.split()[:n]` */
  function FirstWords(s: string, n: nat): (r: seq<string>)
    ensures |r| <= n && |r| <= |Words(s)| && r == Words(s)[..|r|]
    ensures |Words(s)| >= n ==> |r| == n
  {
    var words := Words(s);
    if |words| <= n then words else words[..n]
  }

  /**
   * `propose_new_name`: issuer and document type, either one alone, the first four
   * words of a summary longer than five characters, or the old descriptor.
   */
  function ProposeNewName(metadata: Dict<Json>, originalName: string): string
  {
    var issuer := StrOrEmpty(metadata, "issuer");
    var documentType := StrOrEmpty(metadata, "document_type");
    if issuer != "" && documentType != "" then issuer + " " + documentType
    else if documentType != "" then documentType
    else if issuer != "" then issuer
    else
      var summary := StrOrEmpty(metadata, "summary");
      if |summary| > 5 then Title(Join(FirstWords(summary, 4), " "))
      else Title(Replace(originalName, "_", " "))
  }

  /** The order in which the metadata is consulted. */
  lemma ProposePriority(metadata: Dict<Json>, originalName: string)
    ensures var r, issuer, documentType := ProposeNewName(metadata, originalName),
      StrOrEmpty(metadata, "issuer"), StrOrEmpty(metadata, "document_type");
      (issuer != "" && documentType != "" ==> r == issuer + " " + documentType) &&
      (issuer == "" && documentType != "" ==> r == documentType) &&
      (issuer != "" && documentType == "" ==> r == issuer)
    ensures var r, summary := ProposeNewName(metadata, originalName), StrOrEmpty(metadata, "summary");
      StrOrEmpty(metadata, "issuer") == "" && StrOrEmpty(metadata, "document_type") == "" && |summary| > 5 ==>
        r == Title(Join(FirstWords(summary, 4), " "))
  {
  }

  /** Without issuer, document type or summary the old descriptor is kept, with underscores as spaces. */
  lemma ProposeFallback(metadata: Dict<Json>, originalName: string)
    requires StrOrEmpty(metadata, "issuer") == "" && StrOrEmpty(metadata, "document_type") == ""
    requires |StrOrEmpty(metadata, "summary")| <= 5
    ensures var r := ProposeNewName(metadata, originalName);
      |r| == |originalName| && '_' !in r &&
      forall i :: 0 <= i < |r| ==> (originalName[i] == '_' <==> r[i] == ' ') || originalName[i] == ' '
  {
    ReplaceChar(originalName, '_', ' ');
    var spaced := MapChar(originalName, '_', ' ');
    var r := Title(spaced);
    assert r == ProposeNewName(metadata, originalName);
    forall i | 0 <= i < |r| ensures r[i] != '_' && ((originalName[i] == '_' <==> r[i] == ' ') || originalName[i] == ' ') {
      assert spaced[i] != '_';
    }
  }

  // ---------------------------------------------------------------------------
  // Why a descriptor falls short
  // ---------------------------------------------------------------------------

  const PersonalNames: seq<string> := ["batyr", "charyyev", "porsyyeva", "aygul"]

  const Extensions: seq<string> := [".pdf", ".docx", ".png"]

  /** Some pattern occurs in `s`. */
  predicate AnyIn(s: string, patterns: seq<string>)
    decreases |patterns|
  {
    |patterns| > 0 && (Contains(s, patterns[0]) || AnyIn(s, patterns[1..]))
  }

  lemma {:induction false} AnyInSpec(s: string, patterns: seq<string>)
    ensures AnyIn(s, patterns) <==> exists i :: 0 <= i < |patterns| && Contains(s, patterns[i])
    decreases |patterns|
  {
    if |patterns| > 0 {
      AnyInSpec(s, patterns[1..]);
      assert forall i :: 1 <= i < |patterns| ==> patterns[i] == patterns[1..][i - 1];
      if exists i :: 0 <= i < |patterns| && Contains(s, patterns[i]) {
        var i :| 0 <= i < |patterns| && Contains(s, patterns[i]);
        if i > 0 {
          assert Contains(s, patterns[1..][i - 1]);
        }
      }
    }
  }

  const PersonalNameIssue := "Uses personal name instead of document type"
  const TooShortIssue := "Descriptor too short/vague"
  const UrlIssue := "Contains URL fragment"
  const ExtensionIssue := "Contains file extension"
  const MissingIssue := "Missing issuer/document type"

  /** `detect_issue`: the first of the checks that applies, in a fixed order. */
  function DetectIssue(descriptor: string): string
  {
    var lower := Lower(descriptor);
    if AnyIn(lower, PersonalNames) then PersonalNameIssue
    else if |descriptor| < 5 then TooShortIssue
    else if Contains(lower, "http") || Contains(lower, "://") then UrlIssue
    else if AnyIn(lower, Extensions) then ExtensionIssue
    else MissingIssue
  }

  /** Each reason is given exactly when its check is the first that applies. */
  lemma DetectIssueOrder(descriptor: string)
    ensures var r, lower := DetectIssue(descriptor), Lower(descriptor);
      var person := exists i :: 0 <= i < |PersonalNames| && Contains(lower, PersonalNames[i]);
      var url := Contains(lower, "http") || Contains(lower, "://");
      var extension := exists i :: 0 <= i < |Extensions| && Contains(lower, Extensions[i]);
      (r == PersonalNameIssue <==> person) &&
      (r == TooShortIssue <==> !person && |descriptor| < 5) &&
      (r == UrlIssue <==> !person && |descriptor| >= 5 && url) &&
      (r == ExtensionIssue <==> !person && |descriptor| >= 5 && !url && extension) &&
      (r == MissingIssue <==> !person && |descriptor| >= 5 && !url && !extension)
  {
    AnyInSpec(Lower(descriptor), PersonalNames);
    AnyInSpec(Lower(descriptor), Extensions);
    var r := DetectIssue(descriptor);
    assert PersonalNameIssue[0] == 'U' && TooShortIssue[0] == 'D' && MissingIssue[0] == 'M';
    assert UrlIssue[9] == 'U' && ExtensionIssue[9] == 'f';
  }

  // ---------------------------------------------------------------------------
  // Scanning the tree for proposals
  // ---------------------------------------------------------------------------

  /**
   * One ID folder met by the walk over areas, categories and ID folders: its place,
   * the metadata read from its first readable `.meta.json` (if any), and the name
   * the AI re-analysis would suggest (if it ran and answered).
   */
  datatype IdFolder = IdFolder(area: string, category: string, name: string,
                               metadata: Option<Dict<Json>>, aiName: Option<string>)

  /** One rename proposal. */
  datatype Proposal = Proposal(area: string, category: string, currentPath: string, currentName: string,
                               proposedName: string, reason: string)

  /** The walk skips names starting with a dot at every level. */
  predicate Hidden(f: IdFolder)
  {
    StartsWith(f.area, ".") || StartsWith(f.category, ".") || StartsWith(f.name, ".")
  }

  /** `metadata or {}` */
  function MetadataOrEmpty(m: Option<Dict<Json>>): Dict<Json>
  {
    if m.Some? then m.value else []
  }

  /** The folder's metadata already names an issuer and a document type, and the descriptor is made of them. */
  predicate WellNamed(f: IdFolder)
  {
    var md := MetadataOrEmpty(f.metadata);
    var issuer, documentType := StrOrEmpty(md, "issuer"), StrOrEmpty(md, "document_type");
    issuer != "" && documentType != "" && ExtractCurrentInfo(f.name).descriptor == issuer + " " + documentType
  }

  /** The descriptor proposed for a folder: the AI's answer when re-analysing and it answered, else from the metadata. */
  function ProposedDescriptor(f: IdFolder, reanalyze: bool): string
  {
    if reanalyze && f.aiName.Some? && f.aiName.value != "" then f.aiName.value
    else ProposeNewName(MetadataOrEmpty(f.metadata), ExtractCurrentInfo(f.name).descriptor)
  }

  /** The folder's name with the proposed descriptor; a name without a year gets `currentYear`. */
  function ProposedFolderName(f: IdFolder, reanalyze: bool, currentYear: string): string
  {
    var info := ExtractCurrentInfo(f.name);
    IdFolderName(info.jdId, ProposedDescriptor(f, reanalyze), if info.year != "" then info.year else currentYear)
  }

  /** The body of the innermost loop of `scan_jd_documents`. */
  function FolderProposal(root: string, f: IdFolder, reanalyze: bool, currentYear: string): (r: Option<Proposal>)
    ensures r.Some? ==> r.value.currentName == f.name && r.value.proposedName != f.name
    ensures r.Some? ==> !Hidden(f) && !WellNamed(f) && r.value.proposedName == ProposedFolderName(f, reanalyze, currentYear)
    ensures r.None? ==> Hidden(f) || WellNamed(f) || ProposedFolderName(f, reanalyze, currentYear) == f.name
  {
    if Hidden(f) || WellNamed(f) then None
    else
      var proposed := ProposedFolderName(f, reanalyze, currentYear);
      if proposed == f.name then None
      else
        var path := JoinPath(JoinPath(JoinPath(root, f.area), f.category), f.name);
        Some(Proposal(f.area, f.category, path, f.name, proposed, DetectIssue(ExtractCurrentInfo(f.name).descriptor)))
  }

  /** `scan_jd_documents` over the folders in walk order. */
  function Scan(root: string, folders: seq<IdFolder>, reanalyze: bool, currentYear: string): (r: seq<Proposal>)
    ensures |r| <= |folders|
    ensures forall i :: 0 <= i < |r| ==> r[i].proposedName != r[i].currentName
    ensures forall p :: p in r ==> exists f :: f in folders && FolderProposal(root, f, reanalyze, currentYear) == Some(p)
    decreases |folders|
  {
    if |folders| == 0 then []
    else
      var init, f := folders[..|folders| - 1], folders[|folders| - 1];
      var prev := Scan(root, init, reanalyze, currentYear);
      assert forall g :: g in init ==> g in folders;
      match FolderProposal(root, f, reanalyze, currentYear)
      case None => prev
      case Some(p) => prev + [p]
  }

  method ScanJdDocuments(root: string, folders: seq<IdFolder>, reanalyze: bool, currentYear: string)
    returns (proposals: seq<Proposal>)
    ensures proposals == Scan(root, folders, reanalyze, currentYear)
  {
    proposals := [];
    var i := 0;
    while i < |folders|
      invariant i <= |folders|
      invariant proposals == Scan(root, folders[..i], reanalyze, currentYear)
    {
      assert folders[..i + 1][..i] == folders[..i];
      var next := FolderProposal(root, folders[i], reanalyze, currentYear);
      if next.Some? {
        proposals := proposals + [next.value];
      }
      i := i + 1;
    }
    assert folders[..|folders|] == folders;
  }

  /** A folder already named `"{id} {issuer} {document type} {year}"` after its metadata is left alone. */
  lemma WellNamedSkipped(root: string, f: IdFolder, reanalyze: bool, currentYear: string, jdId: string, year: string)
    requires var md := MetadataOrEmpty(f.metadata);
      StrOrEmpty(md, "issuer") != "" && StrOrEmpty(md, "document_type") != "" &&
      f.name == IdFolderName(jdId, StrOrEmpty(md, "issuer") + " " + StrOrEmpty(md, "document_type"), year)
    requires ' ' !in jdId && IsYear(year)
    ensures FolderProposal(root, f, reanalyze, currentYear).None?
  {
    var md := MetadataOrEmpty(f.metadata);
    ExtractBuilt(jdId, StrOrEmpty(md, "issuer") + " " + StrOrEmpty(md, "document_type"), year);
  }

  /** A proposed name keeps the folder's ID and year, and reads back as the proposed descriptor. */
  lemma ProposalKeepsId(root: string, f: IdFolder, reanalyze: bool, currentYear: string)
    requires IsYear(currentYear)
    requires FolderProposal(root, f, reanalyze, currentYear).Some?
    ensures var p, info := FolderProposal(root, f, reanalyze, currentYear).value, ExtractCurrentInfo(f.name);
      ExtractCurrentInfo(p.proposedName) ==
        FolderInfo(info.jdId, ProposedDescriptor(f, reanalyze), if info.year != "" then info.year else currentYear)
  {
    var info := ExtractCurrentInfo(f.name);
    ExtractBuilt(info.jdId, ProposedDescriptor(f, reanalyze), if info.year != "" then info.year else currentYear);
  }

  // ---------------------------------------------------------------------------
  // Renaming
  // ---------------------------------------------------------------------------

  /** Why `old_path.rename(new_path)` raised. */
  datatype RenameError = SourceMissing | TargetNotEmpty

  datatype Failure = Failure(proposal: Proposal, error: RenameError)

  /** `results`: the proposals renamed and the ones that failed, with the error. */
  datatype RenameResults = RenameResults(success: seq<Proposal>, failed: seq<Failure>)

  /** The existing ID folders by path, each with whether it is empty. */
  type Folders = map<string, bool>

  /** `old_path.parent / p["proposed_name"]` */
  function NewPath(p: Proposal): string
  {
    JoinPath(Parent(p.currentPath), p.proposedName)
  }

  /**
   * One POSIX `rename` of a folder, and its error if it raised: a missing source fails;
   * renaming onto itself does nothing; an existing target is replaced only when it is empty.
   */
  function RenameOne(dirs: Folders, p: Proposal): (r: (Folders, Option<RenameError>))
    ensures r.1.None? <==> p.currentPath in dirs && (NewPath(p) in dirs ==> dirs[NewPath(p)] || NewPath(p) == p.currentPath)
    ensures r.1.None? && NewPath(p) != p.currentPath ==>
      r.0 == (dirs - {p.currentPath})[NewPath(p) := dirs[p.currentPath]]
    ensures r.1.Some? || NewPath(p) == p.currentPath ==> r.0 == dirs
  {
    if p.currentPath !in dirs then (dirs, Some(SourceMissing))
    else if NewPath(p) == p.currentPath then (dirs, None)
    else if NewPath(p) in dirs && !dirs[NewPath(p)] then (dirs, Some(TargetNotEmpty))
    else ((dirs - {p.currentPath})[NewPath(p) := dirs[p.currentPath]], None)
  }

  /** `execute_renames` over the proposals in order. */
  function ExecuteRenames(dirs: Folders, proposals: seq<Proposal>, dryRun: bool): (RenameResults, Folders)
    decreases |proposals|
  {
    if |proposals| == 0 then (RenameResults([], []), dirs)
    else
      var (prev, before) := ExecuteRenames(dirs, proposals[..|proposals| - 1], dryRun);
      var p := proposals[|proposals| - 1];
      if dryRun then (RenameResults(prev.success + [p], prev.failed), before)
      else
        var (after, error) := RenameOne(before, p);
        match error
        case None => (RenameResults(prev.success + [p], prev.failed), after)
        case Some(e) => (RenameResults(prev.success, prev.failed + [Failure(p, e)]), after)
  }

  method ExecuteRenamesLoop(dirs: Folders, proposals: seq<Proposal>, dryRun: bool)
    returns (results: RenameResults, after: Folders)
    ensures (results, after) == ExecuteRenames(dirs, proposals, dryRun)
  {
    results, after := RenameResults([], []), dirs;
    var i := 0;
    while i < |proposals|
      invariant i <= |proposals|
      invariant (results, after) == ExecuteRenames(dirs, proposals[..i], dryRun)
    {
      assert proposals[..i + 1][..i] == proposals[..i];
      var p := proposals[i];
      if dryRun {
        results := RenameResults(results.success + [p], results.failed);
      } else {
        var (next, error) := RenameOne(after, p);
        if error.None? {
          results := RenameResults(results.success + [p], results.failed);
        } else {
          results := RenameResults(results.success, results.failed + [Failure(p, error.value)]);
        }
        after := next;
      }
      i := i + 1;
    }
    assert proposals[..|proposals|] == proposals;
  }

  function FailedProposals(failed: seq<Failure>): (r: seq<Proposal>)
    ensures |r| == |failed| && forall i :: 0 <= i < |failed| ==> r[i] == failed[i].proposal
  {
    seq(|failed|, i requires 0 <= i < |failed| => failed[i].proposal)
  }

  /** A dry run reports every proposal as done and renames nothing. */
  lemma {:induction false} ExecuteDryRun(dirs: Folders, proposals: seq<Proposal>)
    ensures ExecuteRenames(dirs, proposals, true) == (RenameResults(proposals, []), dirs)
    decreases |proposals|
  {
    if |proposals| > 0 {
      var init := proposals[..|proposals| - 1];
      ExecuteDryRun(dirs, init);
      assert init + [proposals[|proposals| - 1]] == proposals;
    }
  }

  /** One more proposal lands either in `success` or, with its error, in `failed`. */
  lemma ExecuteNext(dirs: Folders, proposals: seq<Proposal>, dryRun: bool)
    requires |proposals| > 0
    ensures var prev := ExecuteRenames(dirs, proposals[..|proposals| - 1], dryRun).0;
      var r, p := ExecuteRenames(dirs, proposals, dryRun).0, proposals[|proposals| - 1];
      (r.success == prev.success + [p] && r.failed == prev.failed) ||
      (r.success == prev.success && exists e :: r.failed == prev.failed + [Failure(p, e)])
  {
  }

  lemma FailedProposalsNext(failed: seq<Failure>, f: Failure)
    ensures FailedProposals(failed + [f]) == FailedProposals(failed) + [f.proposal]
  {
  }

  lemma PartitionNext(prev: RenameResults, r: RenameResults, init: seq<Proposal>, p: Proposal)
    requires multiset(prev.success) + multiset(FailedProposals(prev.failed)) == multiset(init)
    requires (r.success == prev.success + [p] && r.failed == prev.failed) ||
      (r.success == prev.success && exists e :: r.failed == prev.failed + [Failure(p, e)])
    ensures multiset(r.success) + multiset(FailedProposals(r.failed)) == multiset(init + [p])
  {
    if r.success != prev.success + [p] || r.failed != prev.failed {
      var e :| r.failed == prev.failed + [Failure(p, e)];
      FailedProposalsNext(prev.failed, Failure(p, e));
    }
  }

  /** Every proposal ends up in exactly one of `success` and `failed`, each as often as it was proposed. */
  lemma {:induction false} ExecutePartition(dirs: Folders, proposals: seq<Proposal>, dryRun: bool)
    ensures var results := ExecuteRenames(dirs, proposals, dryRun).0;
      multiset(results.success) + multiset(FailedProposals(results.failed)) == multiset(proposals)
    decreases |proposals|
  {
    if |proposals| > 0 {
      var init, p := proposals[..|proposals| - 1], proposals[|proposals| - 1];
      assert init + [p] == proposals;
      ExecutePartition(dirs, init, dryRun);
      ExecuteNext(dirs, proposals, dryRun);
      var prev, r := ExecuteRenames(dirs, init, dryRun).0, ExecuteRenames(dirs, proposals, dryRun).0;
      PartitionNext(prev, r, init, p);
    }
  }

  /** A rename that succeeds moves the folder, with its contents, to its new name and leaves every other folder as it was. */
  lemma RenameMoves(dirs: Folders, p: Proposal, q: string)
    requires RenameOne(dirs, p).1.None?
    ensures NewPath(p) in RenameOne(dirs, p).0 && RenameOne(dirs, p).0[NewPath(p)] == dirs[p.currentPath]
    ensures NewPath(p) != p.currentPath ==> p.currentPath !in RenameOne(dirs, p).0
    ensures q != p.currentPath && q != NewPath(p) ==>
      (q in RenameOne(dirs, p).0 <==> q in dirs) && (q in dirs ==> RenameOne(dirs, p).0[q] == dirs[q])
  {
  }

  // ---------------------------------------------------------------------------
  // The report
  // ---------------------------------------------------------------------------

  /** `f"{p['area']} / {p['category']}"` */
  function SectionKey(p: Proposal): string
  {
    p.area + " / " + p.category
  }

  /** The key of each proposal, in order. */
  function SectionKeys<K(==,!new)>(proposals: seq<Proposal>, keyOf: Proposal -> K): (r: seq<K>)
    ensures |r| == |proposals| && forall i :: 0 <= i < |r| ==> r[i] == keyOf(proposals[i])
    decreases |proposals|
  {
    if |proposals| == 0 then []
    else SectionKeys(proposals[..|proposals| - 1], keyOf) + [keyOf(proposals[|proposals| - 1])]
  }

  /** `by_category[k]`: the proposals under a key, in order. */
  function Items<K(==,!new)>(proposals: seq<Proposal>, keyOf: Proposal -> K, k: K): (r: seq<Proposal>)
    ensures forall p :: p in r <==> p in proposals && keyOf(p) == k
    decreases |proposals|
  {
    if |proposals| == 0 then []
    else
      var init, p := proposals[..|proposals| - 1], proposals[|proposals| - 1];
      LastSplit(proposals);
      Items(init, keyOf, k) + if keyOf(p) == k then [p] else []
  }

  /** A key no proposal has collects no items. */
  lemma {:induction false} ItemsEmpty<K(!new)>(proposals: seq<Proposal>, keyOf: Proposal -> K, k: K)
    requires k !in SectionKeys(proposals, keyOf)
    ensures Items(proposals, keyOf, k) == []
    decreases |proposals|
  {
    if |proposals| > 0 {
      var init := proposals[..|proposals| - 1];
      assert SectionKeys(proposals, keyOf) == SectionKeys(init, keyOf) + [keyOf(proposals[|proposals| - 1])];
      ItemsEmpty(init, keyOf, k);
    }
  }

  /** One more proposal adds its key, and joins the items of its key only. */
  lemma ReportNext<K(!new)>(proposals: seq<Proposal>, keyOf: Proposal -> K, i: nat, k: K)
    requires i < |proposals|
    ensures SectionKeys(proposals[..i + 1], keyOf) == SectionKeys(proposals[..i], keyOf) + [keyOf(proposals[i])]
    ensures Items(proposals[..i + 1], keyOf, k) ==
      Items(proposals[..i], keyOf, k) + if keyOf(proposals[i]) == k then [proposals[i]] else []
  {
    assert proposals[..i + 1][..i] == proposals[..i];
  }

  /** One table row. */
  function Row(p: Proposal): string
  {
    "| `" + p.currentName + "` | `" + p.proposedName + "` | " + p.reason + " |"
  }

  function Rows(items: seq<Proposal>): (r: seq<string>)
    ensures |r| == |items| && forall i :: 0 <= i < |items| ==> r[i] == Row(items[i])
  {
    seq(|items|, i requires 0 <= i < |items| => Row(items[i]))
  }

  /** One section: its heading, the table head, a row per proposal, and a blank line. */
  function SectionLines(key: string, items: seq<Proposal>): seq<string>
  {
    ["## " + key, "", "| Current | Proposed | Issue |", "|---------|----------|-------|"] + Rows(items) + [""]
  }

  function Sections(proposals: seq<Proposal>, keys: seq<string>): (r: seq<seq<string>>)
    ensures |r| == |keys| && forall i :: 0 <= i < |keys| ==> r[i] == SectionLines(keys[i], Items(proposals, SectionKey, keys[i]))
  {
    seq(|keys|, i requires 0 <= i < |keys| => SectionLines(keys[i], Items(proposals, SectionKey, keys[i])))
  }

  function ReportHeader(now: string, total: nat): seq<string>
  {
    ["# Document Rename Proposals", "", "Generated: " + now, "", "Total folders to rename: **" + NatStr(total) + "**",
     "", "---", ""]
  }

  /** `lines` of `generate_report`; `now` is the formatted `datetime.now()`. */
  function ReportLines(proposals: seq<Proposal>, now: string): seq<string>
  {
    ReportHeader(now, |proposals|) + Flatten(Sections(proposals, SortedDistinct(SectionKeys(proposals, SectionKey))))
  }

  /** `generate_report`'s return value. */
  function Report(proposals: seq<Proposal>, now: string): string
  {
    Join(ReportLines(proposals, now), "\n")
  }

  /** The rows of one section, built one after the other. */
  method SectionRows(items: seq<Proposal>) returns (lines: seq<string>)
    ensures lines == Rows(items)
  {
    lines := [];
    var i := 0;
    while i < |items|
      invariant i <= |items|
      invariant lines == Rows(items[..i])
    {
      assert Rows(items[..i + 1]) == Rows(items[..i]) + [Row(items[i])];
      lines := lines + [Row(items[i])];
      i := i + 1;
    }
    assert items[..|items|] == items;
  }

  /** The first-seen keys grow by the next proposal's key when it is new. */
  lemma KeysNext<K(!new)>(proposals: seq<Proposal>, keyOf: Proposal -> K, i: nat)
    requires i < |proposals|
    ensures FirstSeen(SectionKeys(proposals[..i + 1], keyOf)) ==
      var keys, k := FirstSeen(SectionKeys(proposals[..i], keyOf)), keyOf(proposals[i]);
      if k in keys then keys else keys + [k]
  {
    ReportNext(proposals, keyOf, i, keyOf(proposals[i]));
    var ks := SectionKeys(proposals[..i + 1], keyOf);
    assert ks[..i] == SectionKeys(proposals[..i], keyOf);
  }

  /** Appending the next proposal to its key's list keeps every list equal to its items. */
  lemma ItemsMapNext<K(!new)>(proposals: seq<Proposal>, keyOf: Proposal -> K, i: nat,
                     before: map<K, seq<Proposal>>, after: map<K, seq<Proposal>>)
    requires i < |proposals| && keyOf(proposals[i]) in before
    requires forall k :: k in before ==> before[k] == Items(proposals[..i], keyOf, k)
    requires after == before[keyOf(proposals[i]) := before[keyOf(proposals[i])] + [proposals[i]]]
    ensures forall k :: k in after ==> after[k] == Items(proposals[..i + 1], keyOf, k)
  {
    forall k | k in after ensures after[k] == Items(proposals[..i + 1], keyOf, k) {
      ReportNext(proposals, keyOf, i, k);
      if k != keyOf(proposals[i]) {
        assert after[k] == before[k];
      }
    }
  }

  /** `by_category` and the order its keys were first added in, after the given proposals. */
  function Group<K(==,!new)>(proposals: seq<Proposal>, keyOf: Proposal -> K): (map<K, seq<Proposal>>, seq<K>)
    decreases |proposals|
  {
    if |proposals| == 0 then (map[], [])
    else
      var (byCategory, keys) := Group(proposals[..|proposals| - 1], keyOf);
      var p := proposals[|proposals| - 1];
      var key := keyOf(p);
      var present := if key in byCategory then byCategory else byCategory[key := []];
      (present[key := present[key] + [p]], if key in byCategory then keys else keys + [key])
  }

  /** The keys are the proposals' keys in first-seen order, and exactly the keys of the map. */
  lemma {:induction false} GroupKeys<K(!new)>(proposals: seq<Proposal>, keyOf: Proposal -> K)
    ensures Group(proposals, keyOf).1 == FirstSeen(SectionKeys(proposals, keyOf))
    ensures forall k :: k in Group(proposals, keyOf).0 <==> k in Group(proposals, keyOf).1
    decreases |proposals|
  {
    if |proposals| > 0 {
      var i := |proposals| - 1;
      assert proposals[..i + 1] == proposals;
      GroupKeys(proposals[..i], keyOf);
      KeysNext(proposals, keyOf, i);
    }
  }

  /** Each key's list holds the proposals under that key, in order. */
  lemma {:induction false} GroupItems<K(!new)>(proposals: seq<Proposal>, keyOf: Proposal -> K)
    ensures var byCategory := Group(proposals, keyOf).0;
      forall k :: k in byCategory ==> byCategory[k] == Items(proposals, keyOf, k)
    decreases |proposals|
  {
    if |proposals| > 0 {
      var i := |proposals| - 1;
      assert proposals[..i + 1] == proposals;
      var before := Group(proposals[..i], keyOf).0;
      var key := keyOf(proposals[i]);
      var present := if key in before then before else before[key := []];
      assert Group(proposals, keyOf).0 == present[key := present[key] + [proposals[i]]];
      GroupItems(proposals[..i], keyOf);
      GroupKeys(proposals[..i], keyOf);
      PresentItems(proposals[..i], keyOf, key, before);
      ItemsMapNext(proposals, keyOf, i, present, Group(proposals, keyOf).0);
    }
  }

  /** Opening an empty list for a key not seen yet keeps every list equal to its items. */
  lemma PresentItems<K(!new)>(proposals: seq<Proposal>, keyOf: Proposal -> K, key: K, before: map<K, seq<Proposal>>)
    requires forall k :: k in before ==> before[k] == Items(proposals, keyOf, k)
    requires key !in before ==> key !in SectionKeys(proposals, keyOf)
    ensures var present := if key in before then before else before[key := []];
      forall k :: k in present ==> present[k] == Items(proposals, keyOf, k)
  {
    if key !in before {
      ItemsEmpty(proposals, keyOf, key);
    }
  }

  /** The first loop of `generate_report`: the proposals put under their keys, keys in first-seen order. */
  method GroupByCategory<K(==,!new)>(proposals: seq<Proposal>, keyOf: Proposal -> K)
    returns (byCategory: map<K, seq<Proposal>>, keys: seq<K>)
    ensures (byCategory, keys) == Group(proposals, keyOf)
  {
    byCategory, keys := map[], [];
    var i := 0;
    while i < |proposals|
      invariant i <= |proposals|
      invariant (byCategory, keys) == Group(proposals[..i], keyOf)
    {
      assert proposals[..i + 1][..i] == proposals[..i];
      var p := proposals[i];
      var key := keyOf(p);
      if key !in byCategory {
        byCategory := byCategory[key := []];
        keys := keys + [key];
      }
      byCategory := byCategory[key := byCategory[key] + [p]];
      i := i + 1;
    }
    assert proposals[..|proposals|] == proposals;
  }

  /** The sections for the given keys, one after the other. */
  method SectionsLoop(proposals: seq<Proposal>, byCategory: map<string, seq<Proposal>>, keys: seq<string>)
    returns (lines: seq<string>)
    requires forall k :: k in keys ==> k in byCategory && byCategory[k] == Items(proposals, SectionKey, k)
    ensures lines == Flatten(Sections(proposals, keys))
  {
    lines := [];
    var i := 0;
    while i < |keys|
      invariant i <= |keys|
      invariant lines == Flatten(Sections(proposals, keys)[..i])
    {
      FlattenNext(Sections(proposals, keys), i);
      var rows := SectionRows(byCategory[keys[i]]);
      lines := lines + (["## " + keys[i], "", "| Current | Proposed | Issue |", "|---------|----------|-------|"] + rows + [""]);
      i := i + 1;
    }
    assert Sections(proposals, keys)[..|keys|] == Sections(proposals, keys);
  }

  /** `generate_report` */
  method GenerateReport(proposals: seq<Proposal>, now: string) returns (report: string)
    ensures report == Report(proposals, now)
  {
    var byCategory, keys := GroupByCategory(proposals, SectionKey);
    GroupKeys(proposals, SectionKey);
    GroupItems(proposals, SectionKey);
    var sorted := Sort(keys);
    assert forall k :: k in sorted ==> k in keys by {
      forall k | k in sorted ensures k in keys {
        SortSameElements(keys, k);
      }
    }
    var sections := SectionsLoop(proposals, byCategory, sorted);
    report := Join(ReportHeader(now, |proposals|) + sections, "\n");
  }

  /** The report states how many folders would be renamed. */
  lemma ReportTotal(proposals: seq<Proposal>, now: string)
    ensures var lines := ReportLines(proposals, now);
      |lines| >= 8 && lines[0] == "# Document Rename Proposals" &&
      lines[4] == "Total folders to rename: **" + NatStr(|proposals|) + "**"
  {
    HeaderLines(now, |proposals|, Flatten(Sections(proposals, SortedDistinct(SectionKeys(proposals, SectionKey)))));
  }

  /** Whatever follows the header, the report opens with the title and the total on its fifth line. */
  lemma HeaderLines(now: string, total: nat, body: seq<string>)
    ensures var lines := ReportHeader(now, total) + body;
      |lines| >= 8 && lines[0] == "# Document Rename Proposals" &&
      lines[4] == "Total folders to rename: **" + NatStr(total) + "**"
  {
    var header := ReportHeader(now, total);
    assert (header + body)[0] == header[0] && (header + body)[4] == header[4];
  }

  /** The sections come in sorted order, one per `area / category` of some proposal. */
  lemma ReportSections(proposals: seq<Proposal>)
    ensures var keys := SortedDistinct(SectionKeys(proposals, SectionKey));
      Sorted(keys) && Distinct(keys) &&
      forall k :: k in keys <==> exists p :: p in proposals && SectionKey(p) == k
  {
    var ks := SectionKeys(proposals, SectionKey);
    SortedDistinctSpec(ks);
    KeysOfProposals(proposals, SectionKey);
  }

  /** A key occurs among the keys of the proposals exactly when some proposal has it. */
  lemma KeysOfProposals<K(!new)>(proposals: seq<Proposal>, keyOf: Proposal -> K)
    ensures forall k :: k in SectionKeys(proposals, keyOf) <==> exists p :: p in proposals && keyOf(p) == k
  {
    var ks := SectionKeys(proposals, keyOf);
    forall k ensures k in ks <==> exists p :: p in proposals && keyOf(p) == k {
      if k in ks {
        var i :| 0 <= i < |ks| && ks[i] == k;
        assert proposals[i] in proposals;
      }
      if exists p :: p in proposals && keyOf(p) == k {
        var p :| p in proposals && keyOf(p) == k;
        var i :| 0 <= i < |proposals| && proposals[i] == p;
        assert ks[i] == k;
      }
    }
  }


  /** Every proposal has its row in the report, in the section of its area and category. */
  lemma ReportRow(proposals: seq<Proposal>, now: string, p: Proposal)
    requires p in proposals
    ensures Row(p) in ReportLines(proposals, now)
  {
    var keys := SortedDistinct(SectionKeys(proposals, SectionKey));
    ReportSections(proposals);
    assert SectionKey(p) in keys;
    var i :| 0 <= i < |keys| && keys[i] == SectionKey(p);
    var items := Items(proposals, SectionKey, SectionKey(p));
    assert p in items;
    var k :| 0 <= k < |items| && items[k] == p;
    assert Rows(items)[k] == Row(p);
    assert Row(p) in SectionLines(keys[i], items);
    FlattenHas(Sections(proposals, keys), i, Row(p));
  }
}
