/**
 * The two ways of building a Johnny.Decimal system from scratch: an interview with a
 * chat model that ends in a proposed structure, and a choice among fixed templates
 * with customisations on top.
 */
module JdBuilder {
  import opened Base
  import opened Text
  import opened JDValidator
  import opened JDSystem
  import opened JdPrompts

  // ---------------------------------------------------------------- proposals as records

  /** A category of a proposed structure; what the proposal does not give reads as empty. */
  function CategoryOf(j: Json): (r: CategoryDef)
    ensures r.documentCount == 0 && r.lastDocument.None?
    ensures r.keywords == StrList(Fields(j), "keywords")
  {
    var f := Fields(j);
    CategoryDef(StrOr(f, "description", ""), StrList(f, "keywords"), StrList(f, "examples"), 0, None)
  }

  /** An area of a proposed structure: its description and its categories. */
  function AreaOf(j: Json): AreaData
  {
    var f := Fields(j);
    var categories: Option<Json> := Get(f, "categories");
    AreaData(StrOr(f, "description", ""), MapValues(if categories.Some? then Fields(categories.value) else [], CategoryOf))
  }

  /** The `structure` object of a proposal, read as a structure. */
  function StructureOf(j: Json): Structure
  {
    MapValues(Fields(j), AreaOf)
  }

  // ---------------------------------------------------------------- merging modifications

  /**
   * One entry of a modifications dictionary: the area record it carries, and whether it
   * has a "categories" key.
   */
  datatype AreaPatch = AreaPatch(area: AreaData, hasCategories: bool)

  /** The categories of a patch form a dictionary (no key twice). */
  predicate PatchOk(patch: AreaPatch)
  {
    UniqueKeys(patch.area.categories)
  }

  /** A modifications dictionary as a Python dict holds it. */
  predicate PatchesOk(mods: Dict<AreaPatch>)
  {
    UniqueKeys(mods) && forall i :: 0 <= i < |mods| ==> PatchOk(mods[i].1)
  }

  /**
   * One step of the merge loop: a known area with "categories" gets those categories
   * merged into its own, a known area without them is left alone, and an unknown area is
   * added as given.
   */
  function PatchArea(s: Structure, name: string, patch: AreaPatch): (r: Structure)
    requires PatchOk(patch)
  {
    match Get(s, name)
    case Some(current) =>
      if patch.hasCategories then Put(s, name, AreaData(current.description, Update(current.categories, patch.area.categories)))
      else s
    case None => Put(s, name, patch.area)
  }

  /** The merge loop of `modify_proposal` and `get_structure`, over the modifications in order. */
  function Merge(s: Structure, mods: Dict<AreaPatch>): Structure
    requires forall i :: 0 <= i < |mods| ==> PatchOk(mods[i].1)
    decreases |mods|
  {
    if |mods| == 0 then s
    else PatchArea(Merge(s, mods[..|mods| - 1]), mods[|mods| - 1].0, mods[|mods| - 1].1)
  }

  /** One merge step keeps the areas there were and has the one it names. */
  lemma PatchAreaKeys(s: Structure, name: string, patch: AreaPatch, k: string)
    requires PatchOk(patch)
    ensures HasKey(PatchArea(s, name, patch), k) <==> HasKey(s, k) || k == name
  {
    var r := PatchArea(s, name, patch);
    if k == name {
      assert Get(r, k).Some?;
    } else {
      assert Get(r, k) == Get(s, k);
    }
  }

  /** The merged structure has the areas of both, and no other. */
  lemma {:induction false} MergeKeys(s: Structure, mods: Dict<AreaPatch>, k: string)
    requires forall i :: 0 <= i < |mods| ==> PatchOk(mods[i].1)
    ensures HasKey(Merge(s, mods), k) <==> HasKey(s, k) || HasKey(mods, k)
    decreases |mods|
  {
    if |mods| > 0 {
      var init, last := mods[..|mods| - 1], mods[|mods| - 1];
      MergeKeys(s, init, k);
      PatchAreaKeys(Merge(s, init), last.0, last.1, k);
      LastSplit(mods);
      FindAppend(init, last.0, last.1, k);
    }
  }

  /** An area the modifications do not name is left exactly as it was. */
  lemma {:induction false} MergeUntouched(s: Structure, mods: Dict<AreaPatch>, k: string)
    requires forall i :: 0 <= i < |mods| ==> PatchOk(mods[i].1)
    requires !HasKey(mods, k)
    ensures Get(Merge(s, mods), k) == Get(s, k)
    decreases |mods|
  {
    if |mods| > 0 {
      var init, last := mods[..|mods| - 1], mods[|mods| - 1];
      LastSplit(mods);
      FindAppend(init, last.0, last.1, k);
      MergeUntouched(s, init, k);
    }
  }

  /**
   * The area a modification names: a known area with "categories" keeps its description
   * and gets the categories merged in, a known area without them is unchanged, and a new
   * area is the one given.
   */
  lemma {:induction false} MergeNamed(s: Structure, mods: Dict<AreaPatch>, i: nat)
    requires PatchesOk(mods) && i < |mods|
    ensures var (k, patch) := mods[i];
      Get(Merge(s, mods), k) == Some(
        match Get(s, k)
        case Some(current) =>
          if patch.hasCategories then AreaData(current.description, Update(current.categories, patch.area.categories))
          else current
        case None => patch.area)
    decreases |mods|
  {
    var init, last := mods[..|mods| - 1], mods[|mods| - 1];
    LastSplit(mods);
    assert PatchesOk(init);
    if i < |mods| - 1 {
      var k := mods[i].0;
      assert last.0 != k;
      MergeNamed(s, init, i);
      assert init[i] == mods[i];
    } else {
      var k := last.0;
      assert !HasKey(init, k) by {
        forall j | 0 <= j < |init| ensures init[j].0 != k { assert init[j] == mods[j]; }
      }
      MergeUntouched(s, init, k);
    }
  }

  // ---------------------------------------------------------------- the System area

  const SystemAreaName: string := "00-09 System"

  /** The System area `finalize` adds when a proposal lacks it. */
  function SystemAreaData(): AreaData
  {
    AreaData("System folders", [
      ("00 Index", NewCategory("Master index", [])),
      ("01 Inbox", NewCategory("Incoming documents", []))
    ])
  }

  /** The proposal with the System area added when it has none. */
  function WithSystemArea(s: Structure): (r: Structure)
    ensures HasKey(r, SystemAreaName)
    ensures forall k :: k != SystemAreaName ==> Get(r, k) == Get(s, k)
  {
    if HasKey(s, SystemAreaName) then s else Put(s, SystemAreaName, SystemAreaData())
  }

  /** The System area follows the rules on its own: range 00-09, two categories inside it. */
  lemma SystemAreaWellFormed()
    ensures AreaWellFormed((SystemAreaName, SystemAreaData()))
    ensures GetAreaRange(SystemAreaName) == Some((0, 9))
    ensures StartsWith(SystemAreaName, ReservedArea)
  {
    SystemAreaNameShape();
    SystemCategoriesShape();
  }

  lemma SystemAreaNameShape()
    ensures IsValidAreaName(SystemAreaName)
    ensures GetAreaRange(SystemAreaName) == Some((0, 9))
    ensures StartsWith(SystemAreaName, ReservedArea)
  {
    var name := SystemAreaName;
    assert name[5..] == " System" && name[6..] == "System";
    assert name[..5] == ReservedArea;
  }

  lemma SystemCategoriesShape()
    requires GetAreaRange(SystemAreaName) == Some((0, 9))
    ensures CategoriesWellFormed(SystemAreaName, Keys(SystemAreaData().categories))
  {
    var names := Keys(SystemAreaData().categories);
    assert names == ["00 Index", "01 Inbox"];
    assert names[0][2..] == " Index" && names[0][3..] == "Index";
    assert names[1][2..] == " Inbox" && names[1][3..] == "Inbox";
    assert GetCategoryNumber(names[0]) == Some(0);
    assert GetCategoryNumber(names[1]) == Some(1);
  }

  /** A reserved-range name appended to a list of names does not count as a user area. */
  lemma {:induction false} NonSystemNamesAppend(names: seq<string>, name: string)
    requires StartsWith(name, ReservedArea)
    ensures NonSystemNames(names + [name]) == NonSystemNames(names)
    decreases |names|
  {
    if |names| == 0 {
      assert NonSystemNames([name]) == [] + NonSystemNames([name][1..]);
    } else {
      assert (names + [name])[1..] == names[1..] + [name];
      NonSystemNamesAppend(names[1..], name);
    }
  }

  /** A well-formed area on a range of its own, added last, keeps the rules. */
  lemma WellFormedAppend(s: Structure, a: (string, AreaData))
    requires WellFormed(s) && AreaWellFormed(a)
    requires forall i :: 0 <= i < |s| ==> GetAreaRange(s[i].0) != GetAreaRange(a.0)
    requires |NonSystemNames(Keys(s + [a]))| <= MaxAreas - 1
    ensures WellFormed(s + [a])
  {
    var t := s + [a];
    forall i | 0 <= i < |t| ensures AreaWellFormed(t[i]) {
      if i < |s| { assert t[i] == s[i]; }
    }
    forall i, j | 0 <= i < j < |t| ensures GetAreaRange(t[i].0) != GetAreaRange(t[j].0) {
      assert t[i] == s[i];
      if j < |s| { assert t[j] == s[j]; }
    }
  }

  /** Without a System area, adding it appends it, and leaves the user areas as they were. */
  lemma SystemAreaAppended(s: Structure)
    requires !HasKey(s, SystemAreaName)
    ensures var t := s + [(SystemAreaName, SystemAreaData())];
      WithSystemArea(s) == t && NonSystemNames(Keys(t)) == NonSystemNames(Keys(s))
  {
    var t := s + [(SystemAreaName, SystemAreaData())];
    assert Keys(t) == Keys(s) + [SystemAreaName];
    SystemAreaNameShape();
    NonSystemNamesAppend(Keys(s), SystemAreaName);
  }

  /**
   * Adding the System area keeps a valid proposal valid as long as no area of the
   * proposal already uses the 00-09 range.
   */
  lemma SystemAreaKeepsValid(s: Structure)
    requires Violations(s) == []
    requires forall i :: 0 <= i < |s| ==> GetAreaRange(s[i].0) != Some((0, 9))
    ensures Violations(WithSystemArea(s)) == []
  {
    if !HasKey(s, SystemAreaName) {
      var a := (SystemAreaName, SystemAreaData());
      SystemAreaAppended(s);
      ViolationsIffWellFormed(s);
      SystemAreaWellFormed();
      WellFormedAppend(s, a);
      ViolationsIffWellFormed(s + [a]);
    }
  }

  /**
   * A valid proposal without a System area but with another area on the 00-09 range is
   * invalid once the System area is added.
   */
  lemma SystemAreaClash(s: Structure, i: nat)
    requires !HasKey(s, SystemAreaName)
    requires i < |s| && GetAreaRange(s[i].0) == Some((0, 9))
    ensures Violations(WithSystemArea(s)) != []
  {
    var t := WithSystemArea(s);
    assert t == s + [(SystemAreaName, SystemAreaData())];
    SystemAreaWellFormed();
    ViolationsIffWellFormed(t);
    assert t[i] == s[i] && t[|s|].0 == SystemAreaName;
  }

  // ---------------------------------------------------------------- the interview

  /** What `process_message` returns. */
  datatype Reply =
    | Error(message: string)
    | Question(message: string)
    | Proposal(structure: Structure, reasoning: string, message: string)

  const NoProviderMessage: string := "No AI provider configured. Please set up an AI provider first."
  const NoResponseMessage: string := "Failed to get response from AI. Please try again."
  const NoStructureMessage: string := "No structure has been proposed yet"

  /**
   * The reply to a message, given what the chat model answered (Raised where the call
   * raised): an error when the call raised, the answer was empty or the proposal check
   * raised; a proposal when the answer holds one; a question otherwise.
   */
  function Answer(answer: Outcome<string>, decode: string -> Option<Json>): (r: Reply)
    ensures r.Proposal? <==>
      answer.Returned? && answer.value != "" && ParseStructureFromResponse(answer.value, decode).Returned?
      && ParseStructureFromResponse(answer.value, decode).value.Some?
    ensures r.Question? <==>
      answer.Returned? && answer.value != "" && ParseStructureFromResponse(answer.value, decode) == Returned(None)
    ensures answer.Returned? && answer.value == "" ==> r == Error(NoResponseMessage)
    ensures !r.Error? ==> r.message == answer.value
    ensures r.Proposal? ==>
      var data := ParseStructureFromResponse(answer.value, decode).value.value;
      IsProposal(data) && r.structure == StructureOf(Get(data.fields, "structure").value)
  {
    match answer
    case Raised(e) => Error("Error processing message: " + e)
    case Returned(text) =>
      if text == "" then Error(NoResponseMessage)
      else
        match ParseStructureFromResponse(text, decode)
        case Raised(e) => Error("Error processing message: " + e)
        case Returned(None) => Question(text)
        case Returned(Some(data)) =>
          Proposal(StructureOf(Get(data.fields, "structure").value), StrOr(data.fields, "reasoning", ""), text)
  }

  /** The program's own messages, one per violation. */
  function ErrorTexts(vs: seq<Violation>): (r: seq<string>)
    ensures |r| == |vs| && forall i :: 0 <= i < |vs| ==> r[i] == JDValidator.Message(vs[i])
  {
    seq(|vs|, i requires 0 <= i < |vs| => JDValidator.Message(vs[i]))
  }

  /** `user_context or self.user_context`: the given context unless it is absent or empty. */
  function ContextFor(given: Option<Dict<Json>>, own: Dict<Json>): (r: Dict<Json>)
    ensures given.Some? && |given.value| > 0 ==> r == given.value
    ensures given.None? || |given.value| == 0 ==> r == own
  {
    if given.Some? && |given.value| > 0 then given.value else own
  }

  /**
   * The common end of both `finalize`s: a new system over the output directory whose
   * `jdex.json` is `file`, created from `areas`; null when creating it fails.
   */
  method CreateSystem(areas: Structure, generationMethod: string, userContext: Dict<Json>,
                      file: JdexFile, now: string, writeOk: bool) returns (system: JDSystem?)
    ensures system != null <==> Violations(areas) == [] && writeOk
    ensures system != null ==>
      && fresh(system) && system.areas == areas
      && system.meta == Meta("1.0", Some(now), Some(now), Some(generationMethod), userContext)
  {
    var created := new JDSystem(file);
    var ok := created.CreateFromStructure(areas, generationMethod, userContext, now, writeOk);
    system := if ok then created else null;
  }

  /**
   * `InterviewBuilder`: the conversation so far, the structure proposed (if any), the
   * user's context, and the chat model to ask (`chat` stands for the provider's `chat`
   * with the interview's system prompt; it answers Raised where the call raises).
   */
  class InterviewBuilder {
    var conversation: seq<Message>
    var proposedStructure: Option<Structure>
    var userContext: Dict<Json>
    var provider: Option<seq<Message> -> Outcome<string>>

    constructor ()
      ensures conversation == [] && proposedStructure.None? && userContext == [] && provider.None?
    {
      conversation := [];
      proposedStructure := None;
      userContext := [];
      provider := None;
    }

    /** `has_proposal` */
    predicate HasProposal()
      reads this
    {
      proposedStructure.Some?
    }

    /** `self.proposed_structure` is truthy: there is one and it is not empty. */
    predicate Proposed()
      reads this
    {
      proposedStructure.Some? && |proposedStructure.value| > 0
    }

    /** `set_ai_provider` */
    method SetAiProvider(chat: seq<Message> -> Outcome<string>)
      modifies this
      ensures provider == Some(chat)
      ensures conversation == old(conversation) && proposedStructure == old(proposedStructure)
      ensures userContext == old(userContext)
    {
      provider := Some(chat);
    }

    /** `get_conversation_for_display`: the greeting while nothing was said, else the conversation. */
    function ConversationForDisplay(): (r: seq<Message>)
      reads this
      ensures r == InterviewMessages(conversation)
    {
      if |conversation| == 0 then [Message("assistant", InterviewInitialMessage)] else conversation
    }

    /**
     * `process_message`: without a provider nothing changes; otherwise the user's message
     * is added, the model is asked, and its answer is added unless the exchange failed,
     * a proposal replacing the proposed structure.
     */
    method ProcessMessage(userInput: string, decode: string -> Option<Json>) returns (r: Reply)
      modifies this
      ensures provider == old(provider) && userContext == old(userContext)
      ensures old(provider).None? ==>
        r == Error(NoProviderMessage) && conversation == old(conversation) && proposedStructure == old(proposedStructure)
      ensures old(provider).Some? ==>
        var asked := old(conversation) + [Message("user", userInput)];
        var answer := old(provider).value(asked);
        && r == Answer(answer, decode)
        && conversation == asked + (if r.Error? then [] else [Message("assistant", answer.value)])
        && proposedStructure == (if r.Proposal? then Some(r.structure) else old(proposedStructure))
    {
      if provider.None? {
        return Error(NoProviderMessage);
      }
      conversation := conversation + [Message("user", userInput)];
      var answer := provider.value(conversation);
      if answer.Raised? {
        return Error("Error processing message: " + answer.reason);
      }
      var text := answer.value;
      if text == "" {
        return Error(NoResponseMessage);
      }
      var proposal := ParseStructureFromResponse(text, decode);
      if proposal.Raised? {
        return Error("Error processing message: " + proposal.reason);
      }
      if proposal.value.Some? {
        var data := proposal.value.value;
        var structure := StructureOf(Get(data.fields, "structure").value);
        proposedStructure := Some(structure);
        conversation := conversation + [Message("assistant", text)];
        r := Proposal(structure, StrOr(data.fields, "reasoning", ""), text);
      } else {
        conversation := conversation + [Message("assistant", text)];
        r := Question(text);
      }
    }

    /**
     * `modify_proposal`: nothing without a proposal (the result is empty); otherwise the
     * modifications are merged into the proposal, which is returned.
     */
    method ModifyProposal(mods: Dict<AreaPatch>) returns (r: Structure)
      requires forall i :: 0 <= i < |mods| ==> PatchOk(mods[i].1)
      modifies this
      ensures conversation == old(conversation) && userContext == old(userContext) && provider == old(provider)
      ensures !old(Proposed()) ==> r == [] && proposedStructure == old(proposedStructure)
      ensures old(Proposed()) ==> r == Merge(old(proposedStructure).value, mods) && proposedStructure == Some(r)
    {
      if !Proposed() {
        return [];
      }
      ghost var start := proposedStructure.value;
      var structure := proposedStructure.value;
      var i := 0;
      while i < |mods|
        invariant i <= |mods|
        invariant structure == Merge(start, mods[..i])
      {
        assert mods[..i + 1][..i] == mods[..i];
        structure := PatchArea(structure, mods[i].0, mods[i].1);
        i := i + 1;
      }
      assert mods[..i] == mods;
      proposedStructure := Some(structure);
      r := structure;
    }

    /** `validate_proposal`: an error without a proposal, else the validator's verdict and messages. */
    method ValidateProposal() returns (valid: bool, errors: seq<string>)
      ensures !Proposed() ==> !valid && errors == [NoStructureMessage]
      ensures Proposed() ==>
        errors == ErrorTexts(Violations(proposedStructure.value)) && (valid <==> Violations(proposedStructure.value) == [])
    {
      if !Proposed() {
        return false, [NoStructureMessage];
      }
      var vs;
      valid, vs := ValidateStructure(proposedStructure.value);
      errors := ErrorTexts(vs);
    }

    /**
     * `finalize`: nothing without a valid proposal; otherwise the System area is added to
     * the proposal when it lacks one, and a system is created from it in the output
     * directory whose `jdex.json` is `file`, if creating it succeeds.
     */
    method Finalize(given: Option<Dict<Json>>, file: JdexFile, now: string, writeOk: bool) returns (system: JDSystem?)
      modifies this
      ensures conversation == old(conversation) && userContext == old(userContext) && provider == old(provider)
      ensures !old(Proposed()) || Violations(old(proposedStructure).value) != [] ==>
        system == null && proposedStructure == old(proposedStructure)
      ensures old(Proposed()) && Violations(old(proposedStructure).value) == [] ==>
        var areas := WithSystemArea(old(proposedStructure).value);
        && proposedStructure == Some(areas)
        && (system != null <==> writeOk && Violations(areas) == [])
        && (system != null ==>
              && fresh(system) && system.areas == areas
              && system.meta.generationMethod == Some("interview")
              && system.meta.userContext == ContextFor(given, userContext))
    {
      if !Proposed() {
        return null;
      }
      var valid, errors := ValidateProposal();
      if !valid {
        return null;
      }
      var areas := WithSystemArea(proposedStructure.value);
      proposedStructure := Some(areas);
      system := CreateSystem(areas, "interview", ContextFor(given, userContext), file, now, writeOk);
    }

    /** `reset`: a fresh interview with the same provider. */
    method Reset()
      modifies this
      ensures conversation == [] && proposedStructure.None? && userContext == [] && provider == old(provider)
    {
      conversation := [];
      proposedStructure := None;
      userContext := [];
    }
  }

  // ---------------------------------------------------------------- the wizard

  datatype Template = Template(name: string, description: string, areas: Structure)

  /** The keys, names and descriptions `get_templates` lists. */
  datatype TemplateInfo = TemplateInfo(name: string, description: string)

  const Templates: Dict<Template> := [
    ("personal", Template("Personal Life Admin", "For managing personal documents, finances, and life admin", [
      ("00-09 System", AreaData("System folders", [
        ("00 Index", NewCategory("Master index", [])),
        ("01 Inbox", NewCategory("Incoming documents", []))
      ])),
      ("10-19 Finance", AreaData("Personal finances", [
        ("11 Banking", NewCategory("Bank statements", ["bank", "statement", "account"])),
        ("12 Taxes", NewCategory("Tax documents", ["tax", "return"])),
        ("13 Insurance", NewCategory("Insurance policies", ["insurance", "policy"])),
        ("14 Receipts", NewCategory("Purchase receipts", ["receipt", "purchase"]))
      ])),
      ("20-29 Medical", AreaData("Health and medical", [
        ("21 Records", NewCategory("Medical records", ["doctor", "medical", "hospital"])),
        ("22 Insurance", NewCategory("Health insurance", ["health insurance"]))
      ])),
      ("30-39 Legal", AreaData("Legal documents", [
        ("31 Contracts", NewCategory("Contracts and agreements", ["contract", "agreement"])),
        ("32 Identity", NewCategory("ID documents", ["passport", "id", "license"]))
      ]))
    ])),
    ("freelance", Template("Freelancer / Self-Employed", "For freelancers managing personal and business documents", [
      ("00-09 System", AreaData("System folders", [
        ("00 Index", NewCategory("Master index", [])),
        ("01 Inbox", NewCategory("Incoming documents", []))
      ])),
      ("10-19 Personal Finance", AreaData("Personal finances", [
        ("11 Banking", NewCategory("Personal bank accounts", ["bank", "personal"])),
        ("12 Taxes", NewCategory("Personal taxes", ["tax", "personal"]))
      ])),
      ("20-29 Business", AreaData("Business operations", [
        ("21 Clients", NewCategory("Client documents", ["client", "customer"])),
        ("22 Invoices", NewCategory("Invoices sent", ["invoice", "billing"])),
        ("23 Expenses", NewCategory("Business expenses", ["expense", "receipt"])),
        ("24 Contracts", NewCategory("Business contracts", ["contract", "agreement"])),
        ("25 Taxes", NewCategory("Business taxes", ["business tax", "vat"]))
      ])),
      ("30-39 Medical", AreaData("Health documents", [
        ("31 Records", NewCategory("Medical records", ["medical", "doctor"]))
      ]))
    ])),
    ("employee", Template("Employee", "For employees managing work and personal documents", [
      ("00-09 System", AreaData("System folders", [
        ("00 Index", NewCategory("Master index", [])),
        ("01 Inbox", NewCategory("Incoming documents", []))
      ])),
      ("10-19 Finance", AreaData("Personal finances", [
        ("11 Banking", NewCategory("Bank statements", ["bank", "statement"])),
        ("12 Taxes", NewCategory("Tax documents", ["tax", "return"])),
        ("13 Insurance", NewCategory("Insurance", ["insurance"])),
        ("14 Receipts", NewCategory("Receipts", ["receipt"]))
      ])),
      ("20-29 Work", AreaData("Employment documents", [
        ("21 Employment", NewCategory("Job contracts and HR", ["employment", "contract", "hr"])),
        ("22 Salary", NewCategory("Pay slips and bonuses", ["salary", "payslip", "bonus"])),
        ("23 Expenses", NewCategory("Work expenses", ["expense", "reimbursement"])),
        ("24 Training", NewCategory("Training and certifications", ["training", "certificate"]))
      ])),
      ("30-39 Medical", AreaData("Health documents", [
        ("31 Records", NewCategory("Medical records", ["medical", "doctor"])),
        ("32 Insurance", NewCategory("Health insurance", ["health insurance"]))
      ]))
    ]))
  ]

  /** `get_templates`: each template's key with its name and description, in order. */
  function TemplateInfos(templates: Dict<Template>): (r: Dict<TemplateInfo>)
    ensures |r| == |templates|
    ensures forall i :: 0 <= i < |r| ==>
      r[i] == (templates[i].0, TemplateInfo(templates[i].1.name, templates[i].1.description))
  {
    seq(|templates|, i requires 0 <= i < |templates| =>
      (templates[i].0, TemplateInfo(templates[i].1.name, templates[i].1.description)))
  }

  /** `WizardBuilder`: the selected template and the customisations to apply to it. */
  class WizardBuilder {
    /** `TEMPLATES`, the class's table of templates. */
    const templates: Dict<Template>
    var selectedTemplate: Option<string>
    var customizations: Dict<AreaPatch>

    /** A selected template exists, and the customisations form a dictionary. */
    ghost predicate Valid()
      reads this
    {
      (selectedTemplate.Some? ==> HasKey(templates, selectedTemplate.value)) && PatchesOk(customizations)
    }

    constructor ()
      ensures Valid() && templates == Templates && selectedTemplate.None? && customizations == []
    {
      templates := Templates;
      selectedTemplate := None;
      customizations := [];
    }

    /** `select_template`: refused, with nothing changed, for an unknown key. */
    method SelectTemplate(key: string) returns (ok: bool)
      requires Valid()
      modifies this
      ensures Valid() && customizations == old(customizations)
      ensures ok <==> HasKey(templates, key)
      ensures selectedTemplate == if ok then Some(key) else old(selectedTemplate)
    {
      if !HasKey(templates, key) {
        return false;
      }
      selectedTemplate := Some(key);
      ok := true;
    }

    /**
     * `get_structure`: nothing before a template is selected; otherwise the template's
     * areas with the customisations merged into a copy (the template itself is a
     * constant and stays as it is).
     */
    function GetStructure(): (r: Option<Structure>)
      requires Valid()
      reads this
      ensures selectedTemplate.None? <==> r.None?
      ensures r.Some? ==> r.value == Merge(Get(templates, selectedTemplate.value).value.areas, customizations)
    {
      match selectedTemplate
      case None => None
      case Some(key) => Some(Merge(Get(templates, key).value.areas, customizations))
    }

    /** `customize`: the modifications are added to the customisations, replacing entries of the same area. */
    method Customize(mods: Dict<AreaPatch>)
      requires Valid() && PatchesOk(mods)
      modifies this
      ensures Valid() && selectedTemplate == old(selectedTemplate)
      ensures customizations == Update(old(customizations), mods)
    {
      UpdateKeepsUnique(customizations, mods);
      UpdateValues(customizations, mods, PatchOk);
      customizations := Update(customizations, mods);
    }

    /**
     * `finalize`: nothing without a structure or when it fails validation; otherwise a
     * system created from it, recording the template in the user context.
     */
    method Finalize(file: JdexFile, now: string, writeOk: bool) returns (system: JDSystem?)
      requires Valid()
      ensures var s := GetStructure();
        system != null <==> s.Some? && |s.value| > 0 && Violations(s.value) == [] && writeOk
      ensures system != null ==>
        && fresh(system) && system.areas == GetStructure().value
        && system.meta.generationMethod == Some("wizard")
        && system.meta.userContext == [("template", JStr(selectedTemplate.value))]
    {
      var structure := GetStructure();
      if structure.None? || |structure.value| == 0 {
        return null;
      }
      var valid, errors := ValidateStructure(structure.value);
      if !valid {
        return null;
      }
      system := CreateSystem(structure.value, "wizard", [("template", JStr(selectedTemplate.value))], file, now, writeOk);
    }
  }
}
