/**
 * The interview helpers: the messages the interview starts from, and the detection of a
 * finished structure proposal in a model's reply.
 */
module JdPrompts {
  import opened Base
  import opened Text

  /** A chat message, `{"role": ..., "content": ...}`. */
  datatype Message = Message(role: string, content: string)

  const InterviewInitialMessage: string :=
    "Hi! I'm here to help you design a personalized document filing system using the Johnny Decimal method.\n\n"
    + "This system uses a simple numbering scheme:\n"
    + "- **Areas** (like 10-19 Finance, 20-29 Medical) group related things\n"
    + "- **Categories** within each area hold your actual documents\n\n"
    + "The beauty is in the constraints: maximum 10 areas, maximum 10 categories per area. "
    + "This forces clarity and makes everything easy to find.\n\n"
    + "Let's start with the basics: **What do you do for work, and what's your living situation?** "
    + "(For example: \"I'm a freelance designer working from home\" or \"I'm an employee at a tech company, "
    + "living with my family\")"

  /** The greeting that opens every interview. */
  function Greeting(): seq<Message>
  {
    [Message("assistant", InterviewInitialMessage)]
  }

  /** `get_interview_messages`: the greeting for an empty history, otherwise a copy of the history. */
  function InterviewMessages(history: seq<Message>): (r: seq<Message>)
    ensures |r| > 0
    ensures |history| == 0 ==> r == Greeting()
    ensures |history| > 0 ==> r == history
  {
    if |history| == 0 then Greeting() else history
  }

  // ---------------------------------------------------------------- fenced block

  /**
   * The group of the first match of ```` ```json\s*(.*?)\s*``` ```` (dot matching newlines):
   * what follows the first ```` ```json ```` up to the next ```` ``` ````, without the
   * whitespace at either end; None when there is no such fence.
   */
  function JsonBlock(response: string): (r: Option<string>)
    ensures !Contains(response, "```json") ==> r.None?
    ensures r.Some? ==> !Contains(r.value, "```")
    ensures r.Some? && |r.value| > 0 ==> !IsWhitespace(r.value[0]) && !IsWhitespace(r.value[|r.value| - 1])
  {
    match FindFrom(response, "```json", 0)
    case None => None
    case Some(i) => FenceBody(LStrip(response[i + 7..]))
  }

  /** What follows the opening fence, with leading whitespace removed: the text up to the closing fence, right-stripped. */
  function FenceBody(rest: string): (r: Option<string>)
    requires |rest| > 0 ==> !IsWhitespace(rest[0])
    ensures r.Some? ==> !Contains(r.value, "```")
    ensures r.Some? && |r.value| > 0 ==> !IsWhitespace(r.value[0]) && !IsWhitespace(r.value[|r.value| - 1])
  {
    match FindFrom(rest, "```", 0)
    case None => None
    case Some(k) =>
      var inner := RStrip(rest[..k]);
      BeforeFirstLacks(rest, "```", k, inner);
      PrefixStart(rest, inner);
      Some(inner)
  }

  /** A non-empty prefix of a string starts with the string's first character. */
  lemma PrefixStart(s: string, p: string)
    requires |p| <= |s| && p == s[..|p|]
    ensures |p| > 0 ==> p[0] == s[0]
  {
  }

  /** A prefix of the text before the first occurrence of `t` does not contain `t`. */
  lemma BeforeFirstLacks(s: string, t: string, k: nat, p: string)
    requires |t| > 0 && FindFrom(s, t, 0) == Some(k)
    requires |p| <= k && p == s[..|p|]
    ensures !Contains(p, t)
  {
    forall j | 0 <= j ensures !OccursAt(p, t, j) {
      if j + |t| <= |p| {
        assert p[j..j + |t|] == s[j..j + |t|];
        assert !OccursAt(s, t, j);
      }
    }
  }

  /** A fence whose body has no backquote and no whitespace at its ends yields exactly that body. */
  lemma JsonBlockFenced(body: string)
    requires forall k :: 0 <= k < |body| ==> body[k] != '`'
    requires |body| > 0 ==> !IsWhitespace(body[0]) && !IsWhitespace(body[|body| - 1])
    ensures JsonBlock("```json" + body + "```") == Some(body)
  {
    OpeningFence(body);
    ClosingFence(body);
  }

  lemma OpeningFence(body: string)
    ensures var s := "```json" + body + "```";
      FindFrom(s, "```json", 0) == Some(0) && s[7..] == body + "```"
  {
    var s := "```json" + body + "```";
    assert s[..7] == "```json";
  }

  lemma ClosingFence(body: string)
    requires forall k :: 0 <= k < |body| ==> body[k] != '`'
    requires |body| > 0 ==> !IsWhitespace(body[0]) && !IsWhitespace(body[|body| - 1])
    ensures var after := body + "```";
      && LStrip(after) == after && FindFrom(after, "```", 0) == Some(|body|)
      && after[..|body|] == body && RStrip(body) == body
  {
    var after := body + "```";
    assert LStrip(after) == after by {
      assert after[0] == if |body| > 0 then body[0] else '`';
    }
    assert FindFrom(after, "```", 0) == Some(|body|) by {
      assert OccursAt(after, "```", |body|);
      forall j | 0 <= j < |body| ensures !OccursAt(after, "```", j) {
        assert after[j] == body[j];
      }
    }
    assert after[..|body|] == body;
  }

  // ---------------------------------------------------------------- proposals

  /** `data.get("ready") and "structure" in data` holds: an object with a truthy ready flag and a structure. */
  predicate IsProposal(data: Json)
  {
    && data.JObj?
    && (match Get(data.fields, "ready") case Some(ready) => Truthy(ready) case None => false)
    && HasKey(data.fields, "structure")
  }

  /** The `ready`/`structure` test; calling `.get` on a decoded value that is not an object raises. */
  function Accepts(data: Json): (r: Outcome<bool>)
    ensures r.Raised? <==> !data.JObj?
    ensures r.Returned? ==> (r.value <==> IsProposal(data))
  {
    if data.JObj? then Returned(IsProposal(data))
    else Raised("AttributeError: 'get'")
  }

  /**
   * One `try` of `parse_structure_from_response`: decode the text and keep it if it is a
   * proposal. `Returned(None)` means the program goes on to its next attempt.
   */
  function TryProposal(text: string, decode: string -> Option<Json>): (r: Outcome<Option<Json>>)
    ensures r.Raised? <==> decode(text).Some? && !decode(text).value.JObj?
    ensures r.Returned? && r.value.Some? <==> decode(text).Some? && IsProposal(decode(text).value)
    ensures r.Returned? && r.value.Some? ==> r.value == decode(text)
  {
    match decode(text)
    case None => Returned(None)
    case Some(data) =>
      match Accepts(data)
      case Raised(e) => Raised(e)
      case Returned(ok) => Returned(if ok then Some(data) else None)
  }

  /**
   * `parse_structure_from_response`: the fenced block first, then the whole reply; `decode`
   * stands for `json.loads` (None where it raises).
   */
  function ParseStructureFromResponse(response: string, decode: string -> Option<Json>): (r: Outcome<Option<Json>>)
    ensures r.Returned? && r.value.Some? ==> IsProposal(r.value.value)
    ensures r.Returned? && r.value.Some? ==>
      (JsonBlock(response).Some? && decode(JsonBlock(response).value) == r.value) || decode(response) == r.value
  {
    var first := match JsonBlock(response)
      case None => Returned(None)
      case Some(block) => TryProposal(block, decode);
    if first.Raised? || first.value.Some? then first
    else TryProposal(response, decode)
  }

  /** A proposal in the fenced block wins, whatever the whole reply would decode to. */
  lemma BlockFirst(response: string, decode: string -> Option<Json>, data: Json)
    requires JsonBlock(response).Some? && decode(JsonBlock(response).value) == Some(data)
    requires IsProposal(data)
    ensures ParseStructureFromResponse(response, decode) == Returned(Some(data))
  {
  }

  /** When the block gives nothing, the reply itself is decoded. */
  lemma WholeReply(response: string, decode: string -> Option<Json>)
    requires JsonBlock(response).None? || decode(JsonBlock(response).value).None?
    ensures ParseStructureFromResponse(response, decode) == TryProposal(response, decode)
  {
  }

  /** Text that does not decode, in the block or as a whole, yields no proposal. */
  lemma NotJson(response: string, decode: string -> Option<Json>)
    requires JsonBlock(response).None? || decode(JsonBlock(response).value).None?
    requires decode(response).None?
    ensures ParseStructureFromResponse(response, decode) == Returned(None)
  {
  }

  /** Objects without a truthy ready flag yield no proposal. */
  lemma NotReady(response: string, decode: string -> Option<Json>)
    requires forall text :: decode(text).Some? ==> decode(text).value.JObj? && !IsProposal(decode(text).value)
    ensures ParseStructureFromResponse(response, decode) == Returned(None)
  {
  }

  /** A fenced block that decodes to something other than an object makes the call raise. */
  lemma BlockNotObject(response: string, decode: string -> Option<Json>)
    requires JsonBlock(response).Some? && decode(JsonBlock(response).value).Some?
    requires !decode(JsonBlock(response).value).value.JObj?
    ensures ParseStructureFromResponse(response, decode).Raised?
  {
  }
}
