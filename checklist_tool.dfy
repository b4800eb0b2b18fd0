/**
 * `str.format` with keyword arguments, as far as the prompt template uses
 * it: literal text, `{name}` fields, and the doubled braces `{{` and `}}`.
 */
module PyFormat {
  import opened Wrappers
  import PyText

  datatype FormatError =
    | KeyError(field: string)  // a field names no keyword argument
    | IndexError               // an empty or numeric field (`{}`, `{0}`) asks for a positional argument
    | ValueError               // a lone `}`, an unclosed `{`, or `{` inside a field

  predicate BraceFree(s: string) {
    '{' !in s && '}' !in s
  }

  /**
   * A field that names a keyword argument: not empty, not a positional
   * index, and without the attribute, index, conversion and format-spec
   * syntax (`.`, `[`, `!`, `:`) that this model does not interpret.
   */
  predicate KeywordName(name: string) {
    && name != "" && BraceFree(name) && !PyText.AllDigits(name)
    && '.' !in name && '[' !in name && '!' !in name && ':' !in name
  }

  function Prepend(p: string, r: Result<string, FormatError>): Result<string, FormatError> {
    match r
    case Success(s) => Success(p + s)
    case Failure(e) => r
  }

  /** The index of the `}` closing a field whose name starts at `i`, if the field is well formed. */
  function CloseBrace(t: string, i: nat): (r: Option<nat>)
    ensures r.Some? ==> i <= r.value < |t| && t[r.value] == '}' && BraceFree(t[i..r.value])
    decreases |t| - i
  {
    if i >= |t| then None
    else if t[i] == '}' then Some(i)
    else if t[i] == '{' then None
    else
      var r := CloseBrace(t, i + 1);
      if r.Some? then
        assert t[i..r.value] == [t[i]] + t[i + 1..r.value];
        r
      else r
  }

  /**
   * `t.format(**args)`: literal text is copied, `{{` and `}}` stand for
   * single braces, and `{name}` is replaced by that argument's text, which
   * is not scanned again.
   */
  function Format(t: string, args: map<string, string>): Result<string, FormatError>
    decreases |t|
  {
    if |t| == 0 then Success("")
    else if t[0] == '{' then
      if |t| >= 2 && t[1] == '{' then Prepend("{", Format(t[2..], args))
      else
        match CloseBrace(t, 1)
        case None => Failure(ValueError)
        case Some(k) =>
          var name := t[1..k];
          if name == "" || PyText.AllDigits(name) then Failure(IndexError)
          else if name !in args then Failure(KeyError(name))
          else Prepend(args[name], Format(t[k + 1..], args))
    else if t[0] == '}' then
      if |t| >= 2 && t[1] == '}' then Prepend("}", Format(t[2..], args)) else Failure(ValueError)
    else Prepend([t[0]], Format(t[1..], args))
  }

  /** Text without braces is copied as it is, whatever the arguments. */
  lemma {:induction false} FormatText(a: string, rest: string, args: map<string, string>)
    requires BraceFree(a)
    ensures Format(a + rest, args) == Prepend(a, Format(rest, args))
    decreases |a|
  {
    if |a| == 0 {
      assert a + rest == rest;
      match Format(rest, args)
      case Success(s) => assert a + s == s;
      case Failure(_) =>
    } else {
      var t := a + rest;
      assert t[0] == a[0] && t[1..] == a[1..] + rest;
      assert BraceFree(a[1..]);
      FormatText(a[1..], rest, args);
      match Format(rest, args)
      case Success(s) => assert [a[0]] + (a[1..] + s) == a + s;
      case Failure(_) =>
    }
  }

  /** The field `{name}` of a brace-free, non-empty name is closed right after the name. */
  lemma {:induction false} CloseBraceAfterName(name: string, rest: string, i: nat)
    requires BraceFree(name) && i <= |name|
    ensures CloseBrace("{" + name + "}" + rest, i + 1) == Some(|name| + 1)
    decreases |name| - i
  {
    var t := "{" + name + "}" + rest;
    assert t[|name| + 1] == '}';
    if i < |name| {
      assert t[i + 1] == name[i];
      CloseBraceAfterName(name, rest, i + 1);
    }
  }

  /** A keyword field is replaced by its argument, copied without being scanned for braces. */
  lemma FormatField(name: string, rest: string, args: map<string, string>)
    requires KeywordName(name)
    ensures name in args ==> Format("{" + name + "}" + rest, args) == Prepend(args[name], Format(rest, args))
    ensures name !in args ==> Format("{" + name + "}" + rest, args) == Failure(KeyError(name))
  {
    var t := "{" + name + "}" + rest;
    CloseBraceAfterName(name, rest, 0);
    assert t[1] != '{' by {
      if |name| > 0 { assert t[1] == name[0]; }
    }
    assert t[1..|name| + 1] == name;
    assert t[|name| + 2..] == rest;
  }

  /**
   * An empty or numeric field asks for a positional argument, and
   * keyword-only formatting has none: an index error, even when a keyword
   * argument is spelt like the number.
   */
  lemma FormatPositionalField(name: string, rest: string, args: map<string, string>)
    requires BraceFree(name) && PyText.AllDigits(name)
    ensures Format("{" + name + "}" + rest, args) == Failure(IndexError)
  {
    var t := "{" + name + "}" + rest;
    CloseBraceAfterName(name, rest, 0);
    assert t[1] != '{' by {
      if |name| > 0 { assert t[1] == name[0]; } else { assert t[1] == '}'; }
    }
    assert t[1..|name| + 1] == name;
  }

  lemma PrependAssoc(a: string, b: string, r: Result<string, FormatError>)
    ensures Prepend(a, Prepend(b, r)) == Prepend(a + b, r)
  {
    match r
    case Success(s) => assert a + (b + s) == (a + b) + s;
    case Failure(_) =>
  }

  /**
   * A template made of brace-free text around two fields: formatting it
   * substitutes the two arguments verbatim, whatever braces they contain, and
   * fails only for a missing one, the first field first.
   */
  lemma FormatTwoFields(h: string, f1: string, m: string, f2: string, t: string, args: map<string, string>)
    requires BraceFree(h) && BraceFree(m) && BraceFree(t)
    requires KeywordName(f1) && KeywordName(f2)
    ensures f1 in args && f2 in args ==>
              Format(h + "{" + f1 + "}" + m + "{" + f2 + "}" + t, args)
              == Success(h + args[f1] + m + args[f2] + t)
    ensures f1 !in args ==> Format(h + "{" + f1 + "}" + m + "{" + f2 + "}" + t, args) == Failure(KeyError(f1))
    ensures f1 in args && f2 !in args ==>
              Format(h + "{" + f1 + "}" + m + "{" + f2 + "}" + t, args) == Failure(KeyError(f2))
  {
    var r2 := "{" + f2 + "}" + t;
    var r1 := m + r2;
    var r0 := "{" + f1 + "}" + r1;
    TwoFieldsShape(h, f1, m, f2, t);
    FormatText(h, r0, args);
    FormatField(f1, r1, args);
    FormatText(m, r2, args);
    FormatField(f2, t, args);
    FormatText(t, "", args);
    assert t + "" == t;
    if f1 in args && f2 in args {
      var c, d := args[f1], args[f2];
      PrependAssoc(m, d, Success(t));
      PrependAssoc(c, m + d, Success(t));
      PrependAssoc(h, c + (m + d), Success(t));
      Regroup(h, c, m, d, t);
    }
  }

  lemma TwoFieldsShape(h: string, f1: string, m: string, f2: string, t: string)
    ensures h + "{" + f1 + "}" + m + "{" + f2 + "}" + t == h + ("{" + f1 + "}" + (m + ("{" + f2 + "}" + t)))
  {
  }

  lemma Regroup(h: string, c: string, m: string, d: string, t: string)
    ensures h + (c + (m + d)) + t == h + c + m + d + t
  {
  }
}

/** The two templates of the checklist tool, character for character. */
module PromptTemplates {
  import opened PyFormat
  import PyText

  const ChecklistField := "checklist_template"
  const DetailsField := "pr_details"

  /** The literal text of `prompt` before, between and after its two fields. */
  const PromptHead: string :=
    "\n\nYou are an expert code "
    + "reviewer. You are given details "
    + "of a Github pull request.\n\nYou "
    + "are to generate a checklist of "
    + "items that should be reviewed for "
    + "the pull request.\n\nThe checklist "
    + "should following the following "
    + "format:\n\n"

  const PromptMiddle: string :=
    "\n\nThe details of the pull request "
    + "are as follows:\n\n"

  const PromptTail: string :=
    "\n\nPlease generate a checklist of "
    + "items that should be reviewed for "
    + "the pull request.\n\n"

  /** `prompt`: the template the tool formats, with exactly two fields. */
  const PromptTemplate: string :=
    PromptHead + "{" + ChecklistField + "}" + PromptMiddle + "{" + DetailsField + "}" + PromptTail

  /** `checklist_template`: the six review sections, substituted into the prompt. */
  const ChecklistTemplate: string :=
    "\n"
    + "- [ ] **Key Files & Review Order**  \n"
    + "  - List the key files to examine.  \n"
    + "  - Specify the order and why it matters.  \n"
    + "  - *Example:* “Start with `config.py` (sets constants), then `database.py` (schema), then `api.py` (uses both).”\n"
    + "\n"
    + "- [ ] **Per-File Notes**  \n"
    + "  For each file, provide:  \n"
    + "  - [ ] Purpose and role in the system.  \n"
    + "    - *Example:* “`handlers.py` manages HTTP routes → business logic.”  \n"
    + "  - [ ] Critical sections to inspect (functions, classes, blocks).  \n"
    + "    - *Example:* “Check `UserManager.create_user()` — touches DB, hashing, validation.”  \n"
    + "  - [ ] Pitfalls or tricky logic.  \n"
    + "    - *Example:* “Pagination in `query_posts()` — check for off-by-one errors.”  \n"
    + "  - [ ] Dependencies or external assumptions.  \n"
    + "    - *Example:* “Assumes Redis always available — no retry logic.”\n"
    + "\n"
    + "- [ ] **Cross-Cutting Concerns**  \n"
    + "  - Highlight design patterns, abstractions, or conventions that span files.  \n"
    + "  - Call out areas needing consistency (e.g., error handling, logging, API contracts).  \n"
    + "  - *Example:* “Ensure `api.py` and `tasks.py` return errors in the same JSON format.”\n"
    + "\n"
    + "- [ ] **Testing & Validation**  \n"
    + "  - [ ] Which files contain tests and what's covered.  \n"
    + "  - [ ] What scenarios or edge cases are missing.  \n"
    + "  - [ ] Suggested manual or integration checks.  \n"
    + "  - *Example:* “`test_models.py` covers user creation, but missing duplicate email case.”  \n"
    + "  - *Example:* “Manually test concurrent writes to `update_balance()` for race conditions.”\n"
    + "\n"
    + "- [ ] **Risks & Tradeoffs**  \n"
    + "  - [ ] Known fragile areas or compromises.  \n"
    + "  - [ ] Potential security, performance, scalability, or maintainability issues.  \n"
    + "  - *Example:* “Blocking DB calls may cause performance issues under load.”  \n"
    + "  - *Example:* “Password hashing with SHA256 instead of bcrypt — security risk.”\n"
    + "\n"
    + "- [ ] **Context**  \n"
    + "  - [ ] Background assumptions, constraints, or design decisions.  \n"
    + "  - [ ] Style/architectural conventions to keep in mind.  \n"
    + "  - *Example:* “Using SQLite now, but schema designed for Postgres compatibility.”  \n"
    + "  - *Example:* “PEP8 + Google docstrings are expected.”\n"

  // The solver checks a literal character by character, so the literal
  // pieces are shown brace-free a few dozen characters at a time.

  lemma PromptHeadChunk0() ensures BraceFree("\n\nYou are an expert code ") {}
  lemma PromptHeadChunk1() ensures BraceFree("reviewer. You are given details ") {}
  lemma PromptHeadChunk2() ensures BraceFree("of a Github pull request.\n\nYou ") {}
  lemma PromptHeadChunk3() ensures BraceFree("are to generate a checklist of ") {}
  lemma PromptHeadChunk4() ensures BraceFree("items that should be reviewed for ") {}
  lemma PromptHeadChunk5() ensures BraceFree("the pull request.\n\nThe checklist ") {}
  lemma PromptHeadChunk6() ensures BraceFree("should following the following ") {}
  lemma PromptHeadChunk7() ensures BraceFree("format:\n\n") {}

  lemma PromptHeadBraceFree()
    ensures BraceFree(PromptHead)
  {
    PromptHeadChunk0(); PromptHeadChunk1(); PromptHeadChunk2(); PromptHeadChunk3(); PromptHeadChunk4(); PromptHeadChunk5(); PromptHeadChunk6(); PromptHeadChunk7();
  }

  lemma PromptMiddleChunk0() ensures BraceFree("\n\nThe details of the pull request ") {}
  lemma PromptMiddleChunk1() ensures BraceFree("are as follows:\n\n") {}

  lemma PromptMiddleBraceFree()
    ensures BraceFree(PromptMiddle)
  {
    PromptMiddleChunk0(); PromptMiddleChunk1();
  }

  lemma PromptTailChunk0() ensures BraceFree("\n\nPlease generate a checklist of ") {}
  lemma PromptTailChunk1() ensures BraceFree("items that should be reviewed for ") {}
  lemma PromptTailChunk2() ensures BraceFree("the pull request.\n\n") {}

  lemma PromptTailBraceFree()
    ensures BraceFree(PromptTail)
  {
    PromptTailChunk0(); PromptTailChunk1(); PromptTailChunk2();
  }

  /** The checklist field names a keyword argument. */
  lemma ChecklistFieldIsKeyword()
    ensures KeywordName(ChecklistField)
  {
    assert !PyText.IsDigit(ChecklistField[0]);
  }

  /** The details field names a keyword argument. */
  lemma DetailsFieldIsKeyword()
    ensures KeywordName(DetailsField)
  {
    assert !PyText.IsDigit(DetailsField[0]);
  }
}

/**
 * The checklist tool: the prompt built by substituting the review checklist
 * and the PR details into the prompt template, and the tool's reply.
 */
module ChecklistTool {
  import opened Wrappers
  import opened PyText
  import opened PyFormat
  import opened PromptTemplates
  import GithubService
  import PrDetailsText

  /** The keyword arguments `generate_prompt` passes to `format`: the checklist and `str(pr_details)`. */
  function PromptArgs(checklist: string, details: GithubService.PrDetails): map<string, string> {
    map[ChecklistField := checklist, DetailsField := PrDetailsText.DetailsRepr(details)]
  }

  /** The prompt template has exactly the two fields `generate_prompt` supplies. */
  lemma FormatPrompt(args: map<string, string>)
    ensures ChecklistField in args && DetailsField in args ==>
              Format(PromptTemplate, args)
              == Success(PromptHead + args[ChecklistField] + PromptMiddle + args[DetailsField] + PromptTail)
    ensures ChecklistField !in args ==> Format(PromptTemplate, args) == Failure(KeyError(ChecklistField))
    ensures ChecklistField in args && DetailsField !in args ==>
              Format(PromptTemplate, args) == Failure(KeyError(DetailsField))
  {
    PromptHeadBraceFree();
    PromptMiddleBraceFree();
    PromptTailBraceFree();
    ChecklistFieldIsKeyword();
    DetailsFieldIsKeyword();
    FormatTwoFields(PromptHead, ChecklistField, PromptMiddle, DetailsField, PromptTail, args);
  }

  /**
   * The body of `generate_prompt` for a given checklist text: the checklist,
   * then the record's text, each copied verbatim between the template's
   * literal pieces, whatever braces they hold.
   */
  function PromptFor(checklist: string, details: GithubService.PrDetails): (prompt: string)
    ensures prompt == PromptHead + checklist + PromptMiddle + PrDetailsText.DetailsRepr(details) + PromptTail
  {
    var args := PromptArgs(checklist, details);
    assert args[ChecklistField] == checklist && args[DetailsField] == PrDetailsText.DetailsRepr(details);
    FormatPrompt(args);
    var r := Format(PromptTemplate, args);
    if r.Success? then r.value else ""
  }

  /** `generate_prompt(pr_details)`, with the module's checklist. */
  function GeneratePrompt(details: GithubService.PrDetails): string {
    PromptFor(ChecklistTemplate, details)
  }

  /** In `h + c + m + d + t`, `c` sits at `|h|` and `d` after `c` and `m`. */
  lemma PiecesInPlace(h: string, c: string, m: string, d: string, t: string)
    ensures OccursAt(h + c + m + d + t, c, |h|)
    ensures OccursAt(h + c + m + d + t, d, |h| + |c| + |m|)
  {
    var s := h + c + m + d + t;
    assert s[|h|..|h| + |c|] == c;
    assert s[|h| + |c| + |m|..|h| + |c| + |m| + |d|] == d;
  }

  const ReplyPrefix := "Checklist for PR: "

  /** The errors the tool passes on from fetching the pull request. */
  type FetchError = GithubService.FetchError

  /**
   * `_create_pr_checklist_impl(pr_url, ...)`: fetch the details (errors
   * propagate), build the prompt, and reply with a fixed text that names the
   * link. The prompt it builds is discarded, so neither it nor the details
   * reach the reply.
   */
  function CreatePrChecklistImpl(prUrl: string,
                                 lookup: (string, int) -> Result<GithubService.PullRequest, string>)
    : (r: Result<string, FetchError>)
    ensures r.Success? <==> GithubService.FetchPrDetails(prUrl, lookup).Success?
    ensures r.Failure? ==> r.error == GithubService.FetchPrDetails(prUrl, lookup).error
    ensures r.Success? ==> r.value == ReplyPrefix + prUrl
  {
    match GithubService.FetchPrDetails(prUrl, lookup)
    case Failure(e) => Failure(e)
    case Success(_) => Success(ReplyPrefix + prUrl)
  }
}
