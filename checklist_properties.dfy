/**
 * What the prompt and the tool's reply reveal: where the checklist and the
 * details sit in the prompt, and what the reply depends on.
 */
module ChecklistProperties {
  import opened Wrappers
  import opened PyText
  import opened PromptTemplates
  import opened ChecklistTool
  import GithubService
  import PrDetailsText

  /** The prompt holds the checklist verbatim right after the template's opening text. */
  lemma ChecklistInPrompt(checklist: string, details: GithubService.PrDetails)
    ensures OccursAt(PromptFor(checklist, details), checklist, |PromptHead|)
  {
    PiecesInPlace(PromptHead, checklist, PromptMiddle, PrDetailsText.DetailsRepr(details), PromptTail);
  }

  /** The prompt holds the record's text verbatim after the checklist and the text between. */
  lemma DetailsInPrompt(checklist: string, details: GithubService.PrDetails)
    ensures OccursAt(PromptFor(checklist, details), PrDetailsText.DetailsRepr(details),
                     |PromptHead| + |checklist| + |PromptMiddle|)
  {
    PiecesInPlace(PromptHead, checklist, PromptMiddle, PrDetailsText.DetailsRepr(details), PromptTail);
  }

  /** Equal surroundings and equal results mean equal middles. */
  lemma MiddleDetermined(p: string, d1: string, d2: string, t: string)
    requires p + d1 + t == p + d2 + t
    ensures d1 == d2
  {
    var s := p + d1 + t;
    assert |d1| == |d2|;
    assert s[|p|..|p| + |d1|] == d1;
    assert (p + d2 + t)[|p|..|p| + |d2|] == d2;
  }

  /** Distinct records give distinct prompts: the prompt determines every field of the record. */
  lemma PromptDeterminesDetails(checklist: string, a: GithubService.PrDetails, b: GithubService.PrDetails)
    requires PromptFor(checklist, a) == PromptFor(checklist, b)
    ensures a == b
  {
    var p := PromptHead + checklist + PromptMiddle;
    MiddleDetermined(p, PrDetailsText.DetailsRepr(a), PrDetailsText.DetailsRepr(b), PromptTail);
    PrDetailsText.DetailsReprInjective(a, b);
  }

  /** Whatever the pull request holds, a successful call replies the same. */
  lemma ReplyIgnoresPullRequest(prUrl: string,
                                lookup1: (string, int) -> Result<GithubService.PullRequest, string>,
                                lookup2: (string, int) -> Result<GithubService.PullRequest, string>)
    requires CreatePrChecklistImpl(prUrl, lookup1).Success? && CreatePrChecklistImpl(prUrl, lookup2).Success?
    ensures CreatePrChecklistImpl(prUrl, lookup1) == CreatePrChecklistImpl(prUrl, lookup2)
  {
  }

  /** A link the locator rejects yields its error and no reply. */
  lemma BadLinkNoReply(prUrl: string, lookup: (string, int) -> Result<GithubService.PullRequest, string>)
    requires GithubService.LocatePr(prUrl).Failure?
    ensures CreatePrChecklistImpl(prUrl, lookup) == Failure(GithubService.LocatePr(prUrl).error)
  {
  }
}
