/** `_get_problem_data_from_tag`: turning one resolved card into a problem record. */
module RecordBuilder {
  import opened Wrappers
  import opened Text
  import opened Fipi
  import opened ProblemTypes

  /** What a record is built against: the client's revision, its endpoints, the URL
      resolver (`urljoin`, whose reference resolution is not modelled), and the subject and
      exam kind of the page. */
  datatype PageContext = PageContext(
    rev: Revision,
    ends: Endpoints,
    urljoin: (string, string) -> string,
    subjectName: string,
    subjectHash: string,
    giaType: string)

  /** The problem id is the card's `id` attribute with every leading 'q' stripped. */
  function ProblemIdOf(idAttr: string): (r: string)
    ensures r == [] || r[0] != 'q'
    ensures exists k: nat :: Repeat('q', k) + r == idAttr
  {
    var r := LStrip(idAttr, 'q');
    assert Repeat('q', |idAttr| - |r|) + r == idAttr;
    r
  }

  /** A captured picture path before `urljoin`: one leading "../../" removed and, in the
      current revision only, one trailing "','" as well. */
  function TrimCapture(rev: Revision, capture: string): (r: string)
    ensures |r| <= |capture|
  {
    var p := RemovePrefix(capture, "../../");
    if rev == Current then RemoveSuffix(p, "','") else p
  }

  /** The canonical question URL of a problem. */
  function QuestionUrl(questionsUrl: string, subjectHash: string, problemId: string): (r: string)
    ensures StartsWith(r, questionsUrl + "?search=1&proj=" + subjectHash + "&qid=")
  {
    var prefix := questionsUrl + "?search=1&proj=" + subjectHash + "&qid=";
    assert (prefix + problemId)[..|prefix|] == prefix;
    prefix + problemId
  }

  /** The record of a resolved card: fails with a KeyError when the card has no `id`
      attribute; otherwise one file URL per capture, in order, and no themes yet. */
  function BuildRecord(ctx: PageContext, card: Card): (r: Result<ProblemData, Raised>)
    ensures r.Failure? <==> card.id.None?
    ensures r.Failure? ==> r.error == MissingIdAttribute
    ensures r.Success? ==>
      && r.value.problemId == ProblemIdOf(card.id.value)
      && r.value.url == QuestionUrl(ctx.ends.questions, ctx.subjectHash, r.value.problemId)
      && r.value.subjectName == ctx.subjectName && r.value.subjectHash == ctx.subjectHash
      && r.value.giaType == ctx.giaType && r.value.conditionHtml == card.html
      && r.value.themes == []
      && |r.value.fileUrls| == |card.scriptCaptures|
      && forall i :: 0 <= i < |card.scriptCaptures| ==>
           r.value.fileUrls[i] == ctx.urljoin(ctx.ends.base, TrimCapture(ctx.rev, card.scriptCaptures[i]))
  {
    match card.id
    case None => Failure(MissingIdAttribute)
    case Some(idAttr) =>
      var problemId := ProblemIdOf(idAttr);
      var fileUrls := seq(|card.scriptCaptures|, i requires 0 <= i < |card.scriptCaptures| =>
                            ctx.urljoin(ctx.ends.base, TrimCapture(ctx.rev, card.scriptCaptures[i])));
      Success(ProblemData(problemId, ctx.subjectName, ctx.subjectHash,
                          QuestionUrl(ctx.ends.questions, ctx.subjectHash, problemId),
                          card.html, ctx.giaType, fileUrls, []))
  }

  /** The record of a card with an id, given its file URLs one by one. */
  lemma BuildRecordFrom(ctx: PageContext, card: Card, fileUrls: seq<string>)
    requires card.id.Some? && |fileUrls| == |card.scriptCaptures|
    requires forall i :: 0 <= i < |fileUrls| ==>
               fileUrls[i] == ctx.urljoin(ctx.ends.base, TrimCapture(ctx.rev, card.scriptCaptures[i]))
    ensures BuildRecord(ctx, card)
            == Success(ProblemData(ProblemIdOf(card.id.value), ctx.subjectName, ctx.subjectHash,
                                   QuestionUrl(ctx.ends.questions, ctx.subjectHash, ProblemIdOf(card.id.value)),
                                   card.html, ctx.giaType, fileUrls, []))
  {
    assert fileUrls == BuildRecord(ctx, card).value.fileUrls;
  }

  /** Two different problem ids of one subject never share a question URL, so the URL
      identifies the problem. */
  lemma QuestionUrlIdentifiesProblem(questionsUrl: string, subjectHash: string, a: string, b: string)
    requires QuestionUrl(questionsUrl, subjectHash, a) == QuestionUrl(questionsUrl, subjectHash, b)
    ensures a == b
  {
    var prefix := questionsUrl + "?search=1&proj=" + subjectHash + "&qid=";
    assert QuestionUrl(questionsUrl, subjectHash, a)[|prefix|..] == a;
    assert QuestionUrl(questionsUrl, subjectHash, b)[|prefix|..] == b;
  }

  /** The current revision undoes exactly the decoration the page puts around a path:
      a leading "../../" and a trailing "','". */
  lemma CurrentTrimUndoesDecoration(path: string)
    ensures TrimCapture(Current, "../../" + path + "','") == path
  {
    var s := "../../" + path + "','";
    assert s[..6] == "../../";
    assert s[6..] == path + "','";
    assert (path + "','")[|path|..] == "','";
    assert (path + "','")[..|path|] == path;
  }

  /** The older revision keeps the trailing "','" of such a capture. */
  lemma LegacyTrimKeepsSuffix(path: string)
    ensures TrimCapture(Legacy, "../../" + path + "','") == path + "','"
  {
    var s := "../../" + path + "','";
    assert s[..6] == "../../";
    assert s[6..] == path + "','";
  }

  /** Only one leading "../../" goes: a path that climbs two levels keeps the second. */
  lemma TrimRemovesOnePrefix(rev: Revision)
    ensures TrimCapture(rev, "../../../../a.gif") == "../../a.gif"
  {
    assert "../../../../a.gif"[..6] == "../../";
    assert "../../../../a.gif"[6..] == "../../a.gif";
    assert !EndsWith("../../a.gif", "','");
  }

  /** The id "q001" becomes the problem id "001"; every leading 'q' goes, and only those. */
  lemma ProblemIdExamples()
    ensures ProblemIdOf("q001") == "001"
    ensures ProblemIdOf("qq7q") == "7q"
  {
    assert "q001"[1..] == "001";
    assert "qq7q"[1..] == "q7q";
    assert "q7q"[1..] == "7q";
  }
}
