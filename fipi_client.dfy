/** `FipiBankClient`: the scraper object. It holds the exam kind and the three endpoint
    URLs derived from it, and its methods walk theme menus, listing pages, cards and record
    lists in loops. Every method is proved against the function that specifies it. The
    network is not modelled: what a request would return is passed in (the menu of an
    index page, the cards of a listing page). */
module Client {
  import opened Wrappers
  import opened Text
  import opened OrderedDict
  import opened Fipi
  import opened ProblemTypes
  import opened RecordBuilder
  import opened CardPairing
  import opened ThemeAggregation
  import opened IndexParsing
  import opened Pipeline

  class FipiBankClient {
    const rev: Revision
    /** `urllib.parse.urljoin`, whose reference resolution is not modelled. */
    const urljoin: (string, string) -> string
    var giaType: string
    var baseUrl: string
    var baseIndexUrl: string
    var baseQuestionsUrl: string

    function Ends(): Endpoints
      reads this
    {
      Endpoints(baseUrl, baseIndexUrl, baseQuestionsUrl)
    }

    /** A client configured for an exam kind: its URLs are that kind's. `Open` establishes
        it; `SetGiaType` with another valid kind breaks it, since it changes the URLs and
        not the stored kind. */
    predicate Valid()
      reads this
    {
      ValidGiaType(giaType) && Ends() == EndpointsFor(giaType)
    }

    function State(): ClientState
      reads this
    {
      ClientState(rev, Ends(), urljoin, giaType)
    }

    function Context(subjectName: string, subjectHash: string): PageContext
      reads this
    {
      SubjectContext(State(), (subjectName, subjectHash))
    }

    /** The object before `__init__` has run: the URL class attributes are empty. */
    constructor Blank(rev: Revision, urljoin: (string, string) -> string)
      ensures this.rev == rev && this.urljoin == urljoin
      ensures giaType == "" && Ends() == Endpoints("", "", "")
    {
      this.rev := rev;
      this.urljoin := urljoin;
      giaType := "";
      baseUrl := "";
      baseIndexUrl := "";
      baseQuestionsUrl := "";
    }

    /** `FipiBankClient(gia_type)`: the URLs are set first, and an exam kind other than
        "oge" or "ege" raises before the object is usable. */
    static method Open(rev: Revision, urljoin: (string, string) -> string, giaType: string)
      returns (r: Result<FipiBankClient, Raised>)
      ensures r.Failure? <==> !ValidGiaType(giaType)
      ensures r.Failure? ==> r.error == InvalidGiaType(giaType)
      ensures r.Success? ==> fresh(r.value) && r.value.Valid()
      ensures r.Success? ==> r.value.rev == rev && r.value.urljoin == urljoin && r.value.giaType == giaType
    {
      var client := new FipiBankClient.Blank(rev, urljoin);
      var configured := client.SetGiaType(giaType);
      if configured.Failure? {
        return Failure(configured.error);
      }
      client.giaType := giaType;
      r := Success(client);
    }

    /** `set_gia_type`: the URLs of the new kind, or a ValueError that leaves the object
        as it was. The stored exam kind is not updated here. */
    method SetGiaType(g: string) returns (r: Result<(), Raised>)
      modifies this
      ensures r.Failure? <==> !ValidGiaType(g)
      ensures r.Failure? ==> r.error == InvalidGiaType(g) && Ends() == old(Ends())
      ensures r.Success? ==> Ends() == EndpointsFor(g)
      ensures giaType == old(giaType)
    {
      if !(g == "oge" || g == "ege") {
        return Failure(InvalidGiaType(g));
      }
      baseUrl := "https://" + g + ".fipi.ru/bank";
      baseIndexUrl := baseUrl + "/index.php";
      baseQuestionsUrl := baseUrl + "/questions.php";
      r := Success(());
    }

    /** `get_theme_names_and_ids` after the request: the non-header menu items split at
        their first space and assigned one after the other. */
    method ThemeNamesAndIds(items: seq<ThemeItem>) returns (r: Result<Dict<string>, Raised>)
      ensures r == ThemeIndex(NonHeaderItems(items))
    {
      var themeTags := NonHeaderItems(items);
      var data: Dict<string> := [];
      var k := 0;
      while k < |themeTags|
        invariant 0 <= k <= |themeTags|
        invariant ThemeIndex(themeTags[..k]) == Success(data)
      {
        var text := themeTags[k].text;
        var split := SplitFirst(text, ' ');
        if split.None? {
          ThemeIndexStopsAt(themeTags, k);
          return Failure(ThemeTextWithoutSpace(text));
        }
        ThemeIndexExtend(themeTags, k, data, split.value);
        data := Set(data, split.value.0, split.value.1);
        k := k + 1;
      }
      assert themeTags[..k] == themeTags;
      r := Success(data);
    }

    /** `_get_problem_data_from_tag`: the id stripped of its leading 'q's, one file URL per
        captured picture path, and the question URL. */
    method ProblemDataFromTag(card: Card, subjectName: string, subjectHash: string)
      returns (r: Result<ProblemData, Raised>)
      ensures r == BuildRecord(Context(subjectName, subjectHash), card)
    {
      if card.id.None? {
        return Failure(MissingIdAttribute);
      }
      var problemId := LStrip(card.id.value, 'q');
      var fileUrls: seq<string> := [];
      var k := 0;
      while k < |card.scriptCaptures|
        invariant 0 <= k <= |card.scriptCaptures|
        invariant |fileUrls| == k
        invariant forall i :: 0 <= i < k ==> fileUrls[i] == urljoin(baseUrl, TrimCapture(rev, card.scriptCaptures[i]))
      {
        var path := TrimmedPath(card.scriptCaptures[k]);
        fileUrls := fileUrls + [urljoin(baseUrl, path)];
        k := k + 1;
      }
      var url := baseQuestionsUrl + "?search=1&proj=" + subjectHash + "&qid=" + problemId;
      r := Success(ProblemData(problemId, subjectName, subjectHash, url, card.html, giaType, fileUrls, []));
      BuildRecordFrom(Context(subjectName, subjectHash), card, fileUrls);
    }

    /** One captured picture path with its decoration removed. */
    method TrimmedPath(capture: string) returns (path: string)
      ensures path == TrimCapture(rev, capture)
    {
      path := RemovePrefix(capture, "../../");
      if rev == Current {
        path := RemoveSuffix(path, "','");
      }
    }

    /** `_parse_subject_problems_from_html` after the HTML parse: the pairwise walk over
        the cards with its skip flag. */
    method ParseSubjectProblemsFromHtml(cards: seq<Card>, subjectName: string, subjectHash: string)
      returns (r: Result<seq<ProblemData>, Raised>)
      ensures r == ParsePage(Context(subjectName, subjectHash), cards)
    {
      var ctx := Context(subjectName, subjectHash);
      var skipNextCard := false;
      var problems: seq<ProblemData> := [];
      var i := 0;
      PrependNothing(ParsePage(ctx, cards));
      while i + 1 < |cards|
        invariant ParsePage(ctx, cards) == Prepend(problems, BuildAll(ctx, cards, Pending(cards, i, skipNextCard)))
        decreases |cards| - i
      {
        if skipNextCard {
          skipNextCard := false;
          i := i + 1;
          continue;
        }
        var problemTag: Card;
        if cards[i].id.None? {
          problemTag := cards[i + 1];
          skipNextCard := true;
        } else {
          problemTag := cards[i];
        }
        var data := ProblemDataFromTag(problemTag, subjectName, subjectHash);
        PendingStep(ctx, cards, i, problems);
        if data.Failure? {
          return Failure(data.error);
        }
        problems := problems + [data.value];
        i := i + 1;
      }
      assert problems + [] == problems;
      r := Success(problems);
    }

    /** `_get_all_problem_themes_data`: the themes of every record with the same problem
        id, in list order. */
    static method AllProblemThemesData(problem: ProblemData, subjectProblems: seq<ProblemData>)
      returns (r: seq<ThemeData>)
      ensures r == ThemesOf(subjectProblems, problem.problemId)
    {
      r := [];
      var j := 0;
      while j < |subjectProblems|
        invariant 0 <= j <= |subjectProblems|
        invariant r == ThemesOf(subjectProblems[..j], problem.problemId)
      {
        assert subjectProblems[..j + 1][..j] == subjectProblems[..j];
        if subjectProblems[j].problemId == problem.problemId {
          r := r + subjectProblems[j].themes;
        }
        j := j + 1;
      }
      assert subjectProblems[..j] == subjectProblems;
    }

    /** The overwrite loop of `parse_and_save_all_problems`, in place: each record in turn
        takes the themes of its id as the list holds them at that moment. */
    static method MergeThemes(a: array<ProblemData>)
      modifies a
      ensures a[..] == Merged(old(a[..]))
    {
      var i := 0;
      while i < a.Length
        invariant 0 <= i <= a.Length
        invariant a[..] == MergedUpTo(old(a[..]), i)
      {
        var themes := AllProblemThemesData(a[i], a[..]);
        a[i] := a[i].(themes := themes);
        i := i + 1;
      }
    }

    /** The tagging loop: every record of a page gets the page's theme as its only one. */
    static method TagWithTheme(records: seq<ProblemData>, theme: ThemeData) returns (tagged: seq<ProblemData>)
      ensures tagged == WithTheme(records, theme)
    {
      tagged := records;
      var t := 0;
      while t < |tagged|
        invariant 0 <= t <= |tagged| && |tagged| == |records|
        invariant forall u :: 0 <= u < t ==> tagged[u] == records[u].(themes := [theme])
        invariant forall u :: t <= u < |tagged| ==> tagged[u] == records[u]
      {
        tagged := tagged[t := tagged[t].(themes := [theme])];
        t := t + 1;
      }
    }

    /** The attribution loop for one subject: the pages zipped with the subject's themes,
        each page's records tagged with its theme. */
    method AttributePages(subjectName: string, subjectHash: string, pages: seq<seq<Card>>, themes: Dict<string>)
      returns (r: Result<seq<ProblemData>, Raised>)
      ensures r == Attributed(Context(subjectName, subjectHash), pages, themes)
    {
      ghost var ctx := Context(subjectName, subjectHash);
      ghost var results := PageResults(ctx, pages, themes);
      var n := Min(|pages|, |themes|);
      var subjectProblemsList: seq<ProblemData> := [];
      var k := 0;
      while k < n
        invariant 0 <= k <= n == |results|
        invariant ConcatUpTo(results, k) == Success(subjectProblemsList)
      {
        var next := AttributePageAt(subjectName, subjectHash, pages, themes, ctx, k, subjectProblemsList);
        if next.Failure? {
          return next;
        }
        subjectProblemsList := next.value;
        k := k + 1;
      }
      r := Success(subjectProblemsList);
    }

    /** One round of the zip: page k parsed and tagged, then appended to the list. */
    method AttributePageAt(subjectName: string, subjectHash: string, pages: seq<seq<Card>>, themes: Dict<string>,
                           ghost ctx: PageContext, k: nat, subjectProblemsList: seq<ProblemData>)
      returns (next: Result<seq<ProblemData>, Raised>)
      requires ctx == Context(subjectName, subjectHash)
      requires k < Min(|pages|, |themes|)
      requires ConcatUpTo(PageResults(ctx, pages, themes), k) == Success(subjectProblemsList)
      ensures next.Success? ==> ConcatUpTo(PageResults(ctx, pages, themes), k + 1) == next
      ensures next.Failure? ==> next == Attributed(ctx, pages, themes)
    {
      ghost var results := PageResults(ctx, pages, themes);
      var page := PageRecordsOf(pages[k], subjectName, subjectHash, themes[k]);
      PageResultsAt(ctx, pages, themes, k);
      if page.Failure? {
        ConcatStops(results, k);
        return page;
      }
      ConcatStep(results, k, subjectProblemsList, page.value);
      next := Success(subjectProblemsList + page.value);
    }

    method PageRecordsOf(cards: seq<Card>, subjectName: string, subjectHash: string, theme: (string, string))
      returns (r: Result<seq<ProblemData>, Raised>)
      ensures r == PageRecords(Context(subjectName, subjectHash), cards, theme)
    {
      var subjectProblems := ParseSubjectProblemsFromHtml(cards, subjectName, subjectHash);
      if subjectProblems.Failure? {
        return Failure(subjectProblems.error);
      }
      var tagged := TagWithTheme(subjectProblems.value, ThemeData(theme.0, theme.1));
      r := Success(tagged);
    }

    /** One subject of the subject loop: attribution, then the in-place merge. */
    method ParseSubject(subjectName: string, subjectHash: string, pages: seq<seq<Card>>, themes: Dict<string>)
      returns (r: Result<seq<ProblemData>, Raised>)
      ensures r == SubjectProblems(Context(subjectName, subjectHash), pages, themes)
    {
      var attributed := AttributePages(subjectName, subjectHash, pages, themes);
      if attributed.Failure? {
        return Failure(attributed.error);
      }
      var subjectProblemsList := attributed.value;
      var list := new ProblemData[|subjectProblemsList|](i requires 0 <= i < |subjectProblemsList| => subjectProblemsList[i]);
      assert list[..] == subjectProblemsList;
      MergeThemes(list);
      r := Success(list[..]);
    }

    /** The task list of one subject: one listing page per theme, in theme order. */
    static method CollectPages(subject: (string, string), themesOf: string -> Dict<string>, pageOf: (string, string) -> seq<Card>)
      returns (own: seq<seq<Card>>)
      ensures own == PagesFor(subject, themesOf, pageOf)
    {
      var themesData := themesOf(subject.1);
      own := [];
      var k := 0;
      while k < |themesData|
        invariant 0 <= k <= |themesData|
        invariant |own| == k
        invariant forall i :: 0 <= i < k ==> own[i] == pageOf(subject.1, themesData[i].0)
      {
        own := own + [pageOf(subject.1, themesData[k].0)];
        k := k + 1;
      }
    }

    /** One subject of the fan-out: its theme menu parsed, then one listing page per
        theme. */
    method FetchSubject(subject: (string, string), menus: string -> Result<Dict<string>, Raised>, pageOf: (string, string) -> seq<Card>)
      returns (r: Result<(Dict<string>, seq<seq<Card>>), Raised>)
      ensures r.Failure? <==> menus(subject.1).Failure?
      ensures r.Failure? ==> r.error == menus(subject.1).error
      ensures r.Success? ==> r.value.0 == ThemesFrom(menus)(subject.1)
      ensures r.Success? ==> r.value.1 == PagesFor(subject, ThemesFrom(menus), pageOf)
    {
      var themesData := menus(subject.1);
      if themesData.Failure? {
        return Failure(themesData.error);
      }
      var own := CollectPages(subject, ThemesFrom(menus), pageOf);
      r := Success((themesData.value, own));
    }

    /** The fan-out of `parse_and_save_all_problems`: for every subject, its theme menu
        parsed and one listing page per theme collected, in subject and theme order. */
    method FetchPages(subjectIds: Dict<string>, menus: string -> Result<Dict<string>, Raised>, pageOf: (string, string) -> seq<Card>)
      returns (r: Result<(seq<seq<Card>>, map<string, Dict<string>>), Raised>)
      ensures r.Failure? <==> MenusParsed(subjectIds, menus, |subjectIds|).Failure?
      ensures r.Failure? ==> r == Failure(MenusParsed(subjectIds, menus, |subjectIds|).error)
      ensures r.Success? ==> r.value.0 == PagesFetched(subjectIds, ThemesFrom(menus), pageOf)
      ensures r.Success? ==> r.value.1 == ThemesByHash(subjectIds, ThemesFrom(menus), |subjectIds|)
    {
      var themesOf := ThemesFrom(menus);
      var pagesHtmls: seq<seq<Card>> := [];
      var subjectThemesData: map<string, Dict<string>> := map[];
      var j := 0;
      while j < |subjectIds|
        invariant 0 <= j <= |subjectIds|
        invariant MenusParsed(subjectIds, menus, j).Success?
        invariant pagesHtmls == FetchedUpTo(subjectIds, themesOf, pageOf, j)
        invariant subjectThemesData == ThemesByHash(subjectIds, themesOf, j)
      {
        var subjectHash := subjectIds[j].1;
        var fetched := FetchSubject(subjectIds[j], menus, pageOf);
        if fetched.Failure? {
          MenusParsedFailureSticks(subjectIds, menus, j + 1, |subjectIds|);
          return Failure(fetched.error);
        }
        subjectThemesData := subjectThemesData[subjectHash := fetched.value.0];
        pagesHtmls := pagesHtmls + fetched.value.1;
        j := j + 1;
      }
      r := Success((pagesHtmls, subjectThemesData));
    }

    /** `parse_and_save_all_problems` up to the save, given the exam cards of the start
        page, the menu of every subject's index page and the cards of every listing page:
        the subject filter, the fan-out that collects one page per (subject, theme) pair,
        and the subject loop, which zips every subject with the pages from the start. */
    method ParseAllProblems(examCards: seq<ExamCard>, subjectNames: seq<string>,
                            menus: string -> Result<Dict<string>, Raised>, pageOf: (string, string) -> seq<Card>)
      returns (r: Result<seq<ProblemData>, Raised>)
      ensures r == RunAsWritten(State(), examCards, subjectNames, menus, pageOf)
    {
      var subjectIds := SubjectIds(examCards);
      if subjectNames != [] {
        subjectIds := KeepNamed(subjectIds, subjectNames);
      }
      var fetched := FetchPages(subjectIds, menus, pageOf);
      if fetched.Failure? {
        return Failure(fetched.error);
      }
      var (pagesHtmls, subjectThemesData) := fetched.value;
      r := SubjectLoop(subjectIds, ThemesFrom(menus), pagesHtmls, subjectThemesData);
    }

    /** The subject loop proper: every subject zipped with the whole page list and its
        themes looked up by hash. */
    method SubjectLoop(subjectIds: Dict<string>, themesOf: string -> Dict<string>,
                       pagesHtmls: seq<seq<Card>>, subjectThemesData: map<string, Dict<string>>)
      returns (r: Result<seq<ProblemData>, Raised>)
      requires subjectThemesData == ThemesByHash(subjectIds, themesOf, |subjectIds|)
      ensures r == AllProblemsAsWritten(State(), subjectIds, themesOf, pagesHtmls)
    {
      ghost var results := AsWrittenResults(State(), subjectIds, themesOf, pagesHtmls);
      var allProblems: seq<ProblemData> := [];
      var j := 0;
      while j < |subjectIds|
        invariant 0 <= j <= |subjectIds|
        invariant ConcatUpTo(results, j) == Success(allProblems)
      {
        var (subjectName, subjectHash) := subjectIds[j];
        ThemesByHashLookup(subjectIds, themesOf, |subjectIds|, j);
        var themesData := subjectThemesData[subjectHash];
        var subjectProblems := ParseSubject(subjectName, subjectHash, pagesHtmls, themesData);
        AsWrittenResultsAt(State(), subjectIds, themesOf, pagesHtmls, j);
        assert results[j] == subjectProblems;
        if subjectProblems.Failure? {
          ConcatStops(results, j);
          return subjectProblems;
        }
        ConcatStep(results, j, allProblems, subjectProblems.value);
        allProblems := allProblems + subjectProblems.value;
        j := j + 1;
      }
      r := Success(allProblems);
    }

    /** `parse_and_save_all_problems` with the subject loop corrected: every subject is
        zipped with the pages fetched for it, which start where the previous subject's
        pages end. */
    method ParseAllProblemsOwnPages(examCards: seq<ExamCard>, subjectNames: seq<string>,
                                    menus: string -> Result<Dict<string>, Raised>, pageOf: (string, string) -> seq<Card>)
      returns (r: Result<seq<ProblemData>, Raised>)
      ensures r == RunCorrected(State(), examCards, subjectNames, menus, pageOf)
    {
      var subjectIds := SubjectIds(examCards);
      if subjectNames != [] {
        subjectIds := KeepNamed(subjectIds, subjectNames);
      }
      var fetched := FetchPages(subjectIds, menus, pageOf);
      if fetched.Failure? {
        return Failure(fetched.error);
      }
      var (pagesHtmls, subjectThemesData) := fetched.value;
      r := SubjectLoopOwnPages(subjectIds, ThemesFrom(menus), pagesHtmls, subjectThemesData);
    }

    /** Subject j of the corrected loop: parsed from the pages that start at its offset,
        the number of pages fetched for the subjects before it. */
    method ParseSubjectAt(subjectIds: Dict<string>, themesOf: string -> Dict<string>, pagesHtmls: seq<seq<Card>>,
                          subjectThemesData: map<string, Dict<string>>, j: nat)
      returns (r: Result<seq<ProblemData>, Raised>)
      requires j < |subjectIds|
      requires subjectThemesData == ThemesByHash(subjectIds, themesOf, |subjectIds|)
      ensures r == CorrectedSubject(State(), subjectIds, themesOf, pagesHtmls, j)
    {
      var (subjectName, subjectHash) := subjectIds[j];
      ThemesByHashLookup(subjectIds, themesOf, |subjectIds|, j);
      var themesData := subjectThemesData[subjectHash];
      var start := Offset(subjectIds, themesOf, j);
      r := ParseSubject(subjectName, subjectHash, From(pagesHtmls, start), themesData);
    }

    /** The corrected subject loop: each subject parsed from its own pages. */
    method SubjectLoopOwnPages(subjectIds: Dict<string>, themesOf: string -> Dict<string>,
                               pagesHtmls: seq<seq<Card>>, subjectThemesData: map<string, Dict<string>>)
      returns (r: Result<seq<ProblemData>, Raised>)
      requires subjectThemesData == ThemesByHash(subjectIds, themesOf, |subjectIds|)
      ensures r == AllProblemsCorrected(State(), subjectIds, themesOf, pagesHtmls)
    {
      ghost var st := State();
      ghost var results := CorrectedResults(st, subjectIds, themesOf, pagesHtmls);
      var allProblems: seq<ProblemData> := [];
      var j := 0;
      while j < |subjectIds|
        invariant 0 <= j <= |subjectIds| == |results|
        invariant ConcatUpTo(results, j) == Success(allProblems)
      {
        var next := AppendSubjectAt(subjectIds, themesOf, pagesHtmls, subjectThemesData, st, j, allProblems);
        if next.Failure? {
          return next;
        }
        allProblems := next.value;
        j := j + 1;
      }
      r := Success(allProblems);
    }

    /** One round of the corrected subject loop: subject j parsed from its own pages and
        appended to `all_problems`. */
    method AppendSubjectAt(subjectIds: Dict<string>, themesOf: string -> Dict<string>, pagesHtmls: seq<seq<Card>>,
                           subjectThemesData: map<string, Dict<string>>,
                           ghost st: ClientState, j: nat, allProblems: seq<ProblemData>)
      returns (next: Result<seq<ProblemData>, Raised>)
      requires subjectThemesData == ThemesByHash(subjectIds, themesOf, |subjectIds|)
      requires st == State() && j < |subjectIds|
      requires ConcatUpTo(CorrectedResults(st, subjectIds, themesOf, pagesHtmls), j) == Success(allProblems)
      ensures next.Success? ==> ConcatUpTo(CorrectedResults(st, subjectIds, themesOf, pagesHtmls), j + 1) == next
      ensures next.Failure? ==> next == AllProblemsCorrected(st, subjectIds, themesOf, pagesHtmls)
    {
      ghost var results := CorrectedResults(st, subjectIds, themesOf, pagesHtmls);
      var subjectProblems := ParseSubjectAt(subjectIds, themesOf, pagesHtmls, subjectThemesData, j);
      CorrectedResultsAt(st, subjectIds, themesOf, pagesHtmls, j);
      if subjectProblems.Failure? {
        ConcatStops(results, j);
        return subjectProblems;
      }
      ConcatStep(results, j, allProblems, subjectProblems.value);
      next := Success(allProblems + subjectProblems.value);
    }
  }

  /** The card positions still to be built when the walk reaches pair i: after a skipped
      pair, those from the card after the one just taken. */
  function Pending(cards: seq<Card>, i: nat, skip: bool): (r: seq<nat>)
    ensures forall j :: 0 <= j < |r| ==> r[j] < |cards|
  {
    if skip then Emitted(cards, i + 1) else Emitted(cards, i)
  }

  /** One pair of the walk with no skip pending: the card it takes is built next, and the
      rest is what the walk takes after it. */
  lemma PendingStep(ctx: PageContext, cards: seq<Card>, i: nat, problems: seq<ProblemData>)
    requires i + 1 < |cards|
    ensures var taken := if cards[i].id.None? then cards[i + 1] else cards[i];
            var rest := Pending(cards, i + 1, cards[i].id.None?);
            Prepend(problems, BuildAll(ctx, cards, Pending(cards, i, false)))
            == match BuildRecord(ctx, taken)
               case Failure(e) => Failure(e)
               case Success(rec) => Prepend(problems + [rec], BuildAll(ctx, cards, rest))
  {
    var pending := Pending(cards, i, false);
    var rest := Pending(cards, i + 1, cards[i].id.None?);
    assert pending[1..] == rest;
    BuildAllFirst(ctx, cards, pending);
    match BuildRecord(ctx, cards[pending[0]])
    case Failure(e) =>
    case Success(rec) =>
      PrependTwice(problems, [rec], BuildAll(ctx, cards, rest));
  }

  /** `BuildAll` on a non-empty list of positions: the first record, then the rest. */
  lemma BuildAllFirst(ctx: PageContext, cards: seq<Card>, positions: seq<nat>)
    requires positions != [] && forall j :: 0 <= j < |positions| ==> positions[j] < |cards|
    ensures BuildAll(ctx, cards, positions)
            == match BuildRecord(ctx, cards[positions[0]])
               case Failure(e) => Failure(e)
               case Success(rec) => Prepend([rec], BuildAll(ctx, cards, positions[1..]))
  {
  }

  lemma PrependTwice(a: seq<ProblemData>, b: seq<ProblemData>, rest: Result<seq<ProblemData>, Raised>)
    ensures Prepend(a, Prepend(b, rest)) == Prepend(a + b, rest)
  {
    if rest.Success? {
      assert a + (b + rest.value) == a + b + rest.value;
    }
  }

  lemma PrependNothing(rest: Result<seq<ProblemData>, Raised>)
    ensures Prepend([], rest) == rest
  {
    if rest.Success? {
      assert [] + rest.value == rest.value;
    }
  }

  /** `subject_themes_data` after the first j subjects: each hash mapped to its themes. */
  function ThemesByHash(subjects: Dict<string>, themesOf: string -> Dict<string>, j: nat): map<string, Dict<string>>
    requires j <= |subjects|
  {
    if j == 0 then map[]
    else ThemesByHash(subjects, themesOf, j - 1)[subjects[j - 1].1 := themesOf(subjects[j - 1].1)]
  }

  /** Every subject seen so far can be looked up, and finds its own themes. */
  lemma {:induction false} ThemesByHashLookup(subjects: Dict<string>, themesOf: string -> Dict<string>, j: nat, i: nat)
    requires i < j <= |subjects|
    ensures subjects[i].1 in ThemesByHash(subjects, themesOf, j)
    ensures ThemesByHash(subjects, themesOf, j)[subjects[i].1] == themesOf(subjects[i].1)
  {
    if i < j - 1 {
      ThemesByHashLookup(subjects, themesOf, j - 1, i);
    }
  }
}
