/** The subject loop of `parse_and_save_all_problems`: the listing pages fetched for every
    (subject, theme) pair, parsed subject by subject, each record tagged with the theme of
    its page, and the themes of records sharing a problem id merged.

    The pages are fetched in subject order and, within a subject, in theme order, into one
    flat list. The loop pairs that list with each subject's themes starting from its first
    page every time, so every subject after the first is parsed from pages fetched for the
    first subjects. `AllProblemsAsWritten` states that behaviour; `AllProblemsCorrected`
    starts each subject at its own pages. */
module Pipeline {
  import opened Wrappers
  import opened OrderedDict
  import opened Fipi
  import opened ProblemTypes
  import opened RecordBuilder
  import opened CardPairing
  import opened ThemeAggregation
  import opened IndexParsing

  /** What every record of a run is built against besides its subject. */
  datatype ClientState = ClientState(
    rev: Revision,
    ends: Endpoints,
    urljoin: (string, string) -> string,
    giaType: string)

  function SubjectContext(st: ClientState, subject: (string, string)): PageContext {
    PageContext(st.rev, st.ends, st.urljoin, subject.0, subject.1, st.giaType)
  }

  function Min(a: nat, b: nat): nat {
    if a <= b then a else b
  }

  function ThemeOf(entry: (string, string)): ThemeData {
    ThemeData(entry.0, entry.1)
  }

  /** The list f(0), ..., f(n - 1). */
  function Tabulate<T>(f: nat --> T, n: nat): (r: seq<T>)
    requires forall i: nat :: i < n ==> f.requires(i)
    ensures |r| == n
  {
    if n == 0 then [] else Tabulate(f, n - 1) + [f(n - 1)]
  }

  lemma {:induction false} TabulateAt<T>(f: nat --> T, n: nat, k: nat)
    requires forall i: nat :: i < n ==> f.requires(i)
    requires k < n
    ensures Tabulate(f, n)[k] == f(k)
  {
    if k < n - 1 {
      TabulateAt(f, n - 1, k);
    }
  }

  /** Lists produced one after the other and concatenated, the first k of them: the
      first failure stops the loop and is its outcome. */
  function ConcatUpTo<T>(rs: seq<Result<seq<T>, Raised>>, k: nat): Result<seq<T>, Raised>
    requires k <= |rs|
  {
    if k == 0 then Success([])
    else
      var acc :- ConcatUpTo(rs, k - 1);
      var v :- rs[k - 1];
      Success(acc + v)
  }

  /** A failure among the first k lists is the outcome of every longer run. */
  lemma {:induction false} ConcatFailureSticks<T>(rs: seq<Result<seq<T>, Raised>>, k: nat, m: nat)
    requires k <= m <= |rs|
    requires ConcatUpTo(rs, k).Failure?
    ensures ConcatUpTo(rs, m) == ConcatUpTo(rs, k)
  {
    if k < m {
      ConcatFailureSticks(rs, k, m - 1);
    }
  }

  /** The run fails exactly when one of the lists does, and then with the first failure. */
  lemma {:induction false} ConcatFails<T>(rs: seq<Result<seq<T>, Raised>>, k: nat)
    requires k <= |rs|
    ensures ConcatUpTo(rs, k).Failure? <==> exists i :: 0 <= i < k && rs[i].Failure?
    ensures ConcatUpTo(rs, k).Failure? ==>
              exists i :: 0 <= i < k && rs[i].Failure? && ConcatUpTo(rs, k) == rs[i]
                          && forall i' :: 0 <= i' < i ==> rs[i'].Success?
  {
    if k > 0 {
      ConcatFails(rs, k - 1);
    }
  }

  /** One more successful list is appended to a successful run. */
  lemma ConcatStep<T>(rs: seq<Result<seq<T>, Raised>>, k: nat, acc: seq<T>, v: seq<T>)
    requires k < |rs|
    requires ConcatUpTo(rs, k) == Success(acc) && rs[k] == Success(v)
    ensures ConcatUpTo(rs, k + 1) == Success(acc + v)
  {
  }

  /** A failing list ends a successful run with its own failure. */
  lemma ConcatStops<T>(rs: seq<Result<seq<T>, Raised>>, k: nat)
    requires k < |rs|
    requires ConcatUpTo(rs, k).Success? && rs[k].Failure?
    ensures ConcatUpTo(rs, |rs|) == rs[k]
  {
    ConcatFailureSticks(rs, k + 1, |rs|);
  }

  /** The records of one page of the zip, each tagged with the page's theme. */
  function PageRecords(ctx: PageContext, page: seq<Card>, theme: (string, string)): Result<seq<ProblemData>, Raised> {
    var recs :- ParsePage(ctx, page);
    Success(WithTheme(recs, ThemeOf(theme)))
  }

  /** One outcome per (page, theme) pair of the zip, which stops at the shorter of the
      page list and the theme dict. */
  function PageResults(ctx: PageContext, pages: seq<seq<Card>>, themes: Dict<string>): (r: seq<Result<seq<ProblemData>, Raised>>)
    ensures |r| == Min(|pages|, |themes|)
  {
    Tabulate(PageOutcome(ctx, pages, themes), Min(|pages|, |themes|))
  }

  function PageOutcome(ctx: PageContext, pages: seq<seq<Card>>, themes: Dict<string>): nat --> Result<seq<ProblemData>, Raised> {
    (i: nat) requires i < Min(|pages|, |themes|) => PageRecords(ctx, pages[i], themes[i])
  }

  /** Outcome k of the zip is page k parsed and tagged with theme k. */
  lemma PageResultsAt(ctx: PageContext, pages: seq<seq<Card>>, themes: Dict<string>, k: nat)
    requires k < Min(|pages|, |themes|)
    ensures PageResults(ctx, pages, themes)[k] == PageRecords(ctx, pages[k], themes[k])
  {
    TabulateAt(PageOutcome(ctx, pages, themes), Min(|pages|, |themes|), k);
  }

  /** `subject_problems_list` after the attribution loop. */
  function Attributed(ctx: PageContext, pages: seq<seq<Card>>, themes: Dict<string>): Result<seq<ProblemData>, Raised> {
    ConcatUpTo(PageResults(ctx, pages, themes), Min(|pages|, |themes|))
  }

  /** The records one subject contributes to `all_problems`: the attributed list after the
      in-place merge. */
  function SubjectProblems(ctx: PageContext, pages: seq<seq<Card>>, themes: Dict<string>): Result<seq<ProblemData>, Raised> {
    var list :- Attributed(ctx, pages, themes);
    Success(Merged(list))
  }

  /** One outcome per subject, every subject zipped with the page list from its start. */
  function AsWrittenResults(st: ClientState, subjects: Dict<string>, themesOf: string -> Dict<string>,
                            pages: seq<seq<Card>>): (r: seq<Result<seq<ProblemData>, Raised>>)
    ensures |r| == |subjects|
  {
    Tabulate(AsWrittenOutcome(st, subjects, themesOf, pages), |subjects|)
  }

  function AsWrittenOutcome(st: ClientState, subjects: Dict<string>, themesOf: string -> Dict<string>,
                            pages: seq<seq<Card>>): nat --> Result<seq<ProblemData>, Raised> {
    (i: nat) requires i < |subjects| => SubjectProblems(SubjectContext(st, subjects[i]), pages, themesOf(subjects[i].1))
  }

  /** As written, subject j is zipped with the whole page list. */
  lemma AsWrittenResultsAt(st: ClientState, subjects: Dict<string>, themesOf: string -> Dict<string>,
                           pages: seq<seq<Card>>, j: nat)
    requires j < |subjects|
    ensures AsWrittenResults(st, subjects, themesOf, pages)[j]
            == SubjectProblems(SubjectContext(st, subjects[j]), pages, themesOf(subjects[j].1))
  {
    TabulateAt(AsWrittenOutcome(st, subjects, themesOf, pages), |subjects|, j);
  }

  function AllProblemsAsWritten(st: ClientState, subjects: Dict<string>, themesOf: string -> Dict<string>,
                                pages: seq<seq<Card>>): Result<seq<ProblemData>, Raised>
  {
    ConcatUpTo(AsWrittenResults(st, subjects, themesOf, pages), |subjects|)
  }

  /** The number of pages fetched for the first j subjects: one per theme. */
  function Offset(subjects: Dict<string>, themesOf: string -> Dict<string>, j: nat): nat
    requires j <= |subjects|
  {
    if j == 0 then 0 else Offset(subjects, themesOf, j - 1) + |themesOf(subjects[j - 1].1)|
  }

  /** The pages from index i on (none when i is past the end). */
  function From(pages: seq<seq<Card>>, i: nat): (r: seq<seq<Card>>)
    ensures i <= |pages| ==> r == pages[i..]
    ensures i > |pages| ==> r == []
  {
    if i == 0 then pages
    else if pages == [] then []
    else From(pages[1..], i - 1)
  }

  /** One outcome per subject, every subject zipped with the pages fetched for it: those
      after the pages of the subjects before it. */
  function CorrectedResults(st: ClientState, subjects: Dict<string>, themesOf: string -> Dict<string>,
                            pages: seq<seq<Card>>): (r: seq<Result<seq<ProblemData>, Raised>>)
    ensures |r| == |subjects|
  {
    Tabulate(CorrectedOutcome(st, subjects, themesOf, pages), |subjects|)
  }

  function CorrectedOutcome(st: ClientState, subjects: Dict<string>, themesOf: string -> Dict<string>,
                            pages: seq<seq<Card>>): nat --> Result<seq<ProblemData>, Raised> {
    (i: nat) requires i < |subjects| => CorrectedSubject(st, subjects, themesOf, pages, i)
  }

  /** Corrected, subject j is zipped with the pages from its offset on. */
  lemma CorrectedResultsAt(st: ClientState, subjects: Dict<string>, themesOf: string -> Dict<string>,
                           pages: seq<seq<Card>>, j: nat)
    requires j < |subjects|
    ensures CorrectedResults(st, subjects, themesOf, pages)[j] == CorrectedSubject(st, subjects, themesOf, pages, j)
  {
    TabulateAt(CorrectedOutcome(st, subjects, themesOf, pages), |subjects|, j);
  }

  /** Subject i zipped with the pages fetched for it: those from its offset on. */
  function CorrectedSubject(st: ClientState, subjects: Dict<string>, themesOf: string -> Dict<string>,
                            pages: seq<seq<Card>>, i: nat): Result<seq<ProblemData>, Raised>
    requires i < |subjects|
  {
    SubjectProblems(SubjectContext(st, subjects[i]), From(pages, Offset(subjects, themesOf, i)), themesOf(subjects[i].1))
  }

  function AllProblemsCorrected(st: ClientState, subjects: Dict<string>, themesOf: string -> Dict<string>,
                                pages: seq<seq<Card>>): Result<seq<ProblemData>, Raised>
  {
    ConcatUpTo(CorrectedResults(st, subjects, themesOf, pages), |subjects|)
  }

  /** The pages fetched for one subject, one per theme, in theme order. */
  function PagesFor(subject: (string, string), themesOf: string -> Dict<string>,
                    pageOf: (string, string) -> seq<Card>): (r: seq<seq<Card>>)
    ensures |r| == |themesOf(subject.1)|
  {
    var themes := themesOf(subject.1);
    seq(|themes|, k requires 0 <= k < |themes| => pageOf(subject.1, themes[k].0))
  }

  /** `pages_htmls` for the first j subjects: the fan-out collects one page per (subject,
      theme) pair, in subject order and theme order. */
  function FetchedUpTo(subjects: Dict<string>, themesOf: string -> Dict<string>,
                       pageOf: (string, string) -> seq<Card>, j: nat): (r: seq<seq<Card>>)
    requires j <= |subjects|
    ensures |r| == Offset(subjects, themesOf, j)
  {
    if j == 0 then [] else FetchedUpTo(subjects, themesOf, pageOf, j - 1) + PagesFor(subjects[j - 1], themesOf, pageOf)
  }

  function PagesFetched(subjects: Dict<string>, themesOf: string -> Dict<string>,
                        pageOf: (string, string) -> seq<Card>): (r: seq<seq<Card>>)
  {
    FetchedUpTo(subjects, themesOf, pageOf, |subjects|)
  }

  /** Offsets grow with the subject index. */
  lemma {:induction false} OffsetMonotone(subjects: Dict<string>, themesOf: string -> Dict<string>, j: nat, m: nat)
    requires j <= m <= |subjects|
    ensures Offset(subjects, themesOf, j) <= Offset(subjects, themesOf, m)
  {
    if j < m {
      OffsetMonotone(subjects, themesOf, j, m - 1);
    }
  }

  /** Inside the fetched list, the pages of subject j start at its offset: the page at
      offset + k is the one fetched for subject j's k-th theme. */
  lemma {:induction false} FetchedAt(subjects: Dict<string>, themesOf: string -> Dict<string>,
                                     pageOf: (string, string) -> seq<Card>, m: nat, j: nat, k: nat)
    requires j < m <= |subjects|
    requires k < |themesOf(subjects[j].1)|
    ensures Offset(subjects, themesOf, j) + k < Offset(subjects, themesOf, m)
    ensures FetchedUpTo(subjects, themesOf, pageOf, m)[Offset(subjects, themesOf, j) + k]
            == pageOf(subjects[j].1, themesOf(subjects[j].1)[k].0)
  {
    var prefix := FetchedUpTo(subjects, themesOf, pageOf, m - 1);
    var last := PagesFor(subjects[m - 1], themesOf, pageOf);
    var at := Offset(subjects, themesOf, j) + k;
    assert FetchedUpTo(subjects, themesOf, pageOf, m) == prefix + last;
    OffsetMonotone(subjects, themesOf, j + 1, m);
    if j < m - 1 {
      FetchedAt(subjects, themesOf, pageOf, m - 1, j, k);
      assert (prefix + last)[at] == prefix[at];
    } else {
      assert (prefix + last)[at] == last[k];
    }
  }

  /** The corrected loop pairs every theme of every subject with the page fetched for
      exactly that subject and theme. */
  lemma CorrectedPairsOwnPages(subjects: Dict<string>, themesOf: string -> Dict<string>,
                               pageOf: (string, string) -> seq<Card>, j: nat, k: nat)
    requires j < |subjects|
    requires k < |themesOf(subjects[j].1)|
    ensures var own := From(PagesFetched(subjects, themesOf, pageOf), Offset(subjects, themesOf, j));
            k < |own| && own[k] == pageOf(subjects[j].1, themesOf(subjects[j].1)[k].0)
  {
    FetchedAt(subjects, themesOf, pageOf, |subjects|, j, k);
  }

  /** The code as written gives every subject the pages that start the fetched list: for
      the k-th theme of subject j it parses the page fetched for the first subject's k-th
      theme, whatever j is. */
  lemma AsWrittenPairsFirstSubjectPages(subjects: Dict<string>, themesOf: string -> Dict<string>,
                                        pageOf: (string, string) -> seq<Card>, k: nat)
    requires 0 < |subjects|
    requires k < |themesOf(subjects[0].1)|
    ensures var pages := PagesFetched(subjects, themesOf, pageOf);
            k < |pages| && pages[k] == pageOf(subjects[0].1, themesOf(subjects[0].1)[k].0)
  {
    FetchedAt(subjects, themesOf, pageOf, |subjects|, 0, k);
  }

  /** For the first subject the two loops agree, so with a single subject the whole runs
      agree; the code is only wrong from the second subject on. */
  lemma FirstSubjectAgrees(st: ClientState, subjects: Dict<string>, themesOf: string -> Dict<string>,
                           pages: seq<seq<Card>>)
    requires 0 < |subjects|
    ensures AsWrittenResults(st, subjects, themesOf, pages)[0] == CorrectedResults(st, subjects, themesOf, pages)[0]
    ensures |subjects| == 1 ==> AllProblemsAsWritten(st, subjects, themesOf, pages) == AllProblemsCorrected(st, subjects, themesOf, pages)
  {
    var a := AsWrittenResults(st, subjects, themesOf, pages);
    var c := CorrectedResults(st, subjects, themesOf, pages);
    AsWrittenResultsAt(st, subjects, themesOf, pages, 0);
    CorrectedResultsAt(st, subjects, themesOf, pages, 0);
    assert Offset(subjects, themesOf, 0) == 0;
    assert From(pages, 0) == pages;
    assert a[0] == c[0];
    if |subjects| == 1 {
      assert ConcatUpTo(a, 0) == ConcatUpTo(c, 0);
      assert ConcatUpTo(a, 1) == ConcatUpTo(c, 1);
    }
  }

  /** The merge keeps one entry per parsed record: a subject contributes as many records as
      its attributed pages hold, with no deduplication. */
  lemma SubjectKeepsEveryRecord(ctx: PageContext, pages: seq<seq<Card>>, themes: Dict<string>)
    requires Attributed(ctx, pages, themes).Success?
    ensures SubjectProblems(ctx, pages, themes).Success?
    ensures |SubjectProblems(ctx, pages, themes).value| == |Attributed(ctx, pages, themes).value|
  {
  }

  /** A page of two cards with ids yields the first card's record alone. */
  lemma TwoCardPage(ctx: PageContext, page: seq<Card>)
    requires |page| == 2 && page[0].id.Some? && page[1].id.Some?
    ensures ParsePage(ctx, page) == Success([BuildRecord(ctx, page[0]).value])
  {
    EmittedSmallPages(page[0], page[1]);
    assert page == [page[0], page[1]];
    assert Emitted(page, 0) == [0];
    var r := ParsePage(ctx, page);
    assert r.Success? && |r.value| == 1;
    assert r.value == [r.value[0]];
  }

  /** A subject with one theme whose first page holds two cards with ids contributes one
      record: the first card's, tagged with the theme. */
  lemma SingleThemeSubject(ctx: PageContext, pages: seq<seq<Card>>, themes: Dict<string>)
    requires |pages| >= 1 && |themes| == 1
    requires |pages[0]| == 2 && pages[0][0].id.Some? && pages[0][1].id.Some?
    ensures SubjectProblems(ctx, pages, themes)
            == Success([BuildRecord(ctx, pages[0][0]).value.(themes := [ThemeOf(themes[0])])])
  {
    TwoCardPage(ctx, pages[0]);
    var rec := BuildRecord(ctx, pages[0][0]).value;
    var tagged := rec.(themes := [ThemeOf(themes[0])]);
    assert WithTheme([rec], ThemeOf(themes[0])) == [tagged];
    assert PageRecords(ctx, pages[0], themes[0]) == Success([tagged]);
    assert Min(|pages|, |themes|) == 1;
    assert ConcatUpTo(PageResults(ctx, pages, themes), 1) == Success([] + [tagged]);
    assert [] + [tagged] == [tagged];
    assert Attributed(ctx, pages, themes) == Success([tagged]);
    DistinctIdsKeepThemes([tagged]);
    assert Merged([tagged]) == [tagged];
  }

  /** A listing page of two problems: `first`, then a problem shared by every subject. */
  function ExamplePage(first: string): seq<Card> {
    [Card(Some("q" + first), "<p>" + first + "</p>", []), Card(Some("q9"), "<p>9</p>", [])]
  }

  const ExampleSubjects: Dict<string> := [("A", "h1"), ("B", "h2")]

  /** Every subject of the example has the one theme "1.1". */
  function ExampleThemes(hash: string): Dict<string> {
    [("1.1", "T")]
  }

  /** Subject "h1" lists problem "1" first, every other subject problem "2". */
  function ExamplePageOf(hash: string, codifierId: string): seq<Card> {
    if hash == "h1" then ExamplePage("1") else ExamplePage("2")
  }

  lemma ExampleFetched()
    ensures PagesFetched(ExampleSubjects, ExampleThemes, ExamplePageOf) == [ExamplePage("1"), ExamplePage("2")]
    ensures Offset(ExampleSubjects, ExampleThemes, 1) == 1
  {
    var p1, p2 := ExamplePage("1"), ExamplePage("2");
    var a := PagesFor(ExampleSubjects[0], ExampleThemes, ExamplePageOf);
    var b := PagesFor(ExampleSubjects[1], ExampleThemes, ExamplePageOf);
    assert |a| == 1 && a[0] == ExamplePageOf("h1", "1.1");
    assert |b| == 1 && b[0] == ExamplePageOf("h2", "1.1");
    assert a == [p1] && b == [p2];
    assert FetchedUpTo(ExampleSubjects, ExampleThemes, ExamplePageOf, 1) == [p1];
  }

  /** The record subject `subject` builds from the page whose first problem is `first`. */
  function ExampleRecord(st: ClientState, subject: (string, string), first: string): ProblemData {
    BuildRecord(SubjectContext(st, subject), ExamplePage(first)[0]).value.(themes := [ThemeData("1.1", "T")])
  }

  lemma ExampleIds()
    ensures ProblemIdOf("q1") == "1" && ProblemIdOf("q2") == "2"
  {
    assert "q1"[1..] == "1" && "q2"[1..] == "2";
  }

  /** As written, the second subject of the example is parsed from the first subject's
      page: it records problem "1" under its own name. */
  lemma SecondSubjectReadsFirstSubjectPages(st: ClientState)
    ensures var pages := PagesFetched(ExampleSubjects, ExampleThemes, ExamplePageOf);
            var r := AllProblemsAsWritten(st, ExampleSubjects, ExampleThemes, pages);
            && r.Success? && |r.value| == 2
            && r.value[1].subjectName == "B" && r.value[1].problemId == "1"
  {
    ExampleFetched();
    var pages := PagesFetched(ExampleSubjects, ExampleThemes, ExamplePageOf);
    var a := ExampleRecord(st, ExampleSubjects[0], "1");
    var b := ExampleRecord(st, ExampleSubjects[1], "1");
    AsWrittenResultsAt(st, ExampleSubjects, ExampleThemes, pages, 0);
    AsWrittenResultsAt(st, ExampleSubjects, ExampleThemes, pages, 1);
    ExampleSubjectOutcome(st, 0, pages, "1");
    ExampleSubjectOutcome(st, 1, pages, "1");
    ConcatTwo(AsWrittenResults(st, ExampleSubjects, ExampleThemes, pages), a, b);
    ExampleRecordFields(st, ExampleSubjects[1], "1");
    ExampleIds();
  }


  /** Started at its own pages, the second subject of the example records problem "2". */
  lemma SecondSubjectReadsOwnPagesCorrected(st: ClientState)
    ensures var pages := PagesFetched(ExampleSubjects, ExampleThemes, ExamplePageOf);
            var r := AllProblemsCorrected(st, ExampleSubjects, ExampleThemes, pages);
            && r.Success? && |r.value| == 2
            && r.value[1].subjectName == "B" && r.value[1].problemId == "2"
  {
    ExampleFetched();
    var pages := PagesFetched(ExampleSubjects, ExampleThemes, ExamplePageOf);
    var a := ExampleRecord(st, ExampleSubjects[0], "1");
    var b := ExampleRecord(st, ExampleSubjects[1], "2");
    CorrectedResultsAt(st, ExampleSubjects, ExampleThemes, pages, 0);
    CorrectedResultsAt(st, ExampleSubjects, ExampleThemes, pages, 1);
    assert CorrectedSubject(st, ExampleSubjects, ExampleThemes, pages, 0) == Success([a]) by {
      assert Offset(ExampleSubjects, ExampleThemes, 0) == 0;
      ExampleSubjectOutcome(st, 0, From(pages, 0), "1");
    }
    assert CorrectedSubject(st, ExampleSubjects, ExampleThemes, pages, 1) == Success([b]) by {
      ExampleSubjectOutcome(st, 1, From(pages, 1), "2");
    }
    ConcatTwo(CorrectedResults(st, ExampleSubjects, ExampleThemes, pages), a, b);
    ExampleRecordFields(st, ExampleSubjects[1], "2");
    ExampleIds();
  }

  /** A subject of the example zipped with pages that start with the page listing `first`
      contributes that page's first record alone. */
  lemma ExampleSubjectOutcome(st: ClientState, j: nat, pages: seq<seq<Card>>, first: string)
    requires j < |ExampleSubjects| && |pages| >= 1 && pages[0] == ExamplePage(first)
    ensures SubjectProblems(SubjectContext(st, ExampleSubjects[j]), pages, ExampleThemes(ExampleSubjects[j].1))
            == Success([ExampleRecord(st, ExampleSubjects[j], first)])
  {
    SingleThemeSubject(SubjectContext(st, ExampleSubjects[j]), pages, ExampleThemes(ExampleSubjects[j].1));
    assert ThemeOf(ExampleThemes(ExampleSubjects[j].1)[0]) == ThemeData("1.1", "T");
  }

  lemma ExampleRecordFields(st: ClientState, subject: (string, string), first: string)
    ensures ExampleRecord(st, subject, first).subjectName == subject.0
    ensures ExampleRecord(st, subject, first).problemId == ProblemIdOf("q" + first)
  {
  }

  /** Two successful outcomes concatenate to their two lists. */
  lemma ConcatTwo<T>(rs: seq<Result<seq<T>, Raised>>, a: T, b: T)
    requires |rs| == 2 && rs[0] == Success([a]) && rs[1] == Success([b])
    ensures ConcatUpTo(rs, 2) == Success([a, b])
  {
    ConcatStep(rs, 0, [], [a]);
    assert [] + [a] == [a];
    ConcatStep(rs, 1, [a], [b]);
    assert [a] + [b] == [a, b];
  }


  /** The theme dict of a subject whose menu parsed. */
  function ThemesFrom(menus: string -> Result<Dict<string>, Raised>): string -> Dict<string> {
    (hash: string) => if menus(hash).Success? then menus(hash).value else []
  }

  /** The theme menus of the first j subjects parsed in order, as the fan-out does before
      any page is parsed; the first menu that fails stops the run. */
  function MenusParsed(subjects: Dict<string>, menus: string -> Result<Dict<string>, Raised>, j: nat): Result<(), Raised>
    requires j <= |subjects|
  {
    if j == 0 then Success(())
    else if MenusParsed(subjects, menus, j - 1).Failure? then MenusParsed(subjects, menus, j - 1)
    else if menus(subjects[j - 1].1).Failure? then Failure(menus(subjects[j - 1].1).error)
    else Success(())
  }

  /** The fan-out fails exactly when the menu of one of the subjects does. */
  lemma {:induction false} MenusParsedFails(subjects: Dict<string>, menus: string -> Result<Dict<string>, Raised>, j: nat)
    requires j <= |subjects|
    ensures MenusParsed(subjects, menus, j).Failure? <==> exists i :: 0 <= i < j && menus(subjects[i].1).Failure?
  {
    if j > 0 {
      MenusParsedFails(subjects, menus, j - 1);
    }
  }

  /** A failed menu among the first j subjects is the failure of the whole fan-out. */
  lemma {:induction false} MenusParsedFailureSticks(subjects: Dict<string>, menus: string -> Result<Dict<string>, Raised>, j: nat, m: nat)
    requires j <= m <= |subjects|
    requires MenusParsed(subjects, menus, j).Failure?
    ensures MenusParsed(subjects, menus, m) == MenusParsed(subjects, menus, j)
  {
    if j < m {
      MenusParsedFailureSticks(subjects, menus, j, m - 1);
    }
  }

  /** `parse_and_save_all_problems` up to the save, as written: the subjects of the exam
      page restricted to the requested names, their theme dicts, one page per (subject,
      theme) pair, and the subject loop that zips every subject with the pages from the
      start. `menus` gives, for a subject hash, what `get_theme_names_and_ids` returns
      (its parse is `ThemeIndex` of the non-header menu items). */
  function RunAsWritten(st: ClientState, examCards: seq<ExamCard>, names: seq<string>,
                        menus: string -> Result<Dict<string>, Raised>, pageOf: (string, string) -> seq<Card>): Result<seq<ProblemData>, Raised>
  {
    var subjects := FilterSubjects(SubjectIds(examCards), names);
    if MenusParsed(subjects, menus, |subjects|).Failure? then Failure(MenusParsed(subjects, menus, |subjects|).error)
    else
      var themesOf := ThemesFrom(menus);
      AllProblemsAsWritten(st, subjects, themesOf, PagesFetched(subjects, themesOf, pageOf))
  }

  /** The same run with every subject zipped with its own pages. */
  function RunCorrected(st: ClientState, examCards: seq<ExamCard>, names: seq<string>,
                        menus: string -> Result<Dict<string>, Raised>, pageOf: (string, string) -> seq<Card>): Result<seq<ProblemData>, Raised>
  {
    var subjects := FilterSubjects(SubjectIds(examCards), names);
    if MenusParsed(subjects, menus, |subjects|).Failure? then Failure(MenusParsed(subjects, menus, |subjects|).error)
    else
      var themesOf := ThemesFrom(menus);
      AllProblemsCorrected(st, subjects, themesOf, PagesFetched(subjects, themesOf, pageOf))
  }

  /** A subject's records depend only on the first |themes| pages it is zipped with: the
      zip stops at the shorter input. */
  lemma SubjectProblemsReadsZippedPages(ctx: PageContext, p1: seq<seq<Card>>, p2: seq<seq<Card>>, themes: Dict<string>)
    requires |themes| <= |p1| && |themes| <= |p2| && p1[..|themes|] == p2[..|themes|]
    ensures SubjectProblems(ctx, p1, themes) == SubjectProblems(ctx, p2, themes)
  {
    var r1 := PageResults(ctx, p1, themes);
    var r2 := PageResults(ctx, p2, themes);
    forall k | 0 <= k < |themes|
      ensures r1[k] == r2[k]
    {
      PageResultsAt(ctx, p1, themes, k);
      PageResultsAt(ctx, p2, themes, k);
      assert p1[k] == p1[..|themes|][k] == p2[..|themes|][k] == p2[k];
    }
    assert r1 == r2;
  }

  /** The reference loop: one outcome per subject, each subject zipped with exactly the
      pages fetched for its own themes. */
  function OwnPagesResults(st: ClientState, subjects: Dict<string>, themesOf: string -> Dict<string>,
                           pageOf: (string, string) -> seq<Card>): (r: seq<Result<seq<ProblemData>, Raised>>)
    ensures |r| == |subjects|
  {
    Tabulate(OwnPagesOutcome(st, subjects, themesOf, pageOf), |subjects|)
  }

  function OwnPagesOutcome(st: ClientState, subjects: Dict<string>, themesOf: string -> Dict<string>,
                           pageOf: (string, string) -> seq<Card>): nat --> Result<seq<ProblemData>, Raised> {
    (i: nat) requires i < |subjects| =>
      SubjectProblems(SubjectContext(st, subjects[i]), PagesFor(subjects[i], themesOf, pageOf), themesOf(subjects[i].1))
  }

  /** Over the fetched pages, the corrected loop parses subject j from exactly the pages
      fetched for subject j. */
  lemma CorrectedSubjectOwnPages(st: ClientState, subjects: Dict<string>, themesOf: string -> Dict<string>,
                                 pageOf: (string, string) -> seq<Card>, j: nat)
    requires j < |subjects|
    ensures CorrectedResults(st, subjects, themesOf, PagesFetched(subjects, themesOf, pageOf))[j]
            == SubjectProblems(SubjectContext(st, subjects[j]), PagesFor(subjects[j], themesOf, pageOf), themesOf(subjects[j].1))
  {
    var themes := themesOf(subjects[j].1);
    var own := From(PagesFetched(subjects, themesOf, pageOf), Offset(subjects, themesOf, j));
    var mine := PagesFor(subjects[j], themesOf, pageOf);
    CorrectedResultsAt(st, subjects, themesOf, PagesFetched(subjects, themesOf, pageOf), j);
    if |themes| > 0 {
      CorrectedPairsOwnPages(subjects, themesOf, pageOf, j, |themes| - 1);
    }
    forall k | 0 <= k < |themes|
      ensures own[..|themes|][k] == mine[..|themes|][k]
    {
      CorrectedPairsOwnPages(subjects, themesOf, pageOf, j, k);
    }
    assert own[..|themes|] == mine[..|themes|];
    SubjectProblemsReadsZippedPages(SubjectContext(st, subjects[j]), own, mine, themes);
  }

  /** The corrected loop over the fetched pages is the reference loop. */
  lemma CorrectedResultsOwnPages(st: ClientState, subjects: Dict<string>, themesOf: string -> Dict<string>,
                                 pageOf: (string, string) -> seq<Card>)
    ensures CorrectedResults(st, subjects, themesOf, PagesFetched(subjects, themesOf, pageOf))
            == OwnPagesResults(st, subjects, themesOf, pageOf)
  {
    var a := CorrectedResults(st, subjects, themesOf, PagesFetched(subjects, themesOf, pageOf));
    var b := OwnPagesResults(st, subjects, themesOf, pageOf);
    forall j | 0 <= j < |subjects|
      ensures a[j] == b[j]
    {
      CorrectedSubjectOwnPages(st, subjects, themesOf, pageOf, j);
      TabulateAt(OwnPagesOutcome(st, subjects, themesOf, pageOf), |subjects|, j);
    }
  }

  /** The corrected run fails with the fan-out's error exactly when some selected subject's
      menu fails; when every menu parses, it is the reference loop in which every subject is
      zipped with the pages fetched for its own themes. */
  lemma RunCorrectedUsesOwnPages(st: ClientState, examCards: seq<ExamCard>, names: seq<string>,
                                 menus: string -> Result<Dict<string>, Raised>, pageOf: (string, string) -> seq<Card>)
    ensures var subjects := FilterSubjects(SubjectIds(examCards), names);
            var fanOut := MenusParsed(subjects, menus, |subjects|);
            (fanOut.Failure? <==> exists i :: 0 <= i < |subjects| && menus(subjects[i].1).Failure?) &&
            (fanOut.Failure? ==> RunCorrected(st, examCards, names, menus, pageOf) == Failure(fanOut.error))
    ensures var subjects := FilterSubjects(SubjectIds(examCards), names);
            (forall i :: 0 <= i < |subjects| ==> menus(subjects[i].1).Success?) ==>
              RunCorrected(st, examCards, names, menus, pageOf)
              == ConcatUpTo(OwnPagesResults(st, subjects, ThemesFrom(menus), pageOf), |subjects|)
  {
    var subjects := FilterSubjects(SubjectIds(examCards), names);
    MenusParsedFails(subjects, menus, |subjects|);
    CorrectedResultsOwnPages(st, subjects, ThemesFrom(menus), pageOf);
  }
}
