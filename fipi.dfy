/** The fixed vocabulary of the question bank: exam kinds, its three endpoints and the
    query parameters of a listing request. Two revisions of the scraper exist; they
    differ in the page size they ask for and in how file paths are trimmed. */
module Fipi {
  import opened Text

  /** `Current` is the scraper under src/, `Legacy` the older copy under parse/. */
  datatype Revision = Current | Legacy

  function Pow2(k: nat): nat {
    if k == 0 then 1 else 2 * Pow2(k - 1)
  }

  /** `_FIPIBANK_API_PAGE_SIZE_LIMIT`. */
  function PageSizeLimit(rev: Revision): (r: nat)
    ensures rev == Current ==> r == 16384
    ensures rev == Legacy ==> r == 4096
  {
    if rev == Current then Pow2(14) else Pow2(12)
  }

  /** The only exam kinds `set_gia_type` accepts. */
  predicate ValidGiaType(g: string) {
    g == "oge" || g == "ege"
  }

  datatype Endpoints = Endpoints(base: string, index: string, questions: string)

  /** The three URLs `set_gia_type` derives from an exam kind. */
  function EndpointsFor(g: string): (r: Endpoints)
    ensures StartsWith(r.index, r.base) && StartsWith(r.questions, r.base)
    ensures r.index[|r.base|..] == "/index.php" && r.questions[|r.base|..] == "/questions.php"
  {
    var base := "https://" + g + ".fipi.ru/bank";
    assert (base + "/index.php")[..|base|] == base;
    assert (base + "/questions.php")[..|base|] == base;
    Endpoints(base, base + "/index.php", base + "/questions.php")
  }

  /** The exam kind can be read back from the base URL: two kinds never share a host. */
  lemma EndpointsDistinguishKinds(g1: string, g2: string)
    requires EndpointsFor(g1) == EndpointsFor(g2)
    ensures g1 == g2
  {
    var b1, b2 := EndpointsFor(g1).base, EndpointsFor(g2).base;
    assert |b1| == |b2|;
    assert g1 == b1[8..|b1| - 13];
    assert g2 == b2[8..|b2| - 13];
  }

  /** A query value: `urlencode` prints integers in decimal and strings as they are. */
  datatype ParamValue = IntParam(n: int) | StrParam(s: string)

  /** The query of `_get_subject_problems_html`; `theme` is the comma-join of the ids,
      or empty when no ids are given (None and [] are both falsy). */
  function ListingParams(rev: Revision, subjectHash: string, themeIds: seq<string>): (r: seq<(string, ParamValue)>)
    ensures |r| == 4
    ensures r[0] == ("search", IntParam(1)) && r[1] == ("pagesize", IntParam(PageSizeLimit(rev)))
    ensures r[2] == ("proj", StrParam(subjectHash)) && r[3].0 == "theme" && r[3].1.StrParam?
  {
    [ ("search", IntParam(1)),
      ("pagesize", IntParam(PageSizeLimit(rev))),
      ("proj", StrParam(subjectHash)),
      ("theme", StrParam(if themeIds != [] then Join(',', themeIds) else "")) ]
  }

  /** The `theme` value names exactly the requested codifier ids: splitting it at commas
      gives them back, provided none contains a comma; with no ids it is empty. */
  lemma ListingThemeNamesIds(rev: Revision, subjectHash: string, themeIds: seq<string>)
    requires forall i :: 0 <= i < |themeIds| ==> ',' !in themeIds[i]
    ensures themeIds == [] ==> ListingParams(rev, subjectHash, themeIds)[3].1.s == ""
    ensures themeIds != [] ==> Split(',', ListingParams(rev, subjectHash, themeIds)[3].1.s) == themeIds
  {
    if themeIds != [] {
      SplitJoin(',', themeIds);
    }
  }
}
