/** Exam specifiers: for each exam number, the codifier ids of the content elements and of
    the requirements the problem checks. The informatics specifier of 2024 is built at
    import time from two parallel id lists, each entry a single id or a list of ids. */
module Specifiers {
  import opened Wrappers

  /** A value of the id lists: a string, a list of strings, or (ill-typed) anything else. */
  datatype CodifierEntry = Str(s: string) | StrList(xs: seq<string>) | OtherType

  datatype Problem = Problem(examNumber: int, contentIds: seq<string>, requirementIds: seq<string>)

  datatype BaseSpecifier = BaseSpecifier(giaType: string, subjectName: string, yearOfPublication: int, problems: seq<Problem>)

  /** `_to_list`: a string becomes a one-element list, a list is returned as it is, and any
      other value raises. */
  function ToList(v: CodifierEntry): (r: Result<seq<string>, Raised>)
    ensures v.Str? ==> r == Success([v.s])
    ensures v.StrList? ==> r == Success(v.xs)
    ensures v.OtherType? ==> r == Failure(NotStrOrList)
  {
    match v
    case Str(s) => Success([s])
    case StrList(xs) => Success(xs)
    case OtherType => Failure(NotStrOrList)
  }

  /** `_format_list`: `_to_list` of every entry, in order; the comprehension raises at the
      first entry of another type. */
  function FormatList(ids: seq<CodifierEntry>): (r: Result<seq<seq<string>>, Raised>)
    ensures r.Failure? <==> exists i :: 0 <= i < |ids| && ids[i].OtherType?
    ensures r.Success? ==> |r.value| == |ids| && forall i :: 0 <= i < |ids| ==> ToList(ids[i]) == Success(r.value[i])
  {
    if exists i :: 0 <= i < |ids| && ids[i].OtherType? then Failure(NotStrOrList)
    else Success(seq(|ids|, i requires 0 <= i < |ids| => ToList(ids[i]).value))
  }

  /** `range(lo, hi)`. */
  function Range(lo: int, hi: int): (r: seq<int>)
    ensures |r| == if hi <= lo then 0 else hi - lo
    ensures forall i :: 0 <= i < |r| ==> r[i] == lo + i
  {
    if hi <= lo then [] else seq(hi - lo, i => lo + i)
  }

  function Min3(a: nat, b: nat, c: nat): nat {
    if a <= b && a <= c then a else if b <= c then b else c
  }

  /** The comprehension over `zip(numbers, contents, requirements)`: one problem per
      position, stopping at the end of the shortest input. */
  function ZipProblems(numbers: seq<int>, contents: seq<seq<string>>, requirements: seq<seq<string>>): (r: seq<Problem>)
    ensures |r| <= |numbers| && |r| <= |contents| && |r| <= |requirements|
    ensures |r| == |numbers| || |r| == |contents| || |r| == |requirements|
    ensures forall i :: 0 <= i < |r| ==> r[i] == Problem(numbers[i], contents[i], requirements[i])
  {
    var n := Min3(|numbers|, |contents|, |requirements|);
    seq(n, i requires 0 <= i < n => Problem(numbers[i], contents[i], requirements[i]))
  }

  /** `informatics_content_codifier_theme_ids`. */
  const InformaticsContentIds: seq<CodifierEntry> := [
    Str("2.10"), Str("2.7"), Str("4.5"), Str("2.1"), Str("3.3"), Str("3.3"), Str("2.6"),
    Str("2.2"), Str("4.2"), Str("4.6"), Str("2.2"), Str("3.3"), Str("1.2"), Str("2.3"),
    Str("2.7"), Str("3.7"), Str("3.10"), Str("4.5"), Str("2.15"), Str("2.15"), Str("2.15"),
    Str("1.1"), Str("3.3"), Str("3.9"), Str("3.4"), Str("3.10"), StrList(["3.2", "3.16"])
  ]

  /** `informatics_requirement_codifier_theme_ids`. */
  const InformaticsRequirementIds: seq<CodifierEntry> := [
    Str("2.1"), Str("2.6"), Str("1.6"), Str("2.4"), Str("2.9"), Str("2.9"), Str("2.3"),
    Str("1.3"), Str("2.13"), Str("1.1"), Str("2.3"), Str("1.4"), Str("1.2"), Str("2.5"),
    Str("2.6"), Str("1.8"), Str("2.12"), Str("2.13"), Str("2.1"), Str("2.1"), Str("2.1"),
    Str("1.1"), Str("2.11"), Str("2.11"), Str("2.12"), Str("2.12"), Str("2.10")
  ]

  /** `informatics_specifier_2024`, or the error evaluating it would raise. */
  function InformaticsSpecifier2024(): Result<BaseSpecifier, Raised> {
    var contents :- FormatList(InformaticsContentIds);
    var requirements :- FormatList(InformaticsRequirementIds);
    Success(BaseSpecifier("ege", "Информатика и ИКТ", 2024,
                          ZipProblems(Range(1, 27 + 1), contents, requirements)))
  }

  /** The specifier builds without error and lists the 27 exam numbers in order, each with
      the k-th entry of each id list made into a list. */
  lemma InformaticsSpecifier2024Shape()
    ensures InformaticsSpecifier2024().Success?
    ensures var problems := InformaticsSpecifier2024().value.problems;
            |problems| == 27
            && (forall k :: 0 <= k < 27 ==> problems[k].examNumber == k + 1)
            && (forall k :: 0 <= k < 27 ==>
                  ToList(InformaticsContentIds[k]) == Success(problems[k].contentIds)
                  && ToList(InformaticsRequirementIds[k]) == Success(problems[k].requirementIds))
  {
    assert !exists i :: 0 <= i < |InformaticsContentIds| && InformaticsContentIds[i].OtherType?;
    assert !exists i :: 0 <= i < |InformaticsRequirementIds| && InformaticsRequirementIds[i].OtherType?;
  }

  /** Exam 27, the one entry given as a list, checks content elements 3.2 and 3.16 and
      requirement 2.10. */
  lemma InformaticsExam27()
    ensures InformaticsSpecifier2024().Success?
    ensures InformaticsSpecifier2024().value.problems[26]
            == Problem(27, ["3.2", "3.16"], ["2.10"])
  {
    InformaticsSpecifier2024Shape();
  }
}
