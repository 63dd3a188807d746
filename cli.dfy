/** The interactive subject choice of the command line: the user types 1-based numbers
    of the listed subjects; numbers outside the list are dropped without complaint,
    repeated numbers repeat the subject. Reading and parsing the numbers is left out:
    the rule starts from the parsed integers. */
module Cli {
  /** The comprehension keeping `subject_list[i]` for every `i = n - 1` with
      `0 <= i < len(subject_list)`, in the order the numbers were typed. */
  function SelectSubjects(subjectList: seq<string>, numbers: seq<int>): (r: seq<string>)
    ensures |r| <= |numbers|
    ensures forall x :: x in r ==> x in subjectList
  {
    if |numbers| == 0 then []
    else
      var init := SelectSubjects(subjectList, numbers[..|numbers| - 1]);
      var i := numbers[|numbers| - 1] - 1;
      if 0 <= i < |subjectList| then init + [subjectList[i]] else init
  }

  predicate InRange(subjectList: seq<string>, n: int) {
    1 <= n <= |subjectList|
  }

  /** When every number is in range, the k-th selected subject is the one listed under
      the k-th number. */
  lemma {:induction false} SelectAllInRange(subjectList: seq<string>, numbers: seq<int>)
    requires forall k :: 0 <= k < |numbers| ==> 1 <= numbers[k] <= |subjectList|
    ensures |SelectSubjects(subjectList, numbers)| == |numbers|
    ensures forall k :: 0 <= k < |numbers| ==>
              SelectSubjects(subjectList, numbers)[k] == subjectList[numbers[k] - 1]
  {
    if |numbers| > 0 {
      SelectAllInRange(subjectList, numbers[..|numbers| - 1]);
    }
  }

  /** Numbers outside the list change nothing: dropping them gives the same selection. */
  lemma {:induction false} SelectIgnoresOutOfRange(subjectList: seq<string>, numbers: seq<int>, n: int, rest: seq<int>)
    requires !InRange(subjectList, n)
    ensures SelectSubjects(subjectList, numbers + [n] + rest) == SelectSubjects(subjectList, numbers + rest)
  {
    if |rest| == 0 {
      assert numbers + [n] + rest == numbers + [n];
      assert numbers + rest == numbers;
      assert (numbers + [n])[..|numbers|] == numbers;
    } else {
      var rest' := rest[..|rest| - 1];
      SelectIgnoresOutOfRange(subjectList, numbers, n, rest');
      assert (numbers + [n] + rest)[..|numbers + [n] + rest| - 1] == numbers + [n] + rest';
      assert (numbers + rest)[..|numbers + rest| - 1] == numbers + rest';
    }
  }

  /** A subject is selected exactly when some typed number names it. */
  lemma {:induction false} SelectMembership(subjectList: seq<string>, numbers: seq<int>, x: string)
    ensures x in SelectSubjects(subjectList, numbers) <==>
            exists k :: 0 <= k < |numbers| && InRange(subjectList, numbers[k]) && subjectList[numbers[k] - 1] == x
  {
    if |numbers| > 0 {
      var init := numbers[..|numbers| - 1];
      SelectMembership(subjectList, init, x);
      if exists k :: 0 <= k < |init| && InRange(subjectList, init[k]) && subjectList[init[k] - 1] == x {
        var k :| 0 <= k < |init| && InRange(subjectList, init[k]) && subjectList[init[k] - 1] == x;
        assert numbers[k] == init[k];
      }
      if exists k :: 0 <= k < |numbers| && InRange(subjectList, numbers[k]) && subjectList[numbers[k] - 1] == x {
        var k :| 0 <= k < |numbers| && InRange(subjectList, numbers[k]) && subjectList[numbers[k] - 1] == x;
        if k < |init| { assert init[k] == numbers[k]; }
      }
    }
  }

  /** Typing the same number twice selects that subject twice. */
  lemma SelectRepeats(subjectList: seq<string>, numbers: seq<int>)
    requires |numbers| == 2 && numbers[0] == numbers[1] && InRange(subjectList, numbers[0])
    ensures SelectSubjects(subjectList, numbers) == [subjectList[numbers[0] - 1], subjectList[numbers[0] - 1]]
  {
    SelectAllInRange(subjectList, numbers);
  }
}
