/** The resume-writing score: five section markers looked up in the raw
    resume text, each worth 20 points. */
module Scorer {
  import opened Text

  /** The five checks, in the order the analyser makes them. */
  datatype Check = Objective | Declaration | HobbiesOrInterests | Achievements | Projects

  const Checklist: seq<Check> := [Objective, Declaration, HobbiesOrInterests, Achievements, Projects]

  const PointsPerCheck: nat := 20

  /** Whether the text passes a check: an exact, case-sensitive substring
      test; only the hobbies check accepts either of two literals. */
  predicate Passes(c: Check, text: string) {
    match c
    case Objective => Contains(text, "Objective")
    case Declaration => Contains(text, "Declaration")
    case HobbiesOrInterests => Contains(text, "Hobbies") || Contains(text, "Interests")
    case Achievements => Contains(text, "Achievements")
    case Projects => Contains(text, "Projects")
  }

  /** What one check earns: all of its points or none. */
  function Points(c: Check, text: string): nat {
    if Passes(c, text) then PointsPerCheck else 0
  }

  /** The points a list of checks earns together. */
  function Total(cs: seq<Check>, text: string): (r: nat)
    ensures r % PointsPerCheck == 0 && r <= PointsPerCheck * |cs|
    ensures r == PointsPerCheck * |cs| <==> forall i :: 0 <= i < |cs| ==> Passes(cs[i], text)
    ensures r == 0 <==> forall i :: 0 <= i < |cs| ==> !Passes(cs[i], text)
  {
    if cs == [] then 0
    else
      var rest := Total(cs[1..], text);
      assert forall i :: 1 <= i < |cs| ==> cs[i] == cs[1..][i - 1];
      Points(cs[0], text) + rest
  }

  /** The resume score: a multiple of 20 from 0 to 100; 100 exactly when all
      five markers are present, 0 exactly when none is. */
  function ResumeScore(text: string): (score: nat)
    ensures score % 20 == 0 && score <= 100
    ensures score == 100 <==>
      Contains(text, "Objective") && Contains(text, "Declaration") &&
      (Contains(text, "Hobbies") || Contains(text, "Interests")) &&
      Contains(text, "Achievements") && Contains(text, "Projects")
    ensures score == 0 <==>
      !Contains(text, "Objective") && !Contains(text, "Declaration") &&
      !Contains(text, "Hobbies") && !Contains(text, "Interests") &&
      !Contains(text, "Achievements") && !Contains(text, "Projects")
  {
    ScoreIsSumOfChecks(text);
    Total(Checklist, text)
  }

  /** The score is the sum of what the five checks earn, one by one. */
  lemma ScoreIsSumOfChecks(text: string)
    ensures Total(Checklist, text) ==
      Points(Objective, text) + Points(Declaration, text) + Points(HobbiesOrInterests, text) +
      Points(Achievements, text) + Points(Projects, text)
  {
    var c4 := [Projects];
    var c3 := [Achievements] + c4;
    var c2 := [HobbiesOrInterests] + c3;
    var c1 := [Declaration] + c2;
    var c0 := [Objective] + c1;
    assert c4[1..] == [] && c3[1..] == c4 && c2[1..] == c3 && c1[1..] == c2 && c0[1..] == c1;
    assert Total(c4, text) == Points(Projects, text) + Total([], text);
    assert Total(c3, text) == Points(Achievements, text) + Total(c4, text);
    assert Total(c2, text) == Points(HobbiesOrInterests, text) + Total(c3, text);
    assert Total(c1, text) == Points(Declaration, text) + Total(c2, text);
    assert Total(c0, text) == Points(Objective, text) + Total(c1, text);
    assert c0 == Checklist;
  }

  /** The score block as the analyser runs it: start at zero and add 20 for
      every check the text passes, one check after the other. */
  method ScoreResume(text: string) returns (score: nat)
    ensures score == ResumeScore(text)
  {
    score := 0;
    if Contains(text, "Objective") {
      score := score + 20;
    }
    if Contains(text, "Declaration") {
      score := score + 20;
    }
    if Contains(text, "Hobbies") || Contains(text, "Interests") {
      score := score + 20;
    }
    if Contains(text, "Achievements") {
      score := score + 20;
    }
    if Contains(text, "Projects") {
      score := score + 20;
    }
    ScoreIsSumOfChecks(text);
  }

  /** The total does not depend on the order the checks are made in. */
  lemma {:induction false} TotalPermutation(a: seq<Check>, b: seq<Check>, text: string)
    requires multiset(a) == multiset(b)
    ensures Total(a, text) == Total(b, text)
    decreases |a|
  {
    if a == [] {
      assert |b| == |multiset(b)| == 0;
    } else {
      var x := a[0];
      var j := MatchHead(a, b);
      var rest := b[..j] + b[j + 1..];
      assert b == b[..j] + ([x] + b[j + 1..]);
      TotalPermutation(a[1..], rest, text);
      TotalAppend(b[..j], [x] + b[j + 1..], text);
      TotalAppend(b[..j], b[j + 1..], text);
      assert ([x] + b[j + 1..])[1..] == b[j + 1..];
    }
  }

  /** When `b` is a permutation of a non-empty `a`, the head of `a` sits at
      some position `j` of `b`, and the rest of `a` is a permutation of `b`
      with position `j` taken out. */
  lemma MatchHead<T>(a: seq<T>, b: seq<T>) returns (j: nat)
    requires a != [] && multiset(a) == multiset(b)
    ensures j < |b| && b[j] == a[0]
    ensures multiset(a[1..]) == multiset(b[..j] + b[j + 1..])
  {
    assert a[0] in multiset(b);
    j :| 0 <= j < |b| && b[j] == a[0];
    assert a == [a[0]] + a[1..];
    assert b == b[..j] + [b[j]] + b[j + 1..];
    assert multiset(b) == multiset(b[..j]) + multiset{b[j]} + multiset(b[j + 1..]);
    assert multiset(b[..j] + b[j + 1..]) == multiset(b[..j]) + multiset(b[j + 1..]);
    assert multiset(a) == multiset{a[0]} + multiset(a[1..]);
    var rest := b[..j] + b[j + 1..];
    forall v ensures multiset(a[1..])[v] == multiset(rest)[v] {
      assert multiset(a)[v] == multiset(b)[v];
    }
  }

  /** The total of two lists of checks made one after the other is the sum of their totals. */
  lemma {:induction false} TotalAppend(a: seq<Check>, b: seq<Check>, text: string)
    ensures Total(a + b, text) == Total(a, text) + Total(b, text)
    decreases |a|
  {
    if a == [] {
      assert a + b == b;
    } else {
      assert (a + b)[1..] == a[1..] + b;
      TotalAppend(a[1..], b, text);
    }
  }

  /** Case sensitivity: every marker starts with a capital, so a text written
      entirely without capitals scores nothing. */
  lemma LowerCaseTextScoresZero(text: string)
    requires NoUpper(text)
    ensures ResumeScore(text) == 0
  {
    forall p | p in ["Objective", "Declaration", "Hobbies", "Interests", "Achievements", "Projects"]
      ensures !Contains(text, p)
    {
      if Contains(text, p) {
        ContainsFirstChar(text, p);
        assert IsUpper(p[0]);
      }
    }
  }

  /** "objective" written in lower case does not earn the Objective points. */
  lemma LowerCaseObjectiveEarnsNothing()
    ensures ResumeScore("objective") == 0
  {
    LowerCaseTextScoresZero("objective");
  }

  /** "Objective" with its capital earns exactly the Objective points. */
  lemma CapitalObjectiveEarnsTwenty()
    ensures ResumeScore("Objective") == 20
  {
    var t := "Objective";
    assert Points(Objective, t) == 20 by {
      assert Contains(t, "Objective") by { assert "Objective" <= t; }
    }
    assert Points(HobbiesOrInterests, t) == 0 by {
      Absent(t, "Hobbies");
      Absent(t, "Interests");
    }
    assert Points(Declaration, t) + Points(Achievements, t) + Points(Projects, t) == 0 by {
      Absent(t, "Declaration");
      Absent(t, "Achievements");
      Absent(t, "Projects");
    }
    ScoreIsSumOfChecks(t);
  }

  /** Hobbies and Interests together earn 20 points, not 40. */
  lemma HobbiesAndInterestsShareOneCheck()
    ensures ResumeScore("Hobbies Interests") == 20
  {
    var t := "Hobbies Interests";
    assert Points(HobbiesOrInterests, t) == 20 by {
      assert Contains(t, "Hobbies") by { assert "Hobbies" <= t; }
    }
    SingleMarkerChecksFail(t);
    ScoreIsSumOfChecks(t);
  }

  /** The four single-marker checks fail on a text lacking their first letters. */
  lemma SingleMarkerChecksFail(text: string)
    requires 'O' !in text && 'D' !in text && 'A' !in text && 'P' !in text
    ensures Points(Objective, text) + Points(Declaration, text) + Points(Achievements, text) + Points(Projects, text) == 0
  {
    Absent(text, "Objective");
    Absent(text, "Declaration");
    Absent(text, "Achievements");
    Absent(text, "Projects");
  }

  /** A marker whose first letter is missing from the text is not found in it. */
  lemma Absent(text: string, marker: string)
    requires |marker| > 0 && marker[0] !in text
    ensures !Contains(text, marker)
  {
    if Contains(text, marker) {
      ContainsFirstChar(text, marker);
    }
  }
}
