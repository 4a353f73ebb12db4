/** How the app marks a quiz: question i is right when the option text
    selected for it is truthy (non-empty) and equal to the question's answer. */
module Scoring {
  import opened Wire

  /** Selections so far: question index to the text of the chosen option. */
  type Selections = map<nat, string>

  predicate Correct(sel: Selections, i: nat, q: Question) {
    i in sel && sel[i] != "" && sel[i] == q.answer
  }

  /** The number of correctly answered questions, counted front to back. */
  function Score(quiz: seq<Question>, sel: Selections): (s: nat)
    ensures s <= |quiz|
  {
    if quiz == [] then 0
    else
      var n := |quiz| - 1;
      Score(quiz[..n], sel) + (if Correct(sel, n, quiz[n]) then 1 else 0)
  }

  /** 1 when question k exists and is answered correctly under `sel`, else 0. */
  function Hit(quiz: seq<Question>, sel: Selections, k: nat): nat {
    if k < |quiz| && Correct(sel, k, quiz[k]) then 1 else 0
  }

  /** The score is the size of the set of correctly answered indices;
      an unanswered question or an empty selection is never in that set. */
  lemma {:induction false} ScoreCountsCorrect(quiz: seq<Question>, sel: Selections)
    ensures Score(quiz, sel) ==
      |set i: nat | i < |quiz| && i in sel && sel[i] != "" && sel[i] == quiz[i].answer|
  {
    if quiz != [] {
      var n := |quiz| - 1;
      var front := quiz[..n];
      ScoreCountsCorrect(front, sel);
      var before := set i: nat | i < |front| && i in sel && sel[i] != "" && sel[i] == front[i].answer;
      var after := set i: nat | i < |quiz| && i in sel && sel[i] != "" && sel[i] == quiz[i].answer;
      if Correct(sel, n, quiz[n]) {
        assert after == before + {n};
        assert n !in before;
      } else {
        assert after == before;
      }
    }
  }

  /** With nothing selected the score is 0. */
  lemma {:induction false} ScoreWithoutSelections(quiz: seq<Question>)
    ensures Score(quiz, map[]) == 0
  {
    if quiz != [] {
      ScoreWithoutSelections(quiz[..|quiz| - 1]);
    }
  }

  /** Selecting every (non-empty) answer gives full marks. */
  lemma {:induction false} ScoreAllCorrect(quiz: seq<Question>, sel: Selections)
    requires forall i: nat :: i < |quiz| ==> i in sel && sel[i] == quiz[i].answer && quiz[i].answer != ""
    ensures Score(quiz, sel) == |quiz|
  {
    if quiz != [] {
      var n := |quiz| - 1;
      ScoreAllCorrect(quiz[..n], sel);
    }
  }

  /** Changing the selection for question k changes the score only through
      question k: every other question is marked as before. */
  lemma {:induction false} ScoreAfterSelect(quiz: seq<Question>, sel: Selections, k: nat, option: string)
    ensures Score(quiz, sel[k := option]) + Hit(quiz, sel, k) == Score(quiz, sel) + Hit(quiz, sel[k := option], k)
  {
    if quiz != [] {
      var n := |quiz| - 1;
      ScoreAfterSelect(quiz[..n], sel, k, option);
    }
  }

  /** The marking loop of the submit handler: one pass over the quiz in order. */
  method CountScore(quiz: seq<Question>, sel: Selections) returns (score: nat)
    ensures score == Score(quiz, sel)
  {
    score := 0;
    var i := 0;
    while i < |quiz|
      invariant 0 <= i <= |quiz|
      invariant score == Score(quiz[..i], sel)
    {
      if i in sel && sel[i] != "" && sel[i] == quiz[i].answer {
        score := score + 1;
      }
      assert quiz[..i + 1][..i] == quiz[..i];
      i := i + 1;
    }
    assert quiz[..i] == quiz;
  }
}
