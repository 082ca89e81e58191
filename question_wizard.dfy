/** The question wizard (client/src/components/question-wizard.tsx): the
    list of questions visible for the answers so far, and the component's
    state with its three handlers. */
module QuestionWizard {
  import opened Answers
  import opened QuestionsData

  /** `qs.filter(q => !q.showWhen || q.showWhen(a))` */
  function Relevant(qs: seq<Question>, a: Answer): (rel: seq<Question>)
    ensures |rel| <= |qs|
    decreases |qs|
  {
    if |qs| == 0 then []
    else Relevant(qs[..|qs| - 1], a) + (if Shown(qs[|qs| - 1], a) then [qs[|qs| - 1]] else [])
  }

  /** A question is visible exactly when it is in the catalog and shown. */
  lemma {:induction false} RelevantMembers(qs: seq<Question>, a: Answer, q: Question)
    ensures q in Relevant(qs, a) <==> q in qs && Shown(q, a)
    decreases |qs|
  {
    if |qs| > 0 {
      var init := qs[..|qs| - 1];
      assert qs == init + [qs[|qs| - 1]];
      RelevantMembers(init, a, q);
    }
  }

  /** The questions visible for a prefix of the catalog come first, in the
      same order. */
  lemma {:induction false} RelevantPrefix(qs: seq<Question>, a: Answer, m: nat)
    requires m <= |qs|
    ensures |Relevant(qs[..m], a)| <= |Relevant(qs, a)|
    ensures Relevant(qs, a)[..|Relevant(qs[..m], a)|] == Relevant(qs[..m], a)
    decreases |qs|
  {
    if m == |qs| {
      assert qs[..m] == qs;
    } else {
      var init := qs[..|qs| - 1];
      assert init[..m] == qs[..m];
      RelevantPrefix(init, a, m);
    }
  }

  /** Where a visible question sits in the catalog: the question at
      position `c` of the visible list is the catalog's question `k`, and
      exactly `c` visible questions come before it. */
  lemma {:induction false} RelevantSource(qs: seq<Question>, a: Answer, c: nat) returns (k: nat)
    requires c < |Relevant(qs, a)|
    ensures k < |qs| && qs[k] == Relevant(qs, a)[c]
    ensures |Relevant(qs[..k], a)| == c && |Relevant(qs[..k + 1], a)| == c + 1
    decreases |qs|
  {
    var init := qs[..|qs| - 1];
    if c < |Relevant(init, a)| {
      k := RelevantSource(init, a, c);
      assert init[..k] == qs[..k] && init[..k + 1] == qs[..k + 1];
    } else {
      k := |qs| - 1;
      assert qs[..k] == init && qs[..k + 1] == qs;
    }
  }

  /** The visible list keeps the catalog's order. */
  lemma RelevantInOrder(qs: seq<Question>, a: Answer, c1: nat, c2: nat) returns (k1: nat, k2: nat)
    requires c1 < c2 < |Relevant(qs, a)|
    ensures k1 < k2 < |qs|
    ensures qs[k1] == Relevant(qs, a)[c1] && qs[k2] == Relevant(qs, a)[c2]
  {
    k1 := RelevantSource(qs, a, c1);
    k2 := RelevantSource(qs, a, c2);
    if k2 <= k1 {
      assert qs[..k1 + 1][..k2 + 1] == qs[..k2 + 1];
      RelevantPrefix(qs[..k1 + 1], a, k2 + 1);
    }
  }

  /** Answer maps that agree on every question's visibility see the same list. */
  lemma {:induction false} RelevantUnchanged(qs: seq<Question>, a: Answer, b: Answer)
    requires forall i :: 0 <= i < |qs| ==> Shown(qs[i], a) == Shown(qs[i], b)
    ensures Relevant(qs, a) == Relevant(qs, b)
    decreases |qs|
  {
    if |qs| > 0 {
      RelevantUnchanged(qs[..|qs| - 1], a, b);
    }
  }

  /** Answering the visible question at position `c` leaves it and every
      visible question before it in place, so position `c` stays inside
      the visible list. */
  lemma AnsweringKeepsEarlierQuestions(qs: seq<Question>, a: Answer, c: nat, v: string)
    requires LooksBackOnly(qs) && c < |Relevant(qs, a)|
    ensures c < |Relevant(qs, a[Relevant(qs, a)[c].id := v])|
    ensures Relevant(qs, a[Relevant(qs, a)[c].id := v])[..c + 1] == Relevant(qs, a)[..c + 1]
  {
    var key := Relevant(qs, a)[c].id;
    var b := a[key := v];
    var k := RelevantSource(qs, a, c);
    var head := qs[..k + 1];
    forall i | 0 <= i < |head|
      ensures Shown(head[i], a) == Shown(head[i], b)
    {
      ShownFrame(head[i], a, key, v);
    }
    RelevantUnchanged(head, a, b);
    RelevantPrefix(qs, a, k + 1);
    RelevantPrefix(qs, b, k + 1);
  }

  /** The catalog's first question has no predicate, so the visible list
      is never empty and starts with it. */
  lemma RelevantStartsWithProcedure(a: Answer)
    ensures |Relevant(QUESTIONS, a)| >= 1 && Relevant(QUESTIONS, a)[0] == ProcedureQuestion
  {
    ProcedureAlwaysShown(a);
    RelevantPrefix(QUESTIONS, a, 1);
    assert QUESTIONS[..1] == [ProcedureQuestion];
    assert Relevant([ProcedureQuestion], a) == [ProcedureQuestion] by {
      assert [ProcedureQuestion][..0] == [];
    }
  }

  /** The wizard's state: the position in the visible list, the answers so
      far and the option shown as selected. */
  class Wizard {
    var currentQuestion: int
    var answers: Answer
    var selectedOption: string

    /** The position always names a visible question. */
    predicate Valid()
      reads this
    {
      0 <= currentQuestion < |Relevant(QUESTIONS, answers)|
    }

    /** `relevantQuestions[currentQuestion]`: a catalog question whose
        rule holds for the answers so far. */
    function CurrentQuestion(): (q: Question)
      reads this
      requires Valid()
      ensures q in QUESTIONS && Shown(q, answers)
    {
      var q := Relevant(QUESTIONS, answers)[currentQuestion];
      RelevantMembers(QUESTIONS, answers, q);
      q
    }

    /** The initial state (question-wizard.tsx:13-15). */
    constructor ()
      ensures currentQuestion == 0 && answers == map[] && selectedOption == ""
      ensures Valid()
    {
      currentQuestion := 0;
      answers := map[];
      selectedOption := "";
      new;
      RelevantStartsWithProcedure(map[]);
    }

    /** handleOptionSelect (question-wizard.tsx:26-46), with the body of
        the delayed step run at once; `completed` carries the argument of
        `onComplete`. */
    method OptionSelect(value: string) returns (completed: Option<Answer>)
      requires Valid()
      modifies this
      ensures Valid()
      ensures answers == old(answers)[old(CurrentQuestion()).id := value]
      ensures old(currentQuestion) < |Relevant(QUESTIONS, answers)|
      ensures Relevant(QUESTIONS, answers)[..old(currentQuestion) + 1]
              == old(Relevant(QUESTIONS, answers))[..old(currentQuestion) + 1]
      ensures old(currentQuestion) < |Relevant(QUESTIONS, answers)| - 1 ==>
        currentQuestion == old(currentQuestion) + 1 && completed.None?
        && selectedOption == ValueOrEmpty(answers, CurrentQuestion().id)
      ensures old(currentQuestion) >= |Relevant(QUESTIONS, answers)| - 1 ==>
        currentQuestion == old(currentQuestion) && completed == Some(answers)
        && selectedOption == value
    {
      selectedOption := value;
      var newAnswers := answers[CurrentQuestion().id := value];
      AnsweringKeepsEarlierQuestions(QUESTIONS, answers, currentQuestion, value);
      QuestionsLookBackOnly();
      answers := newAnswers;
      var updatedRelevantQuestions := Relevant(QUESTIONS, newAnswers);
      if currentQuestion < |updatedRelevantQuestions| - 1 {
        currentQuestion := currentQuestion + 1;
        var nextQuestion := updatedRelevantQuestions[currentQuestion];
        selectedOption := ValueOrEmpty(newAnswers, nextQuestion.id);
        completed := None;
      } else {
        completed := Some(newAnswers);
      }
    }

    /** handleNext (question-wizard.tsx:48-55): the same advance, with the
        answers left as they are. */
    method Next() returns (completed: Option<Answer>)
      requires Valid()
      modifies this
      ensures Valid() && answers == old(answers)
      ensures old(currentQuestion) < |Relevant(QUESTIONS, answers)| - 1 ==>
        currentQuestion == old(currentQuestion) + 1 && completed.None?
        && selectedOption == ValueOrEmpty(answers, CurrentQuestion().id)
      ensures old(currentQuestion) >= |Relevant(QUESTIONS, answers)| - 1 ==>
        currentQuestion == old(currentQuestion) && completed == Some(answers)
        && selectedOption == old(selectedOption)
    {
      var relevantQuestions := Relevant(QUESTIONS, answers);
      if currentQuestion < |relevantQuestions| - 1 {
        currentQuestion := currentQuestion + 1;
        selectedOption := ValueOrEmpty(answers, relevantQuestions[currentQuestion].id);
        completed := None;
      } else {
        completed := Some(answers);
      }
    }

    /** handlePrev (question-wizard.tsx:57-62): back one question, if any. */
    method Prev()
      requires Valid()
      modifies this
      ensures Valid() && answers == old(answers)
      ensures old(currentQuestion) > 0 ==>
        currentQuestion == old(currentQuestion) - 1
        && selectedOption == ValueOrEmpty(answers, CurrentQuestion().id)
      ensures old(currentQuestion) == 0 ==>
        currentQuestion == 0 && selectedOption == old(selectedOption)
    {
      var relevantQuestions := Relevant(QUESTIONS, answers);
      if currentQuestion > 0 {
        currentQuestion := currentQuestion - 1;
        selectedOption := ValueOrEmpty(answers, relevantQuestions[currentQuestion].id);
      }
    }
  }
}
