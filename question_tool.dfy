/** The question queue through which agents ask the user for a decision
    (src/tools/question_tool.py): questions are numbered in arrival order,
    the oldest unanswered one becomes the current question, and answering it
    frees the slot for the next. */
module QuestionTool {
  import opened Common

  /** An agent's question. `answered` and `answer` are the two fields the
      manager updates in place. */
  datatype Question = Question(
    agentName: string,
    category: string,
    content: string,
    answered: bool,
    answer: string,
    number: nat)

  /** One entry of `get_all_answers`. */
  datatype AnswerRecord = AnswerRecord(
    number: nat,
    agent: string,
    category: string,
    question: string,
    answer: string)

  /** Position of the first unanswered question (`unanswered[0]` of the
      comprehension), if any. */
  function FirstUnanswered(queue: seq<Question>): (r: Option<nat>)
    ensures r.Some? ==> r.value < |queue| && !queue[r.value].answered
    ensures r.Some? ==> forall k :: 0 <= k < r.value ==> queue[k].answered
    ensures r.None? ==> forall k :: 0 <= k < |queue| ==> queue[k].answered
  {
    if queue == [] then None
    else if !queue[0].answered then Some(0)
    else match FirstUnanswered(queue[1..])
      case None => None
      case Some(i) => Some(i + 1)
  }

  function Record(q: Question): AnswerRecord
  {
    AnswerRecord(q.number, q.agentName, q.category, q.content, q.answer)
  }

  /** The answered questions of the queue, in queue order, as records. */
  function Answers(queue: seq<Question>): (r: seq<AnswerRecord>)
    ensures |r| <= |queue|
  {
    if queue == [] then []
    else (if queue[0].answered then [Record(queue[0])] else []) + Answers(queue[1..])
  }

  /** A record is returned exactly when its question is answered and
      queued. */
  lemma {:induction false} AnswersAreAnswered(queue: seq<Question>, a: AnswerRecord)
    ensures a in Answers(queue) <==> exists k :: 0 <= k < |queue| && queue[k].answered && Record(queue[k]) == a
  {
    if queue != [] {
      AnswersAreAnswered(queue[1..], a);
      if a in Answers(queue[1..]) {
        var k :| 0 <= k < |queue[1..]| && queue[1..][k].answered && Record(queue[1..][k]) == a;
        assert queue[k + 1] == queue[1..][k];
      }
      if exists k :: 0 <= k < |queue| && queue[k].answered && Record(queue[k]) == a {
        var k :| 0 <= k < |queue| && queue[k].answered && Record(queue[k]) == a;
        if k > 0 {
          assert queue[1..][k - 1] == queue[k];
        }
      }
    }
  }

  /** `a` is the record of an answered question of the queue. */
  predicate AnsweredRecord(queue: seq<Question>, a: AnswerRecord)
  {
    exists k :: 0 <= k < |queue| && queue[k].answered && Record(queue[k]) == a
  }

  /** Every answered question has its record among the answers, and every
      answer is the record of an answered question. */
  lemma AnswersExactly(queue: seq<Question>)
    ensures forall k :: 0 <= k < |queue| && queue[k].answered ==> Record(queue[k]) in Answers(queue)
    ensures forall i :: 0 <= i < |Answers(queue)| ==> AnsweredRecord(queue, Answers(queue)[i])
  {
    forall k | 0 <= k < |queue| && queue[k].answered
      ensures Record(queue[k]) in Answers(queue)
    {
      AnswersAreAnswered(queue, Record(queue[k]));
    }
    forall i | 0 <= i < |Answers(queue)|
      ensures AnsweredRecord(queue, Answers(queue)[i])
    {
      AnswersAreAnswered(queue, Answers(queue)[i]);
    }
  }

  lemma {:induction false} AnswersAppend(a: seq<Question>, b: seq<Question>)
    ensures Answers(a + b) == Answers(a) + Answers(b)
  {
    if a == [] {
      assert a + b == b;
    } else {
      var head := if a[0].answered then [Record(a[0])] else [];
      assert (a + b)[0] == a[0];
      assert (a + b)[1..] == a[1..] + b;
      AnswersAppend(a[1..], b);
      assert Answers(a + b) == head + (Answers(a[1..]) + Answers(b));
      assert Answers(a) == head + Answers(a[1..]);
    }
  }

  /** A new, unanswered question adds no answer. */
  lemma AnswersOfNewQuestion(queue: seq<Question>, q: Question)
    requires !q.answered
    ensures Answers(queue + [q]) == Answers(queue)
  {
    AnswersAppend(queue, [q]);
  }

  /** Answering the question at `i` inserts its record among the answers at
      its queue position, so the answer count grows by one. */
  lemma AnswersAfterAnswering(queue: seq<Question>, i: nat, answer: string)
    requires i < |queue| && !queue[i].answered
    ensures var q' := queue[i := queue[i].(answered := true, answer := answer)];
      Answers(q') == Answers(queue[..i]) + [Record(q'[i])] + Answers(queue[i + 1..])
      && |Answers(q')| == |Answers(queue)| + 1
  {
    var q' := queue[i := queue[i].(answered := true, answer := answer)];
    assert queue == queue[..i] + ([queue[i]] + queue[i + 1..]);
    assert q' == queue[..i] + ([q'[i]] + queue[i + 1..]);
    AnswersAppend(queue[..i], [queue[i]] + queue[i + 1..]);
    AnswersAppend(queue[..i], [q'[i]] + queue[i + 1..]);
    AnswersAppend([queue[i]], queue[i + 1..]);
    AnswersAppend([q'[i]], queue[i + 1..]);
  }

  /** `any(not q.answered for q in queue)`. */
  predicate HasUnanswered(queue: seq<Question>)
  {
    exists k :: 0 <= k < |queue| && !queue[k].answered
  }

  /** There is an unanswered question exactly when get_next_question has one
      to offer. */
  lemma HasUnansweredIffNext(queue: seq<Question>)
    ensures HasUnanswered(queue) <==> FirstUnanswered(queue).Some?
  {
    if FirstUnanswered(queue).Some? {
      assert !queue[FirstUnanswered(queue).value].answered;
    }
  }

  /** Two queues hold the same questions in the same order up to the length
      of the first: only `answered` and `answer` may differ. */
  predicate SameQuestions(before: seq<Question>, after: seq<Question>)
  {
    && |before| <= |after|
    && forall k :: 0 <= k < |before| ==>
      && after[k].agentName == before[k].agentName
      && after[k].category == before[k].category
      && after[k].content == before[k].content
      && after[k].number == before[k].number
  }

  class QuestionManager {
    var queue: seq<Question>
    /** Position in `queue` of the current question; the source holds the
        Question object itself, which is the queued one. */
    var current: Option<nat>
    var count: nat

    /** Questions are numbered 1, 2, … by position, and the current question
        is a queued unanswered one. */
    ghost predicate Valid()
      reads this
    {
      && count == |queue|
      && (forall k :: 0 <= k < |queue| ==> queue[k].number == k + 1)
      && (current.Some? ==> current.value < |queue| && !queue[current.value].answered)
    }

    constructor ()
      ensures Valid() && queue == [] && current == None && count == 0
    {
      queue := [];
      current := None;
      count := 0;
    }

    /** `add_question`: the next number, unanswered, at the end of the
        queue. */
    method AddQuestion(agentName: string, category: string, content: string)
      requires Valid()
      modifies this
      ensures Valid()
      ensures count == old(count) + 1
      ensures queue == old(queue) + [Question(agentName, category, content, false, "", count)]
      ensures current == old(current)
      ensures SameQuestions(old(queue), queue)
    {
      count := count + 1;
      queue := queue + [Question(agentName, category, content, false, "", count)];
    }

    /** `get_next_question`: an empty slot takes the first unanswered
        question; a filled slot is returned as it is. */
    method GetNextQuestion() returns (q: Option<Question>)
      requires Valid()
      modifies this
      ensures Valid()
      ensures queue == old(queue) && count == old(count)
      ensures old(current).Some? ==> current == old(current)
      ensures old(current).None? ==> current == FirstUnanswered(queue)
      ensures q.Some? <==> current.Some?
      ensures q.Some? ==> q.value == queue[current.value] && !q.value.answered
    {
      if current.None? {
        current := FirstUnanswered(queue);
      }
      q := if current.Some? then Some(queue[current.value]) else None;
    }

    /** `answer_current_question`: the current question is marked answered
        with the answer and the slot is cleared; without one nothing
        changes. */
    method AnswerCurrentQuestion(answer: string)
      requires Valid()
      modifies this
      ensures Valid()
      ensures count == old(count) && current == None
      ensures old(current).None? ==> queue == old(queue)
      ensures old(current).Some? ==>
        queue == old(queue)[old(current).value := old(queue)[old(current).value].(answered := true, answer := answer)]
      ensures SameQuestions(old(queue), queue)
    {
      if current.Some? {
        var i := current.value;
        queue := queue[i := queue[i].(answered := true, answer := answer)];
        current := None;
      }
    }

    /** `get_all_answers`. */
    /** `get_all_answers`: the record of every answered question, and
        nothing else. */
    function GetAllAnswers(): (r: seq<AnswerRecord>)
      reads this
      ensures |r| <= |queue|
      ensures forall k :: 0 <= k < |queue| && queue[k].answered ==> Record(queue[k]) in r
      ensures forall i :: 0 <= i < |r| ==> AnsweredRecord(queue, r[i])
    {
      AnswersExactly(queue);
      Answers(queue)
    }

    /** `has_unanswered_questions`. */
    predicate HasUnansweredQuestions()
      reads this
      ensures HasUnansweredQuestions() <==> FirstUnanswered(queue).Some?
    {
      HasUnansweredIffNext(queue);
      HasUnanswered(queue)
    }
  }

  /** Asking, answering and asking again: the answers hold the first
      question only, and the second is the next one offered. */
  lemma AskAnswerAsk(a: Question, b: Question, answer: string)
    requires a.number == 1 && b.number == 2 && !a.answered && !b.answered
    ensures var q := [a.(answered := true, answer := answer), b];
      && Answers(q) == [AnswerRecord(1, a.agentName, a.category, a.content, answer)]
      && FirstUnanswered(q) == Some(1)
  {
    var q := [a.(answered := true, answer := answer), b];
    assert q[1..] == [b];
    assert q[1..][1..] == [];
  }

  const Categories: seq<string> := ["LIBRARY", "ALGORITHM", "UI", "ARCHITECTURE", "OTHERS"]

  /** The category ask_question queues: a known one as given, anything else
      as "OTHERS". */
  function NormalizeCategory(category: string): (r: string)
    ensures r in Categories
    ensures category in Categories ==> r == category
    ensures category !in Categories ==> r == "OTHERS"
  {
    if category in Categories then category else "OTHERS"
  }

  class QuestionTool {
    const manager: QuestionManager

    constructor ()
      ensures fresh(manager) && manager.Valid() && manager.queue == [] && manager.current == None
    {
      manager := new QuestionManager();
    }

    /** `ask_question`: the question is queued under its normalised
        category. */
    method AskQuestion(agentName: string, category: string, content: string)
      requires manager.Valid()
      modifies manager
      ensures manager.Valid()
      ensures manager.queue == old(manager.queue)
        + [Question(agentName, NormalizeCategory(category), content, false, "", manager.count)]
      ensures manager.current == old(manager.current)
    {
      var c := category;
      if c !in Categories {
        c := "OTHERS";
      }
      manager.AddQuestion(agentName, c, content);
    }

    /** `get_answers`. */
    function GetAnswers(): (r: seq<AnswerRecord>)
      reads this, manager
      ensures |r| <= |manager.queue|
      ensures forall k :: 0 <= k < |manager.queue| && manager.queue[k].answered ==> Record(manager.queue[k]) in r
      ensures forall i :: 0 <= i < |r| ==> AnsweredRecord(manager.queue, r[i])
    {
      manager.GetAllAnswers()
    }
  }
}
