/** The Preparation run: bounded rounds of analysis and clarification, then the
    brief that freezes the requirements with the answers. Answer Updates arrive
    wherever the run blocks. */
module Preparation {
  import opened Wrappers

  type Time = int

  datatype Question = Question(id: string, text: string)

  /** A tool call of the model: Submit with the requirements if they are in bounds,
      Ask with the questions if they decode. */
  datatype ToolCall = Submit(requirements: Option<nat>) | Ask(decoded: Option<seq<Question>>) | Other

  datatype Analysis =
    | UnknownCall
    | FailedCall
    | ContentInvalid
    | Requirements(requirements: nat)
    | Questions(questions: seq<Question>)

  predicate Bounded(qs: seq<Question>, max: nat) {
    && 1 <= |qs| <= max
    && (forall i :: 0 <= i < |qs| ==> qs[i].id != "" && qs[i].text != "" && |qs[i].text| <= 2000)
    && (forall i, j :: 0 <= i < j < |qs| ==> qs[i].id != qs[j].id)
  }

  /** Distinct bounded questions within the allowed number. */
  method ParseQuestions(qs: seq<Question>, max: nat) returns (ok: bool)
    ensures ok <==> Bounded(qs, max)
  {
    if |qs| == 0 || |qs| > max {
      return false;
    }
    var seen: set<string> := {};
    var i := 0;
    while i < |qs|
      invariant i <= |qs|
      invariant forall k :: 0 <= k < i ==> qs[k].id != "" && qs[k].text != "" && |qs[k].text| <= 2000
      invariant forall x :: x in seen <==> exists k :: 0 <= k < i && qs[k].id == x
      invariant forall k, l :: 0 <= k < l < i ==> qs[k].id != qs[l].id
    {
      if qs[i].id == "" || qs[i].text == "" || |qs[i].text| > 2000 || qs[i].id in seen {
        return false;
      }
      seen := seen + {qs[i].id};
      i := i + 1;
    }
    return true;
  }

  /** The first call of a known tool decides. */
  ghost predicate First(calls: seq<ToolCall>, i: nat) {
    i < |calls| && !calls[i].Other? && forall k :: 0 <= k < i ==> calls[k].Other?
  }

  /** Classifies an answered call. A must-conclude analysis never asks. */
  method Classify(calls: seq<ToolCall>, mustConclude: bool, max: nat) returns (a: Analysis)
    ensures a.Requirements? <==> exists i: nat :: First(calls, i) && calls[i].Submit? && calls[i].requirements.Some?
    ensures a.Questions? <==>
              !mustConclude && exists i: nat :: First(calls, i) && calls[i].Ask? && calls[i].decoded.Some? && Bounded(calls[i].decoded.value, max)
    ensures a.Requirements? ==> exists i: nat :: First(calls, i) && calls[i] == Submit(Some(a.requirements))
    ensures a.Questions? ==> exists i: nat :: First(calls, i) && calls[i] == Ask(Some(a.questions))
    ensures a.Questions? ==> Bounded(a.questions, max)
    ensures !a.Requirements? && !a.Questions? ==> a.ContentInvalid?
  {
    var i := 0;
    while i < |calls|
      invariant i <= |calls| && forall k :: 0 <= k < i ==> calls[k].Other?
    {
      match calls[i] {
        case Submit(r) =>
          assert First(calls, i);
          return if r.Some? then Requirements(r.value) else ContentInvalid;
        case Ask(decoded) =>
          assert First(calls, i);
          if mustConclude || decoded.None? {
            return ContentInvalid;
          }
          var ok := ParseQuestions(decoded.value, max);
          return if ok then Questions(decoded.value) else ContentInvalid;
        case Other =>
      }
      i := i + 1;
    }
    assert forall k: nat :: !First(calls, k);
    return ContentInvalid;
  }

  datatype QuestionSet = QuestionSet(id: nat, revision: nat, round: nat, expires: Time)

  /** An answer as Control holds it. */
  datatype AnswerRef = AnswerRef(id: nat, questionSet: nat, revision: nat, body: nat)

  datatype RoundAnswer = RoundAnswer(round: nat, body: nat, question: QuestionSet)

  datatype UpdateResult = Applied | Rejected

  datatype Brief = Brief(requirements: nat, answers: seq<RoundAnswer>)

  datatype RoundResult = Concluded(requirements: nat) | Asks(questions: seq<Question>) | RoundFailed

  /** A model call's identity: its round and its number in the round. */
  datatype CallId = CallId(round: nat, call: nat)

  ghost predicate DistinctCalls(calls: seq<CallId>) {
    forall i, j :: 0 <= i < j < |calls| ==> calls[i] != calls[j]
  }

  ghost predicate CallsBefore(calls: seq<CallId>, round: nat, call: nat) {
    forall i :: 0 <= i < |calls| ==> calls[i].round < round || (calls[i].round == round && calls[i].call < call)
  }

  lemma CallPush(calls: seq<CallId>, round: nat, call: nat)
    requires DistinctCalls(calls) && CallsBefore(calls, round, call)
    ensures DistinctCalls(calls + [CallId(round, call)]) && CallsBefore(calls + [CallId(round, call)], round, call + 1)
  {
  }

  function Repairs(allowance: int): nat {
    if allowance > 0 then allowance else 0
  }

  /** The Model Proxy, with every call it was asked for. A transport retry reenters
      the same call. */
  class ModelProxy {
    ghost var calls: seq<CallId>

    constructor ()
      ensures calls == []
    {
      calls := [];
    }

    method CallModel(id: CallId) returns (answered: bool, unknown: bool, toolCalls: seq<ToolCall>)
      modifies this`calls
      ensures calls == old(calls) + [id]
    {
      answered, unknown, toolCalls :| true;
      calls := calls + [id];
    }
  }

  /** Control's side of the clarification: the question set it recorded for each
      round, and every answer it returned. */
  class Clarification {
    var asked: map<nat, QuestionSet>
    ghost var known: set<AnswerRef>

    constructor ()
      ensures asked == map[] && known == {}
    {
      asked, known := map[], {};
    }

    method RecordQuestionSet(round: nat) returns (qs: Option<QuestionSet>)
      modifies this`asked
      ensures qs.None? ==> asked == old(asked)
      ensures qs.Some? ==> qs.value.round == round && asked == old(asked)[round := qs.value]
    {
      var recorded: bool, id: nat, revision: nat, expires: Time :| true;
      if !recorded {
        return None;
      }
      qs := Some(QuestionSet(id, revision, round, expires));
      asked := asked[round := qs.value];
    }

    /** The answer of an id, or the one accepted for a question set. */
    method GetAnswer(id: Option<nat>, questionSet: Option<nat>) returns (ref: Option<AnswerRef>)
      modifies this`known
      ensures ref.Some? && id.Some? ==> ref.value.id == id.value
      ensures ref.Some? && questionSet.Some? ==> ref.value.questionSet == questionSet.value
      ensures known == old(known) + if ref.Some? then {ref.value} else {}
    {
      var found: bool, r: AnswerRef :| true;
      if !found || (id.Some? && r.id != id.value) || (questionSet.Some? && r.questionSet != questionSet.value) {
        return None;
      }
      known := known + {r};
      return Some(r);
    }
  }

  class Preparation {
    const maxRounds: nat
    const maxQuestions: nat
    const allowance: int
    var open: Option<QuestionSet>
    var answers: map<nat, RoundAnswer>
    var applied: set<nat>
    var answered: bool
    var now: Time
    const proxy: ModelProxy
    const control: Clarification

    /** Zero bounds take their defaults. */
    constructor (maxRounds: nat, maxQuestions: nat, allowance: int, proxy: ModelProxy, control: Clarification, now: Time)
      requires DistinctCalls(proxy.calls) && control.asked == map[]
      ensures this.maxRounds == (if maxRounds == 0 then 2 else maxRounds) && this.allowance == allowance
      ensures this.maxQuestions == (if maxQuestions == 0 then 3 else maxQuestions)
      ensures this.proxy == proxy && this.control == control && Valid() && answers == map[] && open.None?
    {
      this.maxRounds := if maxRounds == 0 then 2 else maxRounds;
      this.maxQuestions := if maxQuestions == 0 then 3 else maxQuestions;
      this.allowance, this.now, this.proxy, this.control := allowance, now, proxy, control;
      open, answers, applied, answered := None, map[], {}, false;
    }

    /** Control returned this answer for exactly this question set and revision. */
    ghost predicate Known(a: RoundAnswer)
      reads this, proxy, control
    {
      exists ref :: ref in control.known && ref.questionSet == a.question.id && ref.revision == a.question.revision && ref.body == a.body
    }

    /** Every answer is the round's, to the question set recorded for the round. */
    ghost predicate Valid()
      reads this, proxy, control
    {
      && (forall r :: r in answers ==> answers[r].round == r && r in control.asked && answers[r].question == control.asked[r] && Known(answers[r]))
      && (forall r :: r in control.asked ==> control.asked[r].round == r)
      && (open.Some? ==> open.value.round in control.asked && control.asked[open.value.round] == open.value)
      && (open.Some? && answered ==> open.value.round in answers)
      && DistinctCalls(proxy.calls)
    }

    /** The end of the answer Update's handler, with the answer it read: it applies
        only to the question set open at that moment. Whether the answer was applied
        already was asked before the read, so two handlers may apply one answer. */
    method ApplyAnswer(ref: Option<AnswerRef>) returns (r: UpdateResult)
      requires Valid() && (ref.Some? ==> ref.value in control.known)
      modifies this`answers, this`applied, this`answered
      ensures Valid()
      ensures r.Applied? <==>
                ref.Some? && open.Some? && ref.value.questionSet == open.value.id && ref.value.revision == open.value.revision
      ensures r.Applied? ==>
                && applied == old(applied) + {ref.value.id} && answered
                && answers == old(answers)[open.value.round := RoundAnswer(open.value.round, ref.value.body, open.value)]
      ensures r.Rejected? ==> answers == old(answers) && answered == old(answered) && applied == old(applied)
    {
      if ref.None? || open.None? || ref.value.questionSet != open.value.id || ref.value.revision != open.value.revision {
        return Rejected;
      }
      applied := applied + {ref.value.id};
      answers := answers[open.value.round := RoundAnswer(open.value.round, ref.value.body, open.value)];
      answered := true;
      return Applied;
    }

    /** The whole handler: an answer that was applied is answered again; otherwise
        it reads the answer, other handlers and the run go on meanwhile, and it
        applies to the question set open then, if it is the one the answer is for. */
    method HandleAnswer(id: nat) returns (r: UpdateResult)
      requires Valid()
      modifies this`open, this`answers, this`applied, this`answered, this`now, control
      ensures Valid() && old(applied) <= applied
      ensures r.Applied? ==> id in applied
      ensures id in old(applied) ==> r.Applied? && answers == old(answers) && open == old(open) && applied == old(applied)
      ensures r.Applied? && id !in old(applied) ==>
                && open.Some? && answered && open.value.round in answers
                && AnswerRef(id, open.value.id, open.value.revision, answers[open.value.round].body) in control.known
    {
      if id in applied {
        return Applied;
      }
      Meanwhile();
      var ref := control.GetAnswer(Some(id), None);
      r := ApplyAnswer(ref);
    }

    /** A handler blocks: other handlers come to their ends, and the run opens and
        closes question sets. */
    method Meanwhile()
      requires Valid()
      modifies this`open, this`answers, this`applied, this`answered, this`now, control
      ensures Valid() && old(applied) <= applied
    {
      hide Valid, Answering;
      var n: nat :| true;
      var i := 0;
      while i < n
        invariant Valid() && old(applied) <= applied
      {
        var round: nat, handles: bool :| true;
        if handles {
          var ref := AnyAnswer();
          var r := ApplyAnswer(ref);
        } else if open.Some? {
          CloseRound(open.value);
        } else if round !in control.asked && answers.Keys == control.asked.Keys {
          var qs := Ask(round);
        }
        i := i + 1;
      }
    }

    /** What Updates leave behind: answers come only to the open set's round. */
    ghost predicate Answering(before: map<nat, RoundAnswer>)
      reads this`open, this`answers
    {
      && (open.None? ==> answers == before)
      && (open.Some? ==> answers.Keys == before.Keys || answers.Keys == before.Keys + {open.value.round})
    }

    /** The run blocks: any Updates are handled, and time passes. */
    method Block()
      requires Valid()
      modifies this`answers, this`applied, this`answered, this`now, control`known
      ensures Valid() && now >= old(now) && (old(answered) ==> answered) && old(applied) <= applied
      ensures Answering(old(answers))
    {
      var elapsed: nat :| true;
      now := now + elapsed;
      ghost var passed := now;
      assert Answering(answers);
      hide Valid, Answering;
      var n: nat :| true;
      var i := 0;
      while i < n
        invariant Valid() && (old(answered) ==> answered) && now == passed && old(applied) <= applied
        invariant Answering(old(answers))
      {
        HandleOne(old(answers));
        i := i + 1;
      }
    }

    /** One handler comes to its end. */
    method HandleOne(ghost before: map<nat, RoundAnswer>)
      requires Valid() && Answering(before)
      modifies this`answers, this`applied, this`answered, control`known
      ensures Valid() && (old(answered) ==> answered) && old(applied) <= applied && Answering(before)
    {
      hide Valid;
      var ref := AnyAnswer();
      var r := ApplyAnswer(ref);
    }

    /** What some handler read, whenever it asked. */
    method AnyAnswer() returns (ref: Option<AnswerRef>)
      requires Valid()
      modifies control`known
      ensures Valid() && (ref.Some? ==> ref.value in control.known)
    {
      var id: nat :| true;
      ref := control.GetAnswer(Some(id), None);
    }

    /** One analysis round: one call, and one more for each content rejection the
        allowance still covers. An unknown call never authorizes another. */
    method AnalyzeRound(round: nat, mustConclude: bool, repairs: nat) returns (result: RoundResult, used: nat)
      requires Valid() && open.None? && CallsBefore(proxy.calls, round, 1) && repairs <= Repairs(allowance)
      modifies this`answers, this`applied, this`answered, this`now, control`known, proxy`calls
      ensures Valid() && answers == old(answers)
      ensures repairs <= used <= Repairs(allowance)
      ensures CallsBefore(proxy.calls, round + 1, 1)
      ensures |proxy.calls| <= |old(proxy.calls)| + 1 + used - repairs
      ensures mustConclude ==> !result.Asks?
      ensures result.Asks? ==> Bounded(result.questions, maxQuestions)
    {
      used := repairs;
      Block();
      var attempted: bool := *;
      if !attempted {
        return RoundFailed, used;
      }
      var call := 1;
      while true
        invariant Valid() && open.None? && answers == old(answers) && call >= 1
        invariant CallsBefore(proxy.calls, round, call)
        invariant repairs <= used <= Repairs(allowance) && |proxy.calls| == |old(proxy.calls)| + used - repairs
        decreases Repairs(allowance) - used
      {
        CallPush(proxy.calls, round, call);
        var a := AnalyzeRequirements(CallId(round, call), mustConclude);
        Block();
        if a.ContentInvalid? && used < allowance {
          used := used + 1;
          call := call + 1;
        } else {
          result := if a.Requirements? then Concluded(a.requirements) else if a.Questions? then Asks(a.questions) else RoundFailed;
          return;
        }
      }
    }

    /** One model call and the classification of its answer. */
    method AnalyzeRequirements(id: CallId, mustConclude: bool) returns (a: Analysis)
      modifies proxy`calls
      ensures proxy.calls == old(proxy.calls) + [id]
      ensures mustConclude ==> !a.Questions?
      ensures a.Questions? ==> Bounded(a.questions, maxQuestions)
    {
      var answered, unknown, toolCalls := proxy.CallModel(id);
      if !answered {
        return if unknown then UnknownCall else FailedCall;
      }
      a := Classify(toolCalls, mustConclude, maxQuestions);
    }

    /** The question set Control recorded for the round is open. */
    method Ask(round: nat) returns (qs: Option<QuestionSet>)
      requires Valid() && open.None? && round !in control.asked && answers.Keys == control.asked.Keys
      modifies this`open, this`answered, control`asked
      ensures Valid() && open == qs
      ensures qs.Some? ==> qs.value.round == round && !answered && control.asked == old(control.asked)[round := qs.value]
      ensures qs.None? ==> control.asked == old(control.asked)
    {
      qs := control.RecordQuestionSet(round);
      open, answered := qs, false;
    }

    /** The answer Control accepted before the expiry, if it did. */
    method TakeLate(qs: QuestionSet) returns (ok: bool)
      requires Valid() && open == Some(qs)
      modifies this`answers, this`applied, this`answered, control`known
      ensures Valid() && (ok ==> answered && answers.Keys == old(answers).Keys + {qs.round})
      ensures !ok ==> answers == old(answers) && answered == old(answered)
    {
      var late := control.GetAnswer(None, Some(qs.id));
      if late.None? || late.value.revision != qs.revision {
        return false;
      }
      applied := applied + {late.value.id};
      assert Known(RoundAnswer(qs.round, late.value.body, qs));
      answers := answers[qs.round := RoundAnswer(qs.round, late.value.body, qs)];
      answered := true;
      return true;
    }

    method CloseRound(qs: QuestionSet)
      requires Valid() && open == Some(qs)
      modifies this`open
      ensures Valid() && open.None? && (answered ==> qs.round in answers)
    {
      open := None;
    }

    /** Records a question set with Control and waits for its answer up to the
        expiry Control fixed, or takes one Control accepted before it. */
    method Clarify(round: nat) returns (ok: bool)
      requires Valid() && open.None? && round !in control.asked && answers.Keys == control.asked.Keys
      modifies this`open, this`answers, this`applied, this`answered, this`now, control
      ensures Valid()
      ensures ok ==> open.None? && control.asked.Keys == old(control.asked).Keys + {round} && answers.Keys == control.asked.Keys
    {
      hide Valid, Known;
      Block();
      var recorded := Ask(round);
      if recorded.None? {
        return false;
      }
      var qs := recorded.value;
      Block();
      // The timer fired or an Update was applied; or the run was canceled.
      var canceled: bool := *;
      if canceled {
        return false;
      }
      if !answered {
        // Other handlers run while the answer is read.
        Block();
        var late := TakeLate(qs);
        if !late {
          CloseRound(qs);
          return false;
        }
      }
      CloseRound(qs);
      return true;
    }

    /** The accepted answers, round by round. */
    method Frozen(rounds: nat) returns (list: seq<RoundAnswer>)
      requires Valid()
      ensures forall i :: 0 <= i < |list| ==> list[i].round in answers && list[i] == answers[list[i].round]
      ensures forall i, j :: 0 <= i < j < |list| ==> list[i].round < list[j].round
      ensures forall r :: 1 <= r <= rounds && r in answers ==> answers[r] in list
    {
      list := [];
      var r := 1;
      while r <= rounds
        invariant 1 <= r <= rounds + 1
        invariant forall i :: 0 <= i < |list| ==> list[i].round in answers && list[i] == answers[list[i].round] && list[i].round < r
        invariant forall i, j :: 0 <= i < j < |list| ==> list[i].round < list[j].round
        invariant forall k :: 1 <= k < r && k in answers ==> answers[k] in list
      {
        if r in answers {
          list := list + [answers[r]];
        }
        r := r + 1;
      }
    }

    /** Exactly one answer for each round that asked, in the order of the rounds:
        the one Control returned for that round's question set and revision. */
    ghost predicate Faithful(list: seq<RoundAnswer>)
      reads this, proxy, control
    {
      && (forall a :: a in list ==> a.round in control.asked && a.question == control.asked[a.round] && Known(a))
      && (forall r :: r in control.asked <==> exists a :: a in list && a.round == r)
      && (forall i, j :: 0 <= i < j < |list| ==> list[i].round < list[j].round)
    }

    lemma CallsDistinct()
      requires Valid()
      ensures DistinctCalls(proxy.calls)
    {
    }

    /** The whole run. It ends within one round more than the bound, makes at most
        one call a round and one for each repair, and freezes exactly one answer
        for each round that asked: the one Control returned for that round's
        question set and revision. */
    method Run() returns (brief: Option<Brief>, rounds: nat)
      requires Valid() && open.None? && proxy.calls == [] && control.asked == map[] && answers == map[]
      modifies this, proxy, control
      ensures rounds <= maxRounds + 1
      ensures DistinctCalls(proxy.calls) && |proxy.calls| <= rounds + Repairs(allowance)
      ensures brief.Some? ==> Faithful(brief.value.answers)
    {
      hide Valid, Known, Faithful, DistinctCalls, Bounded;
      CallsDistinct();
      Block();
      var funded: bool := *;
      if !funded {
        return None, 0;
      }
      var repairs := 0;
      rounds := 1;
      while true
        invariant Valid() && open.None? && 1 <= rounds <= maxRounds + 1
        invariant control.asked.Keys == answers.Keys && forall r :: r in control.asked <==> 1 <= r < rounds
        invariant CallsBefore(proxy.calls, rounds, 1) && |proxy.calls| <= rounds - 1 + repairs && repairs <= Repairs(allowance)
        decreases maxRounds + 1 - rounds
      {
        var result, used := AnalyzeRound(rounds, rounds > maxRounds, repairs);
        CallsDistinct();
        repairs := used;
        match result {
          case RoundFailed =>
            return None, rounds;
          case Concluded(requirements) =>
            brief := Freeze(requirements);
            return;
          case Asks(_) =>
            var ok := Clarify(rounds);
            if !ok {
              return None, rounds;
            }
            rounds := rounds + 1;
        }
      }
    }

    /** Freezes the requirements with the answers of all rounds. */
    method Freeze(requirements: nat) returns (brief: Option<Brief>)
      requires Valid() && open.None? && control.asked.Keys == answers.Keys && forall r :: r in control.asked ==> 1 <= r <= maxRounds
      modifies this`answers, this`applied, this`answered, this`now, control`known
      ensures DistinctCalls(proxy.calls)
      ensures brief.Some? ==> Faithful(brief.value.answers)
    {
      Block();
      var references: bool, recorded: bool :| true;
      if !references {
        return None;
      }
      var list := Frozen(maxRounds);
      forall r ensures r in control.asked <==> exists a :: a in list && a.round == r {
        if r in control.asked {
          assert answers[r] in list && answers[r].round == r;
        }
      }
      return if recorded then Some(Brief(requirements, list)) else None;
    }
  }
}
