/** Which answers and judgements an evaluation reuses, field by field, and how many calls a resumed run makes. */
module EvalKeys {
  import opened Results
  import opened EvalLog

  /** Two answers have one cache key exactly when manifest, case, mode, model and configuration are the same. */
  lemma AnswerKeysAgreeIff(a: Setup, c: Case, b: Setup, d: Case)
    ensures KeyOf(a, c) == KeyOf(b, d) <==>
            && a.manifestHash == b.manifestHash && c.id == d.id && a.mode == b.mode && a.answerModel == b.answerModel
            && a.configHash == b.configHash
  {
  }

  /** Two judgements have one cache key exactly when question, references, rubric, answer, endpoint and judge are the
      same, whatever the manifest, the mode and the answer model. */
  lemma JudgeKeysAgreeIff(a: Setup, c: Case, answer: string, b: Setup, d: Case, other: string)
    ensures JudgeKeyOf(a, c, answer) == JudgeKeyOf(b, d, other) <==>
            && c.question == d.question && c.references == d.references && c.rubric == d.rubric && answer == other
            && a.judgeEndpoint == b.judgeEndpoint && a.judgeModel == b.judgeModel
  {
  }

  /** Two results have one line in the report exactly when manifest, case, mode and answer model are the same. */
  lemma IdentitiesAgreeIff(a: Setup, c: Case, b: Setup, d: Case)
    ensures IdentityOf(KeyOf(a, c)) == IdentityOf(KeyOf(b, d)) <==>
            && a.manifestHash == b.manifestHash && c.id == d.id && a.mode == b.mode && a.answerModel == b.answerModel
  {
  }

  // ---------------------------------------------------------------- one case of a resumed run

  /** The row holds an answer of this model, under this configuration, to this case of the manifest. */
  predicate Answers(row: Row, setup: Setup, c: Case) {
    && row.answer.Some?
    && row.answerKey.manifestHash == setup.manifestHash && row.answerKey.caseId == c.id && row.answerKey.mode == setup.mode
    && row.answerKey.answerModel == setup.answerModel && row.answerKey.configHash == setup.configHash
  }

  /** The row completes the case with this answer, judged by this judge. */
  predicate Judges(row: Row, setup: Setup, c: Case, answer: string) {
    && row.status.Completed?
    && row.answerKey.manifestHash == setup.manifestHash && row.answerKey.caseId == c.id && row.answerKey.mode == setup.mode
    && row.answerKey.answerModel == setup.answerModel && row.answerKey.configHash == setup.configHash
    && row.judgeKey.Some?
    && row.judgeKey.value.question == c.question && row.judgeKey.value.references == c.references
    && row.judgeKey.value.rubric == c.rubric && row.judgeKey.value.answer == answer
    && row.judgeKey.value.endpoint == setup.judgeEndpoint && row.judgeKey.value.model == setup.judgeModel
  }

  ghost predicate HasAnswer(rows: seq<Row>, setup: Setup, c: Case) {
    exists row :: row in rows && Answers(row, setup, c)
  }

  /** The last answer to the case stands at i. */
  ghost predicate LastAnswer(rows: seq<Row>, setup: Setup, c: Case, i: nat) {
    i < |rows| && Answers(rows[i], setup, c) && forall j :: i < j < |rows| ==> !Answers(rows[j], setup, c)
  }

  ghost predicate HasVerdict(rows: seq<Row>, setup: Setup, c: Case, answer: string) {
    exists row :: row in rows && Judges(row, setup, c, answer)
  }

  /** The last answer to the case has been judged by this judge. */
  ghost predicate IsDone(rows: seq<Row>, setup: Setup, c: Case) {
    exists i: nat :: LastAnswer(rows, setup, c, i) && HasVerdict(rows, setup, c, rows[i].answer.value)
  }

  lemma FoundIff(rows: seq<Row>, setup: Setup, c: Case)
    ensures FindAnswer(rows, KeyOf(setup, c)).Some? <==> HasAnswer(rows, setup, c)
    ensures forall row :: Carries(row, KeyOf(setup, c)) <==> Answers(row, setup, c)
    ensures forall row, answer :: Completes(row, KeyOf(setup, c), JudgeKeyOf(setup, c, answer)) <==> Judges(row, setup, c, answer)
  {
    hide FindAnswer;
  }

  lemma LastIsUnique(rows: seq<Row>, setup: Setup, c: Case, i: nat, j: nat)
    requires LastAnswer(rows, setup, c, i) && LastAnswer(rows, setup, c, j)
    ensures i == j
  {
  }

  lemma {:induction false} LastExists(rows: seq<Row>, setup: Setup, c: Case) returns (i: nat)
    requires HasAnswer(rows, setup, c)
    ensures LastAnswer(rows, setup, c, i)
  {
    hide Answers;
    var n := |rows| - 1;
    if Answers(rows[n], setup, c) {
      i := n;
    } else {
      var row :| row in rows && Answers(row, setup, c);
      assert row in rows[..n];
      i := LastExists(rows[..n], setup, c);
    }
  }

  lemma LastCarries(rows: seq<Row>, setup: Setup, c: Case, i: nat)
    requires LastAnswer(rows, setup, c, i)
    ensures FindAnswer(rows, KeyOf(setup, c)) == Some(rows[i])
  {
    hide FindAnswer;
    FoundIff(rows, setup, c);
    FoundAnswerIsLast(rows, KeyOf(setup, c), i);
  }

  lemma DoneIff(rows: seq<Row>, setup: Setup, c: Case)
    ensures Done(setup, rows, true, c).Some? <==> IsDone(rows, setup, c)
  {
    hide FindAnswer, FindCompleted, Carries, Completes, KeyOf, JudgeKeyOf, Answers, Judges, LastAnswer;
    FoundIff(rows, setup, c);
    if HasAnswer(rows, setup, c) {
      var k := LastExists(rows, setup, c);
      LastCarries(rows, setup, c, k);
      VerdictOnLast(rows, setup, c, k);
    } else {
      NoLast(rows, setup, c);
    }
  }

  lemma NoLast(rows: seq<Row>, setup: Setup, c: Case)
    requires !HasAnswer(rows, setup, c)
    ensures !IsDone(rows, setup, c)
  {
    hide Answers, Judges;
  }

  lemma VerdictOnLast(rows: seq<Row>, setup: Setup, c: Case, k: nat)
    requires LastAnswer(rows, setup, c, k)
    ensures k < |rows| && rows[k].answer.Some?
    ensures IsDone(rows, setup, c) <==> HasVerdict(rows, setup, c, rows[k].answer.value)
  {
    hide HasVerdict;
    forall i: nat | LastAnswer(rows, setup, c, i) ensures i == k {
      LastIsUnique(rows, setup, c, i, k);
    }
  }

  predicate Generates(rows: seq<Row>, setup: Setup, c: Case) {
    forall row :: row in rows ==> !Answers(row, setup, c)
  }

  /** The calls of one case: the model is asked when there is no answer, the judge when there is one, old or new, that
      it has not judged and that can be scored. */
  lemma ResumedCase(rows: seq<Row>, setup: Setup, c: Case, attempt: Attempt)
    ensures var (generated, judged) := CaseCalls(setup, rows, true, c, attempt);
            && generated == (if Generates(rows, setup, c) then 1 else 0)
            && judged == if !IsDone(rows, setup, c) && attempt.scores && (!Generates(rows, setup, c) || attempt.answer.Some?) then 1
                         else 0
  {
    hide FindAnswer, FindCompleted, Answers, Judges, KeyOf, JudgeKeyOf;
    DoneIff(rows, setup, c);
    FoundIff(rows, setup, c);
  }

  /** The rows of a case, column by column: the new answer, if it was asked for and came, and the row that closes the case
      with the verdict, without one, or without an answer. */
  lemma AppendedColumns(rows: seq<Row>, setup: Setup, c: Case, attempt: Attempt)
    requires LogInv(rows)
    ensures var added := CaseRows(setup, rows, true, c, attempt);
            var key, identity := AnswerKey(setup.manifestHash, c.id, setup.mode, setup.answerModel, setup.configHash),
                                 Identity(setup.manifestHash, c.id, setup.mode, setup.answerModel);
            if IsDone(rows, setup, c) then added == []
            else if Generates(rows, setup, c) && attempt.answer.None? then
              added == [Row(key, identity, None, Failed, None, setup.judgeModel, setup.judgeEndpoint)]
            else
              && (Generates(rows, setup, c) ==>
                    && |added| == 2
                    && added[0] == Row(key, identity, attempt.answer, AnswerCompleted, None, setup.judgeModel, setup.judgeEndpoint))
              && (!Generates(rows, setup, c) ==> |added| == 1)
              && var last := added[|added| - 1];
                 && last.answerKey == key && last.identity == identity
                 && last.judgeModel == setup.judgeModel && last.judgeEndpoint == setup.judgeEndpoint
                 && (Generates(rows, setup, c) ==> last.answer == attempt.answer)
                 && (!Generates(rows, setup, c) ==> exists i: nat :: LastAnswer(rows, setup, c, i) && last.answer == rows[i].answer)
                 && last.answer.Some?
                 && (last.status.Completed? <==> attempt.scores && attempt.judged)
                 && (!last.status.Completed? ==> last.status.Failed?)
                 && (last.status.Completed? ==>
                       last.judgeKey == Some(JudgeKey(c.question, c.references, c.rubric, last.answer.value, setup.judgeEndpoint,
                                                      setup.judgeModel)))
                 && (attempt.scores && !attempt.judged ==> last.judgeKey == None)
  {
    hide FindAnswer, FindCompleted, LogInv;
    DoneIff(rows, setup, c);
    FoundIff(rows, setup, c);
    NeverRelabelled(setup, rows, true, c);
    if HasAnswer(rows, setup, c) {
      var i := LastExists(rows, setup, c);
      LastCarries(rows, setup, c, i);
      InLogHonest(rows, rows[i]);
    }
  }

  // ---------------------------------------------------------------- the calls of a whole run

  /** For how many of the cases, each with its attempt, something holds. */
  function Tally(p: (Case, Attempt) -> bool, cases: seq<Case>, attempts: nat -> Attempt, k: nat): (n: nat)
    ensures n <= |cases|
  {
    if cases == [] then 0 else (if p(cases[0], attempts(k)) then 1 else 0) + Tally(p, cases[1..], attempts, k + 1)
  }

  ghost function Asks(rows: seq<Row>, setup: Setup): (Case, Attempt) -> bool {
    (c: Case, attempt: Attempt) => Generates(rows, setup, c)
  }

  ghost function AsksJudge(rows: seq<Row>, setup: Setup): (Case, Attempt) -> bool {
    (c: Case, attempt: Attempt) =>
      !IsDone(rows, setup, c) && attempt.scores && (!Generates(rows, setup, c) || attempt.answer.Some?)
  }

  ghost function Skips(rows: seq<Row>, setup: Setup): (Case, Attempt) -> bool {
    (c: Case, attempt: Attempt) => IsDone(rows, setup, c)
  }

  lemma {:induction false} TallyAgrees(p: (Case, Attempt) -> bool, q: (Case, Attempt) -> bool, cases: seq<Case>,
                                       attempts: nat -> Attempt, k: nat)
    requires forall c, attempt :: c in cases ==> p(c, attempt) == q(c, attempt)
    ensures Tally(p, cases, attempts, k) == Tally(q, cases, attempts, k)
  {
    if cases != [] {
      assert cases[0] in cases;
      TallyAgrees(p, q, cases[1..], attempts, k + 1);
    }
  }

  lemma {:induction false} TallyAll(p: (Case, Attempt) -> bool, cases: seq<Case>, attempts: nat -> Attempt, k: nat)
    requires forall c, attempt :: c in cases ==> p(c, attempt)
    ensures Tally(p, cases, attempts, k) == |cases|
  {
    if cases != [] {
      assert cases[0] in cases;
      TallyAll(p, cases[1..], attempts, k + 1);
    }
  }

  lemma {:induction false} TallyNone(p: (Case, Attempt) -> bool, cases: seq<Case>, attempts: nat -> Attempt, k: nat)
    requires forall c, attempt :: c in cases ==> !p(c, attempt)
    ensures Tally(p, cases, attempts, k) == 0
  {
    if cases != [] {
      assert cases[0] in cases;
      TallyNone(p, cases[1..], attempts, k + 1);
    }
  }

  /** Rows of other cases do not matter to a case. */
  lemma OthersDoNotMatter(rows: seq<Row>, more: seq<Row>, setup: Setup, c: Case)
    requires forall row :: row in more ==> row.answerKey.caseId != c.id
    ensures Generates(rows + more, setup, c) == Generates(rows, setup, c)
    ensures IsDone(rows + more, setup, c) == IsDone(rows, setup, c)
  {
    var all := rows + more;
    forall row | row in all ensures row in rows || row.answerKey.caseId != c.id {
    }
    forall i: nat ensures LastAnswer(all, setup, c, i) <==> LastAnswer(rows, setup, c, i) {
      SameLast(rows, more, setup, c, i);
    }
    forall answer ensures HasVerdict(all, setup, c, answer) <==> HasVerdict(rows, setup, c, answer) {
      assert forall row :: row in all && Judges(row, setup, c, answer) ==> row in rows;
      assert forall row :: row in rows ==> row in all;
    }
    forall i: nat | LastAnswer(rows, setup, c, i) ensures all[i] == rows[i] {
    }
  }

  lemma SameLast(rows: seq<Row>, more: seq<Row>, setup: Setup, c: Case, i: nat)
    requires forall row :: row in more ==> row.answerKey.caseId != c.id
    ensures LastAnswer(rows + more, setup, c, i) <==> LastAnswer(rows, setup, c, i)
  {
    var all := rows + more;
    forall j | |rows| <= j < |all| ensures !Answers(all[j], setup, c) {
      assert all[j] in more;
    }
    forall j | 0 <= j < |rows| ensures Answers(rows[j], setup, c) == Answers(all[j], setup, c) {
    }
  }

  /** A resumed run that goes through to the end asks the model for each case that the log holds no answer to, asks the judge
      for each that it has not judged and can, and skips those it has: all as the log was when the run began. */
  lemma {:induction false} RunCalls(rows: seq<Row>, setup: Setup, cases: seq<Case>, attempts: nat -> Attempt, k: nat)
    requires DistinctIds(cases)
    ensures var e := Evaluate(setup, rows, true, false, cases, attempts, k);
            && e.generationCalls == Tally(Asks(rows, setup), cases, attempts, k)
            && e.judgeCalls == Tally(AsksJudge(rows, setup), cases, attempts, k)
            && e.skipped == Tally(Skips(rows, setup), cases, attempts, k)
    decreases |cases|
  {
    hide CaseRows, CaseCalls, CaseFails, Done, IsDone, Generates, KeyOf;
    if cases != [] {
      var added := CaseRows(setup, rows, true, cases[0], attempts(k));
      CaseRowsKey(setup, rows, true, cases[0], attempts(k));
      RunCalls(rows + added, setup, cases[1..], attempts, k + 1);
      ResumedCase(rows, setup, cases[0], attempts(k));
      DoneIff(rows, setup, cases[0]);
      KeyNames(setup, cases[0]);
      forall c | c in cases[1..]
        ensures Generates(rows + added, setup, c) == Generates(rows, setup, c)
        ensures IsDone(rows + added, setup, c) == IsDone(rows, setup, c)
      {
        OthersDoNotMatter(rows, added, setup, c);
      }
      TallyAgrees(Asks(rows + added, setup), Asks(rows, setup), cases[1..], attempts, k + 1);
      TallyAgrees(AsksJudge(rows + added, setup), AsksJudge(rows, setup), cases[1..], attempts, k + 1);
      TallyAgrees(Skips(rows + added, setup), Skips(rows, setup), cases[1..], attempts, k + 1);
    }
  }

  lemma KeyNames(setup: Setup, c: Case)
    ensures KeyOf(setup, c).caseId == c.id
  {
  }

  /** Under a configuration, or with an answer model, that no row was written under, a resumed run asks for every answer
      anew and skips nothing. */
  lemma NewSettingsAskAgain(rows: seq<Row>, setup: Setup, cases: seq<Case>, attempts: nat -> Attempt)
    requires DistinctIds(cases)
    requires || (forall row :: row in rows ==> row.answerKey.configHash != setup.configHash)
             || (forall row :: row in rows ==> row.answerKey.answerModel != setup.answerModel)
             || (forall row :: row in rows ==> row.answerKey.mode != setup.mode)
             || (forall row :: row in rows ==> row.answerKey.manifestHash != setup.manifestHash)
    ensures var e := Evaluate(setup, rows, true, false, cases, attempts, 0);
            e.generationCalls == |cases| && e.skipped == 0
  {
    hide Evaluate;
    RunCalls(rows, setup, cases, attempts, 0);
    TallyAll(Asks(rows, setup), cases, attempts, 0);
    TallyNone(Skips(rows, setup), cases, attempts, 0);
  }

  /** With a judge, or an endpoint, that no row was judged by, it asks for no answer that it has, and asks the judge about
      every one that can be scored. */
  lemma NewJudgeJudgesAgain(rows: seq<Row>, setup: Setup, cases: seq<Case>, attempts: nat -> Attempt)
    requires DistinctIds(cases) && (forall c :: c in cases ==> HasAnswer(rows, setup, c)) && forall i :: attempts(i).scores
    requires || (forall row :: row in rows && row.judgeKey.Some? ==> row.judgeKey.value.model != setup.judgeModel)
             || (forall row :: row in rows && row.judgeKey.Some? ==> row.judgeKey.value.endpoint != setup.judgeEndpoint)
    ensures var e := Evaluate(setup, rows, true, false, cases, attempts, 0);
            e.generationCalls == 0 && e.judgeCalls == |cases| && e.skipped == 0
  {
    hide Evaluate;
    RunCalls(rows, setup, cases, attempts, 0);
    TallyNone(Asks(rows, setup), cases, attempts, 0);
    TallyNone(Skips(rows, setup), cases, attempts, 0);
    JudgedAll(rows, setup, cases, attempts, 0);
  }

  lemma {:induction false} JudgedAll(rows: seq<Row>, setup: Setup, cases: seq<Case>, attempts: nat -> Attempt, k: nat)
    requires (forall c :: c in cases ==> !Generates(rows, setup, c) && !IsDone(rows, setup, c)) && forall i :: attempts(i).scores
    ensures Tally(AsksJudge(rows, setup), cases, attempts, k) == |cases|
  {
    hide Generates, IsDone;
    if cases != [] {
      assert cases[0] in cases;
      JudgedAll(rows, setup, cases[1..], attempts, k + 1);
    }
  }

  /** A run that does not resume asks for everything, whatever the log holds. */
  lemma {:induction false} FreshRunAsks(prior: seq<Row>, setup: Setup, cases: seq<Case>, attempts: nat -> Attempt, k: nat)
    ensures var e := Evaluate(setup, prior, false, false, cases, attempts, k);
            e.generationCalls == |cases| && e.skipped == 0
    decreases |cases|
  {
    hide CaseRows, CaseFails;
    if cases != [] {
      FreshRunAsks(prior + CaseRows(setup, prior, false, cases[0], attempts(k)), setup, cases[1..], attempts, k + 1);
    }
  }
}
