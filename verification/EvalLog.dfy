/** The resumable answer evaluation: an append-only log that doubles as a cache. */
module EvalLog {
  import opened Results

  /** Cache keys are hashes of structured values; the hash is taken to be injective, so the values stand for it. */
  datatype AnswerKey = AnswerKey(manifestHash: string, caseId: string, mode: string, answerModel: string, configHash: string)

  datatype JudgeKey = JudgeKey(question: string, references: seq<string>, rubric: string, answer: string,
                               endpoint: Option<string>, model: string)

  datatype Identity = Identity(manifestHash: string, caseId: string, mode: string, answerModel: string)

  datatype Status = AnswerCompleted | Completed | Failed

  datatype Row = Row(answerKey: AnswerKey, identity: Identity, answer: Option<string>, status: Status,
                     judgeKey: Option<JudgeKey>, judgeModel: string, judgeEndpoint: Option<string>)

  datatype Case = Case(id: string, question: string, references: seq<string>, rubric: string)

  /** The manifest, the models and the application configuration of one invocation. */
  datatype Setup = Setup(manifestHash: string, mode: string, answerModel: string, configHash: string,
                         judgeModel: string, judgeEndpoint: Option<string>)

  /** How the outside answers one case: the generated answer or an exception, whether the official score
      can be computed, whether the judge gives a result. */
  datatype Attempt = Attempt(answer: Option<string>, scores: bool, judged: bool)

  function KeyOf(setup: Setup, spec: Case): AnswerKey {
    AnswerKey(setup.manifestHash, spec.id, setup.mode, setup.answerModel, setup.configHash)
  }

  function JudgeKeyOf(setup: Setup, spec: Case, answer: string): JudgeKey {
    JudgeKey(spec.question, spec.references, spec.rubric, answer, setup.judgeEndpoint, setup.judgeModel)
  }

  function IdentityOf(key: AnswerKey): Identity {
    Identity(key.manifestHash, key.caseId, key.mode, key.answerModel)
  }

  predicate Carries(row: Row, key: AnswerKey) {
    row.answerKey == key && row.answer.Some?
  }

  predicate Completes(row: Row, key: AnswerKey, judge: JudgeKey) {
    row.answerKey == key && row.judgeKey == Some(judge) && row.status.Completed?
  }

  /** The row at i carries an answer for the key, and no later row does. */
  ghost predicate LastCarrier(rows: seq<Row>, key: AnswerKey, i: nat) {
    i < |rows| && Carries(rows[i], key) && forall j :: i < j < |rows| ==> !Carries(rows[j], key)
  }

  ghost predicate LastCompletion(rows: seq<Row>, key: AnswerKey, judge: JudgeKey, i: nat) {
    i < |rows| && Completes(rows[i], key, judge) && forall j :: i < j < |rows| ==> !Completes(rows[j], key, judge)
  }

  /** find_answer: the last row under the key that carries an answer. */
  function FindAnswer(rows: seq<Row>, key: AnswerKey): (r: Option<Row>)
    ensures r.None? <==> forall row :: row in rows ==> !Carries(row, key)
    ensures r.Some? ==> r.value in rows && Carries(r.value, key)
  {
    if rows == [] then None
    else if Carries(rows[|rows| - 1], key) then Some(rows[|rows| - 1])
    else
      assert rows == rows[..|rows| - 1] + [rows[|rows| - 1]];
      FindAnswer(rows[..|rows| - 1], key)
  }

  lemma {:induction false} FoundAnswerIsLast(rows: seq<Row>, key: AnswerKey, i: nat)
    requires LastCarrier(rows, key, i)
    ensures FindAnswer(rows, key) == Some(rows[i])
  {
    if i < |rows| - 1 {
      FoundAnswerIsLast(rows[..|rows| - 1], key, i);
    }
  }

  /** find_completed_judge: the last completed row under both keys. */
  function FindCompleted(rows: seq<Row>, key: AnswerKey, judge: JudgeKey): (r: Option<Row>)
    ensures r.None? <==> forall row :: row in rows ==> !Completes(row, key, judge)
    ensures r.Some? ==> r.value in rows && Completes(r.value, key, judge)
  {
    if rows == [] then None
    else if Completes(rows[|rows| - 1], key, judge) then Some(rows[|rows| - 1])
    else
      assert rows == rows[..|rows| - 1] + [rows[|rows| - 1]];
      FindCompleted(rows[..|rows| - 1], key, judge)
  }

  lemma {:induction false} FoundCompletionIsLast(rows: seq<Row>, key: AnswerKey, judge: JudgeKey, i: nat)
    requires LastCompletion(rows, key, judge, i)
    ensures FindCompleted(rows, key, judge) == Some(rows[i])
  {
    if i < |rows| - 1 {
      FoundCompletionIsLast(rows[..|rows| - 1], key, judge, i);
    }
  }

  // ---------------------------------------------------------------- one case

  /** What a case starts from: the cached answer, if the run resumes. */
  function Cached(prior: seq<Row>, resume: bool, key: AnswerKey): Option<Row> {
    if resume then FindAnswer(prior, key) else None
  }

  /** The completed row that lets a case be skipped. */
  function Done(setup: Setup, prior: seq<Row>, resume: bool, spec: Case): Option<Row> {
    var cached := Cached(prior, resume, KeyOf(setup, spec));
    if cached.None? then None
    else FindCompleted(prior, KeyOf(setup, spec), JudgeKeyOf(setup, spec, cached.value.answer.value))
  }

  predicate JudgedBy(row: Row, setup: Setup) {
    row.judgeModel == setup.judgeModel && row.judgeEndpoint == setup.judgeEndpoint
  }

  function Relabelled(row: Row, setup: Setup): Row {
    row.(judgeModel := setup.judgeModel, judgeEndpoint := setup.judgeEndpoint)
  }

  function Fresh(setup: Setup, spec: Case, answer: Option<string>, status: Status): Row {
    var key := KeyOf(setup, spec);
    Row(key, IdentityOf(key), answer, status, None, setup.judgeModel, setup.judgeEndpoint)
  }

  /** The row that ends a case whose answer is in `record`. */
  function Closing(setup: Setup, spec: Case, record: Row, attempt: Attempt): Row
    requires record.answer.Some?
  {
    if !attempt.scores then Relabelled(record, setup).(status := Failed)
    else if !attempt.judged then Relabelled(record, setup).(status := Failed, judgeKey := None)
    else Relabelled(record, setup).(status := Completed, judgeKey := Some(JudgeKeyOf(setup, spec, record.answer.value)))
  }

  /** The rows one case appends to the log. */
  function CaseRows(setup: Setup, prior: seq<Row>, resume: bool, spec: Case, attempt: Attempt): seq<Row> {
    var done := Done(setup, prior, resume, spec);
    var cached := Cached(prior, resume, KeyOf(setup, spec));
    if done.Some? then (if JudgedBy(done.value, setup) then [] else [Relabelled(done.value, setup)])
    else if cached.Some? then [Closing(setup, spec, cached.value, attempt)]
    else if attempt.answer.None? then [Fresh(setup, spec, None, Failed)]
    else
      var record := Fresh(setup, spec, attempt.answer, AnswerCompleted);
      [record, Closing(setup, spec, record, attempt)]
  }

  function CaseFails(setup: Setup, prior: seq<Row>, resume: bool, spec: Case, attempt: Attempt): bool {
    && Done(setup, prior, resume, spec).None?
    && ((Cached(prior, resume, KeyOf(setup, spec)).None? && attempt.answer.None?) || !attempt.scores || !attempt.judged)
  }

  /** Executor calls and judge calls of one case. */
  function CaseCalls(setup: Setup, prior: seq<Row>, resume: bool, spec: Case, attempt: Attempt): (nat, nat) {
    if Done(setup, prior, resume, spec).Some? then (0, 0)
    else if Cached(prior, resume, KeyOf(setup, spec)).Some? then (0, if attempt.scores then 1 else 0)
    else (1, if attempt.answer.Some? && attempt.scores then 1 else 0)
  }

  // ---------------------------------------------------------------- one invocation

  datatype Evaluation = Evaluation(added: seq<Row>, generationCalls: nat, judgeCalls: nat, skipped: nat, raised: bool)

  /** The remaining cases of an invocation, on what the log holds so far. */
  function Evaluate(setup: Setup, prior: seq<Row>, resume: bool, failFast: bool, cases: seq<Case>,
                    attempts: nat -> Attempt, k: nat): Evaluation
    decreases |cases|
  {
    if cases == [] then Evaluation([], 0, 0, 0, false)
    else
      var rows := CaseRows(setup, prior, resume, cases[0], attempts(k));
      var calls := CaseCalls(setup, prior, resume, cases[0], attempts(k));
      var skip := if Done(setup, prior, resume, cases[0]).Some? then 1 else 0;
      if failFast && CaseFails(setup, prior, resume, cases[0], attempts(k)) then
        Evaluation(rows, calls.0, calls.1, skip, true)
      else
        var rest := Evaluate(setup, prior + rows, resume, failFast, cases[1..], attempts, k + 1);
        Evaluation(rows + rest.added, calls.0 + rest.generationCalls, calls.1 + rest.judgeCalls, skip + rest.skipped,
                   rest.raised)
  }

  /** results.jsonl */
  class ResultsFile {
    var rows: seq<Row>

    constructor ()
      ensures rows == []
    {
      rows := [];
    }

    method Append(row: Row)
      modifies this
      ensures rows == old(rows) + [row]
    {
      rows := rows + [row];
    }

    /** run_evaluation, up to the reports. */
    method RunEvaluation(setup: Setup, resume: bool, failFast: bool, cases: seq<Case>, attempts: nat -> Attempt)
        returns (generationCalls: nat, judgeCalls: nat, skipped: nat, raised: bool)
      modifies this
      ensures var e := Evaluate(setup, if resume then old(rows) else [], resume, failFast, cases, attempts, 0);
              rows == old(rows) + e.added && e == Evaluation(e.added, generationCalls, judgeCalls, skipped, raised)
    {
      hide *;
      var prior := if resume then rows else [];
      ghost var start := Evaluate(setup, prior, resume, failFast, cases, attempts, 0);
      ghost var added: seq<Row> := [];
      generationCalls, judgeCalls, skipped, raised := 0, 0, 0, false;
      NothingYet(start);
      assert cases[0..] == cases;
      for i := 0 to |cases|
        invariant rows == old(rows) + added
        invariant prior == (if resume then old(rows) else []) + added
        invariant Continues(start, added, generationCalls, judgeCalls, skipped,
                            Evaluate(setup, prior, resume, failFast, cases[i..], attempts, i))
      {
        OneRound(start, added, generationCalls, judgeCalls, skipped, setup, prior, resume, failFast, cases, attempts, i);
        var appended, generated, judged, completed, failed := RunCase(setup, prior, resume, cases[i], attempts(i));
        generationCalls, judgeCalls := generationCalls + generated, judgeCalls + judged;
        skipped := skipped + if completed then 1 else 0;
        prior, added := prior + appended, added + appended;
        if failed && failFast {
          raised := true;
          return;
        }
      }
      assert cases[|cases|..] == [];
      Finished(start, added, generationCalls, judgeCalls, skipped, setup, prior, resume, failFast, attempts, |cases|);
    }

    /** One round of its loop: every row is appended to the file as soon as it is known. */
    method RunCase(setup: Setup, prior: seq<Row>, resume: bool, spec: Case, attempt: Attempt)
        returns (appended: seq<Row>, generated: nat, judged: nat, skipped: bool, failed: bool)
      modifies this
      ensures appended == CaseRows(setup, prior, resume, spec, attempt)
      ensures rows == old(rows) + appended
      ensures (generated, judged) == CaseCalls(setup, prior, resume, spec, attempt)
      ensures skipped <==> Done(setup, prior, resume, spec).Some?
      ensures failed <==> CaseFails(setup, prior, resume, spec, attempt)
    {
      hide FindAnswer, FindCompleted;
      appended, generated, judged, skipped, failed := [], 0, 0, false, false;
      var key := KeyOf(setup, spec);
      var cached := if resume then FindAnswer(prior, key) else None;
      if cached.Some? {
        var completed := FindCompleted(prior, key, JudgeKeyOf(setup, spec, cached.value.answer.value));
        if completed.Some? {
          if completed.value.judgeModel != setup.judgeModel || completed.value.judgeEndpoint != setup.judgeEndpoint {
            appended := [completed.value.(judgeModel := setup.judgeModel, judgeEndpoint := setup.judgeEndpoint)];
            Append(appended[0]);
          }
          skipped := true;
          return;
        }
      }
      var record: Row;
      if cached.None? {
        generated := 1;
        if attempt.answer.None? {
          appended := [Row(key, IdentityOf(key), None, Failed, None, setup.judgeModel, setup.judgeEndpoint)];
          Append(appended[0]);
          failed := true;
          return;
        }
        record := Row(key, IdentityOf(key), attempt.answer, AnswerCompleted, None, setup.judgeModel, setup.judgeEndpoint);
        appended := [record];
        Append(record);
      } else {
        record := cached.value;
      }
      var last := record.(judgeModel := setup.judgeModel, judgeEndpoint := setup.judgeEndpoint);
      if !attempt.scores {
        last, failed := last.(status := Failed), true;
      } else {
        judged := 1;
        if !attempt.judged {
          last, failed := last.(status := Failed, judgeKey := None), true;
        } else {
          last := last.(status := Completed, judgeKey := Some(JudgeKeyOf(setup, spec, record.answer.value)));
        }
      }
      appended := appended + [last];
      Append(last);
    }
  }

  /** The whole invocation is what has been done so far followed by the rest. */
  ghost predicate Continues(whole: Evaluation, added: seq<Row>, generationCalls: nat, judgeCalls: nat, skipped: nat,
                            rest: Evaluation)
  {
    whole == Evaluation(added + rest.added, generationCalls + rest.generationCalls, judgeCalls + rest.judgeCalls,
                        skipped + rest.skipped, rest.raised)
  }

  lemma NothingYet(whole: Evaluation)
    ensures Continues(whole, [], 0, 0, 0, whole)
  {
    assert [] + whole.added == whole.added;
  }

  lemma OneRound(whole: Evaluation, added: seq<Row>, generationCalls: nat, judgeCalls: nat, skipped: nat, setup: Setup,
                 prior: seq<Row>, resume: bool, failFast: bool, cases: seq<Case>, attempts: nat -> Attempt, i: nat)
    requires i < |cases|
    requires Continues(whole, added, generationCalls, judgeCalls, skipped,
                       Evaluate(setup, prior, resume, failFast, cases[i..], attempts, i))
    ensures var rows := CaseRows(setup, prior, resume, cases[i], attempts(i));
            var calls := CaseCalls(setup, prior, resume, cases[i], attempts(i));
            var skip := if Done(setup, prior, resume, cases[i]).Some? then 1 else 0;
            if failFast && CaseFails(setup, prior, resume, cases[i], attempts(i)) then
              whole == Evaluation(added + rows, generationCalls + calls.0, judgeCalls + calls.1, skipped + skip, true)
            else
              Continues(whole, added + rows, generationCalls + calls.0, judgeCalls + calls.1, skipped + skip,
                        Evaluate(setup, prior + rows, resume, failFast, cases[i + 1..], attempts, i + 1))
  {
    hide CaseRows, CaseCalls, CaseFails, Done;
    var rows := CaseRows(setup, prior, resume, cases[i], attempts(i));
    assert cases[i..][0] == cases[i] && cases[i..][1..] == cases[i + 1..];
    var rest := Evaluate(setup, prior + rows, resume, failFast, cases[i + 1..], attempts, i + 1);
    assert added + (rows + rest.added) == added + rows + rest.added;
  }

  lemma Finished(whole: Evaluation, added: seq<Row>, generationCalls: nat, judgeCalls: nat, skipped: nat, setup: Setup,
                 prior: seq<Row>, resume: bool, failFast: bool, attempts: nat -> Attempt, k: nat)
    requires Continues(whole, added, generationCalls, judgeCalls, skipped,
                       Evaluate(setup, prior, resume, failFast, [], attempts, k))
    ensures whole == Evaluation(added, generationCalls, judgeCalls, skipped, false)
  {
    assert added + [] == added;
  }

  // ---------------------------------------------------------------- the invariant of the log

  /** What every row says by itself: a completed row is labelled with the judge its key was made from. */
  ghost predicate Honest(row: Row) {
    && row.identity == IdentityOf(row.answerKey)
    && (row.status.AnswerCompleted? ==> row.answer.Some?)
    && (row.status.Completed? ==>
          && row.answer.Some? && row.judgeKey.Some?
          && row.judgeKey.value.answer == row.answer.value
          && row.judgeKey.value.model == row.judgeModel
          && row.judgeKey.value.endpoint == row.judgeEndpoint)
  }

  /** What two rows say together. */
  ghost predicate Compatible(a: Row, b: Row) {
    a.answerKey == b.answerKey ==>
      && !(a.status.AnswerCompleted? && b.status.AnswerCompleted?)
      && (a.answer.Some? && b.answer.Some? ==> a.answer == b.answer)
      && !(a.status.Completed? && b.status.Completed? && a.judgeKey == b.judgeKey)
  }

  /** One generated answer per answer key, one answer text, one completed judgement per pair of keys. */
  ghost predicate LogInv(rows: seq<Row>) {
    && (forall row :: row in rows ==> Honest(row))
    && (forall i, j :: 0 <= i < j < |rows| ==> Compatible(rows[i], rows[j]))
  }

  lemma AppendKeeps(rows: seq<Row>, row: Row)
    requires LogInv(rows) && Honest(row) && forall r :: r in rows ==> Compatible(r, row)
    ensures LogInv(rows + [row])
  {
    hide Honest, Compatible;
    var all := rows + [row];
    forall i, j | 0 <= i < j < |all| ensures Compatible(all[i], all[j]) {
      if j == |rows| {
        assert all[i] in rows;
      }
    }
  }

  /** A log cut off by a crash is as good as the whole. */
  lemma PrefixKeeps(rows: seq<Row>, n: nat)
    requires LogInv(rows) && n <= |rows|
    ensures LogInv(rows[..n])
  {
    hide Honest, Compatible;
  }

  lemma NoneCarries(rows: seq<Row>, key: AnswerKey, row: Row)
    requires LogInv(rows) && row.answerKey == key && forall r :: r in rows ==> !Carries(r, key)
    ensures forall r :: r in rows ==> Compatible(r, row)
  {
    forall r | r in rows ensures Compatible(r, row) {
      assert Honest(r);
    }
  }

  /** A judgement of an answer that the log already holds. */
  lemma ClosingCompatible(setup: Setup, spec: Case, rows: seq<Row>, record: Row, attempt: Attempt)
    requires LogInv(rows) && record in rows && Carries(record, KeyOf(setup, spec))
    requires FindCompleted(rows, KeyOf(setup, spec), JudgeKeyOf(setup, spec, record.answer.value)).None?
    ensures LogInv(rows + [Closing(setup, spec, record, attempt)])
  {
    hide FindCompleted;
    var row := Closing(setup, spec, record, attempt);
    forall r | r in rows ensures Compatible(r, row) {
      if Carries(r, KeyOf(setup, spec)) {
        SameText(rows, r, record);
      }
      assert !Completes(r, KeyOf(setup, spec), JudgeKeyOf(setup, spec, record.answer.value));
    }
    assert Honest(record);
    hide Compatible, Closing;
    AppendKeeps(rows, row);
  }

  lemma SameText(rows: seq<Row>, a: Row, b: Row)
    requires LogInv(rows) && a in rows && b in rows && a.answerKey == b.answerKey && a.answer.Some? && b.answer.Some?
    ensures a.answer == b.answer
  {
    var i :| 0 <= i < |rows| && rows[i] == a;
    var j :| 0 <= j < |rows| && rows[j] == b;
    assert i < j ==> Compatible(rows[i], rows[j]);
    assert j < i ==> Compatible(rows[j], rows[i]);
  }

  /** The branch that relabels a completed row with another judge is never taken. */
  lemma NeverRelabelled(setup: Setup, prior: seq<Row>, resume: bool, spec: Case)
    requires LogInv(prior)
    ensures var done := Done(setup, prior, resume, spec); done.Some? ==> JudgedBy(done.value, setup)
  {
    hide FindAnswer, FindCompleted;
    var done := Done(setup, prior, resume, spec);
    if done.Some? {
      assert done.value in prior && Honest(done.value);
    }
  }

  predicate Unseen(rows: seq<Row>, key: AnswerKey) {
    forall row :: row in rows ==> row.answerKey != key
  }

  lemma FreshKeeps(setup: Setup, prior: seq<Row>, spec: Case, attempt: Attempt)
    requires LogInv(prior) && attempt.answer.Some?
    requires forall r :: r in prior ==> !Carries(r, KeyOf(setup, spec))
    ensures var record := Fresh(setup, spec, attempt.answer, AnswerCompleted);
            LogInv(prior + [record] + [Closing(setup, spec, record, attempt)])
  {
    hide FindCompleted, Closing, Compatible;
    var key, record := KeyOf(setup, spec), Fresh(setup, spec, attempt.answer, AnswerCompleted);
    NoneCarries(prior, key, record);
    AppendKeeps(prior, record);
    var judge := JudgeKeyOf(setup, spec, record.answer.value);
    forall r | r in prior + [record] ensures !Completes(r, key, judge) {
      assert Honest(r);
    }
    ClosingCompatible(setup, spec, prior + [record], record, attempt);
  }

  /** A failure without an answer is compatible with anything. */
  lemma FailureKeeps(setup: Setup, prior: seq<Row>, spec: Case)
    requires LogInv(prior)
    ensures LogInv(prior + [Fresh(setup, spec, None, Failed)])
  {
    AppendKeeps(prior, Fresh(setup, spec, None, Failed));
  }

  lemma CaseKeeps(setup: Setup, prior: seq<Row>, resume: bool, spec: Case, attempt: Attempt)
    requires LogInv(prior) && (resume || Unseen(prior, KeyOf(setup, spec)))
    ensures LogInv(prior + CaseRows(setup, prior, resume, spec, attempt))
  {
    hide LogInv, FindAnswer, FindCompleted, Closing;
    var key, cached := KeyOf(setup, spec), Cached(prior, resume, KeyOf(setup, spec));
    NeverRelabelled(setup, prior, resume, spec);
    if Done(setup, prior, resume, spec).Some? {
      assert prior + [] == prior;
    } else if cached.Some? {
      ClosingCompatible(setup, spec, prior, cached.value, attempt);
    } else if attempt.answer.None? {
      FailureKeeps(setup, prior, spec);
    } else {
      FreshKeeps(setup, prior, spec, attempt);
      var record := Fresh(setup, spec, attempt.answer, AnswerCompleted);
      var last := Closing(setup, spec, record, attempt);
      assert prior + [record] + [last] == prior + [record, last];
    }
  }

  /** A case only appends rows under its own answer key. */
  lemma CaseRowsKey(setup: Setup, prior: seq<Row>, resume: bool, spec: Case, attempt: Attempt)
    ensures forall row :: row in CaseRows(setup, prior, resume, spec, attempt) ==> row.answerKey == KeyOf(setup, spec)
  {
    hide FindAnswer, FindCompleted;
  }

  ghost predicate DistinctIds(cases: seq<Case>) {
    forall i, j :: 0 <= i < j < |cases| ==> cases[i].id != cases[j].id
  }

  ghost predicate AllUnseen(setup: Setup, rows: seq<Row>, cases: seq<Case>) {
    forall c :: c in cases ==> Unseen(rows, KeyOf(setup, c))
  }

  /** The log of an invocation that resumes, or that starts under keys nobody has used. */
  lemma {:induction false} EvaluateKeeps(setup: Setup, prior: seq<Row>, resume: bool, failFast: bool, cases: seq<Case>,
                                         attempts: nat -> Attempt, k: nat)
    requires LogInv(prior) && (resume || (DistinctIds(cases) && AllUnseen(setup, prior, cases)))
    ensures LogInv(prior + Evaluate(setup, prior, resume, failFast, cases, attempts, k).added)
    decreases |cases|
  {
    hide LogInv, CaseRows, CaseFails, CaseCalls, Done;
    if cases == [] {
      assert prior + [] == prior;
    } else {
      var rows := CaseRows(setup, prior, resume, cases[0], attempts(k));
      CaseKeeps(setup, prior, resume, cases[0], attempts(k));
      CaseRowsKey(setup, prior, resume, cases[0], attempts(k));
      EvaluateKeeps(setup, prior + rows, resume, failFast, cases[1..], attempts, k + 1);
      var rest := Evaluate(setup, prior + rows, resume, failFast, cases[1..], attempts, k + 1).added;
      assert prior + rows + rest == prior + (rows + rest);
    }
  }

  // ---------------------------------------------------------------- without --resume

  predicate Succeeds(attempt: Attempt) {
    attempt.answer.Some? && attempt.scores && attempt.judged
  }

  ghost predicate Carried(rows: seq<Row>, key: AnswerKey) {
    exists row :: row in rows && Carries(row, key)
  }

  ghost predicate Generated(rows: seq<Row>, key: AnswerKey) {
    exists row :: row in rows && row.answerKey == key && row.status.AnswerCompleted?
  }

  /** Every answer in the log was generated there, in a row of its own. */
  ghost predicate Grounded(rows: seq<Row>) {
    forall i :: 0 <= i < |rows| && rows[i].answer.Some? ==> Generated(rows[..i + 1], rows[i].answerKey)
  }

  lemma GroundedAppend(rows: seq<Row>, row: Row)
    requires Grounded(rows)
    requires row.answer.Some? ==> row.status.AnswerCompleted? || Generated(rows, row.answerKey)
    ensures Grounded(rows + [row])
  {
    hide Generated;
    var all := rows + [row];
    forall i | 0 <= i < |all| && all[i].answer.Some? ensures Generated(all[..i + 1], all[i].answerKey) {
      if i < |rows| {
        assert all[..i + 1] == rows[..i + 1];
      } else {
        assert all[..i + 1] == all;
        GeneratedIn(rows, row);
      }
    }
  }

  lemma GeneratedIn(rows: seq<Row>, row: Row)
    requires row.status.AnswerCompleted? || Generated(rows, row.answerKey)
    ensures Generated(rows + [row], row.answerKey)
  {
    assert (rows + [row])[|rows|] == row;
    assert forall r :: r in rows ==> r in rows + [row];
  }

  lemma GroundedPrefix(rows: seq<Row>, n: nat)
    requires Grounded(rows) && n <= |rows|
    ensures Grounded(rows[..n])
  {
    hide Generated;
    forall i | 0 <= i < n && rows[..n][i].answer.Some? ensures Generated(rows[..n][..i + 1], rows[..n][i].answerKey) {
      assert rows[..n][..i + 1] == rows[..i + 1];
    }
  }

  lemma CarriedIsGenerated(rows: seq<Row>, key: AnswerKey)
    requires Grounded(rows) && Carried(rows, key)
    ensures Generated(rows, key)
  {
    var row :| row in rows && Carries(row, key);
    var i :| 0 <= i < |rows| && rows[i] == row;
    assert Generated(rows[..i + 1], key);
    var g :| g in rows[..i + 1] && g.answerKey == key && g.status.AnswerCompleted?;
    assert g in rows;
  }

  /** Every invocation leaves a grounded log grounded, resuming or not. */
  lemma CaseGrounded(setup: Setup, log: seq<Row>, prior: seq<Row>, resume: bool, spec: Case, attempt: Attempt)
    requires Grounded(log) && (resume ==> prior == log)
    ensures Grounded(log + CaseRows(setup, prior, resume, spec, attempt))
  {
    hide Grounded, Generated, FindAnswer, FindCompleted;
    var key, cached := KeyOf(setup, spec), Cached(prior, resume, KeyOf(setup, spec));
    var rows := CaseRows(setup, prior, resume, spec, attempt);
    if cached.Some? {
      assert Carried(log, key);
      CarriedIsGenerated(log, key);
      if rows == [] {
        assert log + [] == log;
      } else {
        assert rows == [rows[0]] && rows[0].answerKey == key;
        GroundedAppend(log, rows[0]);
      }
    } else if attempt.answer.None? {
      GroundedAppend(log, rows[0]);
    } else {
      GroundedAppend(log, rows[0]);
      GeneratedIn(log, rows[0]);
      GroundedAppend(log + [rows[0]], rows[1]);
      assert log + [rows[0]] + [rows[1]] == log + rows;
    }
  }

  lemma {:induction false} EvaluateGrounded(setup: Setup, log: seq<Row>, prior: seq<Row>, resume: bool, failFast: bool,
                                            cases: seq<Case>, attempts: nat -> Attempt, k: nat)
    requires Grounded(log) && (resume ==> prior == log)
    ensures Grounded(log + Evaluate(setup, prior, resume, failFast, cases, attempts, k).added)
    decreases |cases|
  {
    hide Grounded, CaseRows, CaseFails, CaseCalls, Done;
    if cases == [] {
      assert log + [] == log;
    } else {
      var rows := CaseRows(setup, prior, resume, cases[0], attempts(k));
      CaseGrounded(setup, log, prior, resume, cases[0], attempts(k));
      EvaluateGrounded(setup, log + rows, prior + rows, resume, failFast, cases[1..], attempts, k + 1);
      var rest := Evaluate(setup, prior + rows, resume, failFast, cases[1..], attempts, k + 1).added;
      assert log + rows + rest == log + (rows + rest);
    }
  }

  /** A fail-fast run gets to case i only past successes. */
  ghost predicate Reached(failFast: bool, attempts: nat -> Attempt, k: nat, i: nat) {
    failFast ==> forall j: nat :: j < i ==> SucceedsAt(attempts, k, j)
  }

  predicate SucceedsAt(attempts: nat -> Attempt, k: nat, j: nat) {
    Succeeds(attempts(k + j))
  }

  ghost predicate AnsweredBefore(cases: seq<Case>, attempts: nat -> Attempt, k: nat, i: nat)
    requires i < |cases|
  {
    exists j: nat :: j < i && cases[j].id == cases[i].id && attempts(k + j).answer.Some?
  }

  /** Case i generates an answer although its key has one, in the log or since the run began. */
  ghost predicate Regenerates(setup: Setup, rows: seq<Row>, failFast: bool, cases: seq<Case>, attempts: nat -> Attempt,
                              k: nat, i: nat)
    requires i < |cases|
  {
    && Reached(failFast, attempts, k, i)
    && attempts(k + i).answer.Some?
    && (Carried(rows, KeyOf(setup, cases[i])) || AnsweredBefore(cases, attempts, k, i))
  }

  ghost predicate NeverRegenerates(setup: Setup, rows: seq<Row>, failFast: bool, cases: seq<Case>,
                                   attempts: nat -> Attempt, k: nat)
  {
    forall i: nat :: i < |cases| ==> !Regenerates(setup, rows, failFast, cases, attempts, k, i)
  }

  lemma FreshRows(setup: Setup, prior: seq<Row>, c: Case, attempt: Attempt)
    ensures var record := Fresh(setup, c, attempt.answer, AnswerCompleted);
            CaseRows(setup, prior, false, c, attempt) ==
            if attempt.answer.None? then [Fresh(setup, c, None, Failed)]
            else [record, Closing(setup, c, record, attempt)]
    ensures CaseFails(setup, prior, false, c, attempt) <==> !Succeeds(attempt)
  {
  }

  /** The rows of a case carry an answer under its own key, if it generated one. */
  lemma CarriedAfter(setup: Setup, rows: seq<Row>, prior: seq<Row>, c: Case, attempt: Attempt, other: Case)
    ensures var more := CaseRows(setup, prior, false, c, attempt);
            Carried(rows + more, KeyOf(setup, other))
            <==> Carried(rows, KeyOf(setup, other)) || (attempt.answer.Some? && c.id == other.id)
  {
    FreshRows(setup, prior, c, attempt);
    hide CaseRows;
    var more, key := CaseRows(setup, prior, false, c, attempt), KeyOf(setup, other);
    assert more[0] in more && more[0] in rows + more;
    assert forall row :: row in more ==> row.answerKey == KeyOf(setup, c) && row.answer == attempt.answer;
    assert forall row :: row in rows + more <==> row in rows || row in more;
  }

  lemma AnsweredShift(cases: seq<Case>, attempts: nat -> Attempt, k: nat, i: nat)
    requires 0 < i < |cases|
    ensures AnsweredBefore(cases, attempts, k, i)
            <==> (cases[0].id == cases[i].id && attempts(k).answer.Some?) || AnsweredBefore(cases[1..], attempts, k + 1, i - 1)
  {
    if AnsweredBefore(cases, attempts, k, i) {
      var j: nat :| j < i && cases[j].id == cases[i].id && attempts(k + j).answer.Some?;
      if j > 0 {
        assert cases[1..][j - 1] == cases[j] && k + 1 + (j - 1) == k + j;
      }
    }
    if cases[0].id == cases[i].id && attempts(k).answer.Some? {
      assert cases[0].id == cases[i].id && attempts(k + 0).answer.Some?;
    }
    if AnsweredBefore(cases[1..], attempts, k + 1, i - 1) {
      var j: nat :| j < i - 1 && cases[1..][j].id == cases[1..][i - 1].id && attempts(k + 1 + j).answer.Some?;
      assert cases[j + 1].id == cases[i].id && attempts(k + (j + 1)).answer.Some?;
    }
  }

  lemma ReachedShift(failFast: bool, attempts: nat -> Attempt, k: nat, i: nat)
    requires i > 0
    ensures Reached(failFast, attempts, k, i)
            <==> (failFast ==> Succeeds(attempts(k))) && Reached(failFast, attempts, k + 1, i - 1)
  {
    hide Succeeds;
    if failFast {
      if Reached(failFast, attempts, k, i) {
        assert SucceedsAt(attempts, k, 0);
        var k1 := k + 1;
        forall j: nat | j < i - 1 ensures SucceedsAt(attempts, k1, j) {
          assert SucceedsAt(attempts, k, j + 1) && k1 + j == k + (j + 1);
        }
      }
      if Succeeds(attempts(k)) && Reached(failFast, attempts, k + 1, i - 1) {
        forall j: nat | j < i ensures SucceedsAt(attempts, k, j) {
          if j > 0 {
            assert SucceedsAt(attempts, k + 1, j - 1) && k + 1 + (j - 1) == k + j;
          }
        }
      }
    }
  }

  /** Case i as seen from the start, and from after the first case. */
  lemma RegeneratesShift(setup: Setup, rows: seq<Row>, prior: seq<Row>, failFast: bool, cases: seq<Case>,
                         attempts: nat -> Attempt, k: nat, i: nat)
    requires 0 < i < |cases|
    ensures var more := CaseRows(setup, prior, false, cases[0], attempts(k));
            Regenerates(setup, rows, failFast, cases, attempts, k, i)
            <==> (failFast ==> Succeeds(attempts(k))) &&
                 Regenerates(setup, rows + more, failFast, cases[1..], attempts, k + 1, i - 1)
  {
    hide CaseRows, Carried, AnsweredBefore, Reached, KeyOf, Succeeds;
    ReachedShift(failFast, attempts, k, i);
    AnsweredShift(cases, attempts, k, i);
    CarriedAfter(setup, rows, prior, cases[0], attempts(k), cases[i]);
    assert cases[1..][i - 1] == cases[i] && k + 1 + (i - 1) == k + i;
  }

  lemma NeverShift(setup: Setup, rows: seq<Row>, prior: seq<Row>, failFast: bool, cases: seq<Case>,
                   attempts: nat -> Attempt, k: nat)
    requires cases != [] && !Regenerates(setup, rows, failFast, cases, attempts, k, 0)
    ensures var more := CaseRows(setup, prior, false, cases[0], attempts(k));
            NeverRegenerates(setup, rows, failFast, cases, attempts, k)
            <==> (failFast && !Succeeds(attempts(k))) ||
                 NeverRegenerates(setup, rows + more, failFast, cases[1..], attempts, k + 1)
  {
    hide Regenerates, CaseRows, Succeeds;
    var more := CaseRows(setup, prior, false, cases[0], attempts(k));
    var goesOn := failFast ==> Succeeds(attempts(k));
    if NeverRegenerates(setup, rows, failFast, cases, attempts, k) && goesOn {
      var log, rest, k1 := rows + more, cases[1..], k + 1;
      forall i: nat | i < |rest| ensures !Regenerates(setup, log, failFast, rest, attempts, k1, i) {
        RegeneratesShift(setup, rows, prior, failFast, cases, attempts, k, i + 1);
      }
    }
    if goesOn ==> NeverRegenerates(setup, rows + more, failFast, cases[1..], attempts, k + 1) {
      forall i: nat | i < |cases| ensures !Regenerates(setup, rows, failFast, cases, attempts, k, i) {
        if i > 0 {
          RegeneratesShift(setup, rows, prior, failFast, cases, attempts, k, i);
        }
      }
    }
  }

  lemma TwoGenerated(rows: seq<Row>, more: seq<Row>, rest: seq<Row>, key: AnswerKey)
    requires Generated(rows, key) && more != [] && more[0].answerKey == key && more[0].status.AnswerCompleted?
    ensures !LogInv(rows + (more + rest))
  {
    var row :| row in rows && row.answerKey == key && row.status.AnswerCompleted?;
    var i :| 0 <= i < |rows| && rows[i] == row;
    var all := rows + (more + rest);
    assert all[i] == row && all[|rows|] == more[0];
    assert !Compatible(all[i], all[|rows|]);
  }

  /** A run that does not resume keeps the log exactly when it never generates under a key that already
      carries an answer. */
  lemma {:induction false} FreshRunIff(setup: Setup, rows: seq<Row>, prior: seq<Row>, failFast: bool, cases: seq<Case>,
                                       attempts: nat -> Attempt, k: nat)
    requires LogInv(rows) && Grounded(rows)
    ensures LogInv(rows + Evaluate(setup, prior, false, failFast, cases, attempts, k).added)
            <==> NeverRegenerates(setup, rows, failFast, cases, attempts, k)
    decreases |cases|
  {
    hide LogInv, Grounded, CaseRows, CaseFails, CaseCalls, Done, NeverRegenerates, Regenerates, Generated, Carried, Succeeds;
    if cases == [] {
      assert rows + [] == rows;
      NoCases(setup, rows, failFast, attempts, k);
    } else {
      var c, attempt := cases[0], attempts(k);
      var more := CaseRows(setup, prior, false, c, attempt);
      var rest := Evaluate(setup, prior + more, false, failFast, cases[1..], attempts, k + 1).added;
      var added := Evaluate(setup, prior, false, failFast, cases, attempts, k).added;
      FreshRows(setup, prior, c, attempt);
      FirstRegenerates(setup, rows, failFast, cases, attempts, k);
      if Regenerates(setup, rows, failFast, cases, attempts, k, 0) {
        CarriedIsGenerated(rows, KeyOf(setup, c));
        TwoGenerated(rows, more, if |added| == |more| then [] else rest, KeyOf(setup, c));
        assert more + [] == more;
        RegeneratesSome(setup, rows, failFast, cases, attempts, k, 0);
      } else {
        NeverShift(setup, rows, prior, failFast, cases, attempts, k);
        CaseGrounded(setup, rows, [], false, c, attempt);
        FreshCaseKeeps(setup, rows, prior, c, attempt);
        FreshRows(setup, [], c, attempt);
        FreshRunIff(setup, rows + more, prior + more, failFast, cases[1..], attempts, k + 1);
        assert rows + more + rest == rows + (more + rest);
      }
    }
  }

  lemma NoCases(setup: Setup, rows: seq<Row>, failFast: bool, attempts: nat -> Attempt, k: nat)
    ensures NeverRegenerates(setup, rows, failFast, [], attempts, k)
  {
  }

  lemma RegeneratesSome(setup: Setup, rows: seq<Row>, failFast: bool, cases: seq<Case>, attempts: nat -> Attempt, k: nat, i: nat)
    requires i < |cases| && Regenerates(setup, rows, failFast, cases, attempts, k, i)
    ensures !NeverRegenerates(setup, rows, failFast, cases, attempts, k)
  {
    hide Regenerates;
  }

  lemma FirstRegenerates(setup: Setup, rows: seq<Row>, failFast: bool, cases: seq<Case>, attempts: nat -> Attempt, k: nat)
    requires cases != []
    ensures Regenerates(setup, rows, failFast, cases, attempts, k, 0)
            <==> attempts(k).answer.Some? && Carried(rows, KeyOf(setup, cases[0]))
  {
    hide Carried, KeyOf;
  }

  lemma FreshCaseKeeps(setup: Setup, rows: seq<Row>, prior: seq<Row>, c: Case, attempt: Attempt)
    requires LogInv(rows) && (attempt.answer.Some? ==> !Carried(rows, KeyOf(setup, c)))
    ensures LogInv(rows + CaseRows(setup, prior, false, c, attempt))
  {
    hide LogInv, CaseRows, Fresh, Closing;
    FreshRows(setup, prior, c, attempt);
    if attempt.answer.None? {
      FailureKeeps(setup, rows, c);
    } else {
      FreshKeeps(setup, rows, c, attempt);
      var more := CaseRows(setup, prior, false, c, attempt);
      assert rows + [more[0]] + [more[1]] == rows + more;
    }
  }

  // ---------------------------------------------------------------- invocations over the life of a log

  /** One invocation, and how many of its appends reached the file before the process died, if it did. */
  datatype Invocation = Invocation(setup: Setup, resume: bool, failFast: bool, cases: seq<Case>, attempts: nat -> Attempt,
                                   survived: Option<nat>)

  function Appended(rows: seq<Row>, inv: Invocation): seq<Row> {
    Evaluate(inv.setup, if inv.resume then rows else [], inv.resume, inv.failFast, inv.cases, inv.attempts, 0).added
  }

  function After(rows: seq<Row>, inv: Invocation): seq<Row> {
    var added := Appended(rows, inv);
    rows + (if inv.survived.Some? && inv.survived.value < |added| then added[..inv.survived.value] else added)
  }

  function History(rows: seq<Row>, invs: seq<Invocation>): seq<Row>
    decreases |invs|
  {
    if invs == [] then rows else History(After(rows, invs[0]), invs[1..])
  }

  /** Every invocation resumes, or never generates under a key that already carries an answer. */
  ghost predicate Proper(rows: seq<Row>, invs: seq<Invocation>)
    decreases |invs|
  {
    invs != [] ==>
      && (invs[0].resume || Unrepeated(rows, invs[0]))
      && Proper(After(rows, invs[0]), invs[1..])
  }

  ghost predicate Unrepeated(rows: seq<Row>, inv: Invocation) {
    NeverRegenerates(inv.setup, rows, inv.failFast, inv.cases, inv.attempts, 0)
  }

  lemma AfterGrounded(rows: seq<Row>, inv: Invocation)
    requires Grounded(rows)
    ensures Grounded(After(rows, inv))
  {
    hide Grounded, Evaluate;
    var added, prior := Appended(rows, inv), if inv.resume then rows else [];
    EvaluateGrounded(inv.setup, rows, prior, inv.resume, inv.failFast, inv.cases, inv.attempts, 0);
    if inv.survived.Some? && inv.survived.value < |added| {
      GroundedPrefix(rows + added, |rows| + inv.survived.value);
      assert (rows + added)[..|rows| + inv.survived.value] == rows + added[..inv.survived.value];
    }
  }

  /** Every log there can be is grounded, whatever invocations wrote it. */
  lemma {:induction false} HistoryGrounded(rows: seq<Row>, invs: seq<Invocation>)
    requires Grounded(rows)
    ensures Grounded(History(rows, invs))
    decreases |invs|
  {
    hide Grounded, After;
    if invs != [] {
      AfterGrounded(rows, invs[0]);
      HistoryGrounded(After(rows, invs[0]), invs[1..]);
    }
  }

  lemma AfterKeeps(rows: seq<Row>, inv: Invocation)
    requires LogInv(rows) && Grounded(rows) && (inv.resume || Unrepeated(rows, inv))
    ensures LogInv(After(rows, inv))
  {
    hide LogInv, Evaluate, Grounded, NeverRegenerates;
    var added := Appended(rows, inv);
    if inv.resume {
      EvaluateKeeps(inv.setup, rows, true, inv.failFast, inv.cases, inv.attempts, 0);
    } else {
      FreshRunIff(inv.setup, rows, [], inv.failFast, inv.cases, inv.attempts, 0);
    }
    if inv.survived.Some? && inv.survived.value < |added| {
      PrefixKeeps(rows + added, |rows| + inv.survived.value);
      assert (rows + added)[..|rows| + inv.survived.value] == rows + added[..inv.survived.value];
    }
  }

  /** Over any sequence of invocations, each cut off anywhere, whatever models and manifests they use. */
  lemma {:induction false} HistoryKeeps(rows: seq<Row>, invs: seq<Invocation>)
    requires LogInv(rows) && Grounded(rows) && Proper(rows, invs)
    ensures LogInv(History(rows, invs))
    decreases |invs|
  {
    hide LogInv, After, Grounded, Unrepeated;
    if invs != [] {
      AfterKeeps(rows, invs[0]);
      AfterGrounded(rows, invs[0]);
      HistoryKeeps(After(rows, invs[0]), invs[1..]);
    }
  }

  /** On any log reached from an empty one that is still in order, an invocation that does not resume and is not
      cut off keeps it in order exactly when it never generates under a key that already carries an answer. */
  lemma FreshInvocationIff(invs: seq<Invocation>, inv: Invocation)
    requires LogInv(History([], invs)) && !inv.resume && inv.survived.None?
    ensures LogInv(After(History([], invs), inv)) <==> Unrepeated(History([], invs), inv)
  {
    hide LogInv, Evaluate, Grounded, NeverRegenerates, History;
    EmptyGrounded();
    HistoryGrounded([], invs);
    FreshRunIff(inv.setup, History([], invs), [], inv.failFast, inv.cases, inv.attempts, 0);
  }

  lemma EmptyGrounded()
    ensures Grounded([]) && LogInv([])
  {
  }

  // ---------------------------------------------------------------- completed cases cost nothing

  /** The log holds a completed judgement of the case's answer by this run's judge. */
  ghost predicate CompletedFor(setup: Setup, rows: seq<Row>, spec: Case) {
    exists row :: row in rows && row.answer.Some? &&
                  Completes(row, KeyOf(setup, spec), JudgeKeyOf(setup, spec, row.answer.value))
  }

  lemma CompletedIsDone(setup: Setup, rows: seq<Row>, spec: Case)
    requires LogInv(rows)
    ensures CompletedFor(setup, rows, spec) <==> Done(setup, rows, true, spec).Some?
  {
    hide FindAnswer, FindCompleted, LogInv;
    var key := KeyOf(setup, spec);
    if CompletedFor(setup, rows, spec) {
      var row :| row in rows && row.answer.Some? && Completes(row, key, JudgeKeyOf(setup, spec, row.answer.value));
      assert Carries(row, key);
      SameText(rows, row, FindAnswer(rows, key).value);
    }
    var done := Done(setup, rows, true, spec);
    if done.Some? {
      DoneCompletes(setup, rows, spec);
    }
  }

  lemma DoneCompletes(setup: Setup, rows: seq<Row>, spec: Case)
    requires LogInv(rows) && Done(setup, rows, true, spec).Some?
    ensures CompletedFor(setup, rows, spec)
  {
    hide FindAnswer, FindCompleted;
    var row := Done(setup, rows, true, spec).value;
    assert row in rows && Honest(row);
  }

  /** Once every case is completed for a judge, a resumed run calls nobody and appends nothing. */
  lemma {:induction false} CompletedRunIsQuiet(setup: Setup, rows: seq<Row>, failFast: bool, cases: seq<Case>,
                                               attempts: nat -> Attempt, k: nat)
    requires LogInv(rows) && forall c :: c in cases ==> CompletedFor(setup, rows, c)
    ensures Evaluate(setup, rows, true, failFast, cases, attempts, k) == Evaluation([], 0, 0, |cases|, false)
    decreases |cases|
  {
    hide LogInv, CompletedFor, Done;
    if cases != [] {
      CompletedIsDone(setup, rows, cases[0]);
      NeverRelabelled(setup, rows, true, cases[0]);
      assert rows + [] == rows;
      CompletedRunIsQuiet(setup, rows, failFast, cases[1..], attempts, k + 1);
    }
  }

  lemma CompletedSurvives(setup: Setup, rows: seq<Row>, more: seq<Row>, spec: Case)
    requires CompletedFor(setup, rows, spec)
    ensures CompletedFor(setup, rows + more, spec)
  {
    var row :| row in rows && row.answer.Some? &&
               Completes(row, KeyOf(setup, spec), JudgeKeyOf(setup, spec, row.answer.value));
    assert row in rows + more;
  }

  /** A case that does not fail is completed, whether it was skipped, judged or generated. */
  lemma CaseCompletes(setup: Setup, prior: seq<Row>, spec: Case, attempt: Attempt)
    requires LogInv(prior) && !CaseFails(setup, prior, true, spec, attempt)
    ensures CompletedFor(setup, prior + CaseRows(setup, prior, true, spec, attempt), spec)
  {
    hide FindAnswer, FindCompleted, LogInv;
    var done := Done(setup, prior, true, spec);
    var rows := CaseRows(setup, prior, true, spec, attempt);
    if done.Some? {
      DoneCompletes(setup, prior, spec);
      CompletedSurvives(setup, prior, rows, spec);
    } else {
      var last := rows[|rows| - 1];
      assert last in rows;
      assert Completes(last, KeyOf(setup, spec), JudgeKeyOf(setup, spec, last.answer.value));
    }
  }

  /** A resumed run in which nothing fails completes every case. */
  lemma {:induction false} SuccessfulRunCompletes(setup: Setup, rows: seq<Row>, failFast: bool, cases: seq<Case>,
                                                  attempts: nat -> Attempt, k: nat, c: Case)
    requires LogInv(rows) && c in cases && forall i :: Succeeds(attempts(i))
    ensures CompletedFor(setup, rows + Evaluate(setup, rows, true, failFast, cases, attempts, k).added, c)
    decreases |cases|
  {
    hide LogInv, CompletedFor, CaseRows, CaseCalls, Done;
    var added := CaseRows(setup, rows, true, cases[0], attempts(k));
    assert Succeeds(attempts(k));
    CaseKeeps(setup, rows, true, cases[0], attempts(k));
    var rest := Evaluate(setup, rows + added, true, failFast, cases[1..], attempts, k + 1).added;
    assert rows + added + rest == rows + (added + rest);
    if c == cases[0] {
      CaseCompletes(setup, rows, c, attempts(k));
      CompletedSurvives(setup, rows + added, rest, c);
    } else {
      SuccessfulRunCompletes(setup, rows + added, failFast, cases[1..], attempts, k + 1, c);
    }
  }

  /** ... so that resuming it once more is free. */
  lemma RerunIsFree(setup: Setup, rows: seq<Row>, failFast: bool, cases: seq<Case>, attempts: nat -> Attempt,
                    again: nat -> Attempt)
    requires LogInv(rows) && forall i :: Succeeds(attempts(i))
    ensures var log := rows + Evaluate(setup, rows, true, failFast, cases, attempts, 0).added;
            Evaluate(setup, log, true, failFast, cases, again, 0) == Evaluation([], 0, 0, |cases|, false)
  {
    hide LogInv, CompletedFor, Evaluate;
    var log := rows + Evaluate(setup, rows, true, failFast, cases, attempts, 0).added;
    EvaluateKeeps(setup, rows, true, failFast, cases, attempts, 0);
    forall c | c in cases ensures CompletedFor(setup, log, c) {
      SuccessfulRunCompletes(setup, rows, failFast, cases, attempts, 0, c);
    }
    CompletedRunIsQuiet(setup, log, failFast, cases, again, 0);
  }

  /** A completed row is appended only for a case whose answer was scored and judged. */
  lemma CompletedOnlyWhenJudged(setup: Setup, prior: seq<Row>, resume: bool, spec: Case, attempt: Attempt, row: Row)
    requires LogInv(prior) && row in CaseRows(setup, prior, resume, spec, attempt) && row.status.Completed?
    ensures attempt.scores && attempt.judged && row.answer.Some? && JudgedBy(row, setup)
    ensures Completes(row, KeyOf(setup, spec), JudgeKeyOf(setup, spec, row.answer.value))
    ensures row.answer == if Cached(prior, resume, KeyOf(setup, spec)).Some?
                          then Cached(prior, resume, KeyOf(setup, spec)).value.answer else attempt.answer
  {
    hide FindAnswer, FindCompleted, LogInv;
    NeverRelabelled(setup, prior, resume, spec);
  }

  /** The cases for which the log holds no answer. */
  function Unanswered(setup: Setup, rows: seq<Row>, cases: seq<Case>): seq<Case> {
    if cases == [] then []
    else (if FindAnswer(rows, KeyOf(setup, cases[0])).None? then [cases[0]] else []) + Unanswered(setup, rows, cases[1..])
  }

  lemma {:induction false} OtherKeysIrrelevant(setup: Setup, rows: seq<Row>, more: seq<Row>, cases: seq<Case>)
    requires forall c, row :: c in cases && row in more ==> row.answerKey != KeyOf(setup, c)
    ensures Unanswered(setup, rows + more, cases) == Unanswered(setup, rows, cases)
  {
    hide FindAnswer, KeyOf;
    if cases != [] {
      var key := KeyOf(setup, cases[0]);
      assert cases[0] in cases;
      assert (exists row :: row in rows + more && Carries(row, key)) <==> (exists row :: row in rows && Carries(row, key));
      OtherKeysIrrelevant(setup, rows, more, cases[1..]);
    }
  }

  /** A resumed run that goes through to the end generates for exactly the cases without an answer, however
      often they have been judged or have failed. */
  lemma {:induction false} GeneratesForUnanswered(setup: Setup, rows: seq<Row>, cases: seq<Case>,
                                                  attempts: nat -> Attempt, k: nat)
    requires DistinctIds(cases)
    ensures Evaluate(setup, rows, true, false, cases, attempts, k).generationCalls == |Unanswered(setup, rows, cases)|
    decreases |cases|
  {
    hide FindAnswer, FindCompleted, CaseRows, CaseFails;
    if cases != [] {
      var added := CaseRows(setup, rows, true, cases[0], attempts(k));
      CaseRowsKey(setup, rows, true, cases[0], attempts(k));
      GeneratesForUnanswered(setup, rows + added, cases[1..], attempts, k + 1);
      OtherKeysIrrelevant(setup, rows, added, cases[1..]);
    }
  }

  // ---------------------------------------------------------------- the two limits of the cache

  lemma EvaluateOne(setup: Setup, prior: seq<Row>, resume: bool, c: Case, attempts: nat -> Attempt)
    ensures Evaluate(setup, prior, resume, false, [c], attempts, 0).added
            == CaseRows(setup, prior, resume, c, attempts(0))
  {
    hide CaseRows, CaseCalls, CaseFails, Done;
    var rows := CaseRows(setup, prior, resume, c, attempts(0));
    assert [c][1..] == [] && rows + [] == rows;
  }

  /** Without --resume a second invocation generates again under the same key. */
  lemma FreshRunRepeats(setup: Setup, c: Case, text: string)
    ensures var inv := Invocation(setup, false, false, [c], (_: nat) => Attempt(Some(text), true, true), None);
            LogInv(History([], [inv])) && !LogInv(History([], [inv, inv]))
  {
    var attempt := Attempt(Some(text), true, true);
    var attempts: nat -> Attempt := (_: nat) => attempt;
    var inv := Invocation(setup, false, false, [c], attempts, None);
    var record := Fresh(setup, c, Some(text), AnswerCompleted);
    var rows := CaseRows(setup, [], false, c, attempt);
    assert rows[0] == record;
    hide CaseRows, LogInv, Evaluate;
    EvaluateOne(setup, [], false, c, attempts);
    assert [] + rows == rows;
    assert After([], inv) == rows && After(rows, inv) == rows + rows;
    assert [inv, inv][1..] == [inv] && [inv][1..] == [];
    assert History([], [inv]) == History(rows, []) == rows;
    assert History([], [inv, inv]) == History(rows, [inv]) == History(rows + rows, []) == rows + rows;
    EvaluateKeeps(setup, [], false, false, [c], attempts, 0);
    Twice(rows, record);
  }

  lemma Twice(rows: seq<Row>, record: Row)
    requires rows != [] && rows[0] == record && record.status.AnswerCompleted?
    ensures !LogInv(rows + rows)
  {
    var all := rows + rows;
    assert all[0] == record && all[|rows|] == record;
    assert !Compatible(all[0], all[|rows|]);
  }

  // ---------------------------------------------------------------- the report

  /** Identities in the order in which they first appear. */
  function FirstSeen(rows: seq<Row>): (ids: seq<Identity>)
    ensures forall id :: id in ids <==> exists row :: row in rows && row.identity == id
  {
    if rows == [] then []
    else
      var ids := FirstSeen(rows[..|rows| - 1]);
      var last := rows[|rows| - 1];
      assert forall row :: row in rows <==> row == last || row in rows[..|rows| - 1];
      if last.identity in ids then ids else ids + [last.identity]
  }

  /** The last row of an identity. */
  function Latest(rows: seq<Row>, id: Identity): (r: Option<Row>)
    ensures r.None? <==> forall row :: row in rows ==> row.identity != id
    ensures r.Some? ==> r.value in rows && r.value.identity == id
  {
    if rows == [] then None
    else if rows[|rows| - 1].identity == id then Some(rows[|rows| - 1])
    else
      assert rows == rows[..|rows| - 1] + [rows[|rows| - 1]];
      Latest(rows[..|rows| - 1], id)
  }

  ghost predicate LastOf(rows: seq<Row>, id: Identity, i: nat) {
    i < |rows| && rows[i].identity == id && forall j :: i < j < |rows| ==> rows[j].identity != id
  }

  lemma {:induction false} LatestIsLast(rows: seq<Row>, id: Identity, i: nat)
    requires LastOf(rows, id, i)
    ensures Latest(rows, id) == Some(rows[i])
  {
    if i < |rows| - 1 {
      LatestIsLast(rows[..|rows| - 1], id, i);
    }
  }

  /** latest_results: one row per identity, its last, in order of first appearance. */
  method LatestResults(rows: seq<Row>) returns (results: seq<Row>)
    ensures |results| == |FirstSeen(rows)|
    ensures forall k :: 0 <= k < |results| ==> Latest(rows, FirstSeen(rows)[k]) == Some(results[k])
  {
    hide Latest, FirstSeen, Holds;
    var latest: map<Identity, Row> := map[];
    var order: seq<Identity> := [];
    assert rows[..0] == [];
    NoneSeen();
    for i := 0 to |rows|
      invariant order == FirstSeen(rows[..i]) && Holds(rows[..i], order, latest)
    {
      var row := rows[i];
      assert rows[..i + 1][..i] == rows[..i] && rows[..i + 1][i] == row;
      FirstSeenStep(rows[..i + 1]);
      ghost var before := order;
      if row.identity !in order {
        order := order + [row.identity];
      }
      HoldsStep(rows[..i + 1], before, order, latest);
      latest := latest[row.identity := row];
    }
    assert rows[..|rows|] == rows;
    results := [];
    for k := 0 to |order|
      invariant |results| == k
      invariant forall j :: 0 <= j < k ==> Latest(rows, order[j]) == Some(results[j])
    {
      HoldsAt(rows, order, latest, k);
      results := results + [latest[order[k]]];
    }
  }

  /** The dictionary has the last row of every identity seen. */
  ghost predicate Holds(rows: seq<Row>, order: seq<Identity>, latest: map<Identity, Row>) {
    forall id :: id in order ==> id in latest && Latest(rows, id) == Some(latest[id])
  }

  lemma HoldsStep(rows: seq<Row>, before: seq<Identity>, order: seq<Identity>, latest: map<Identity, Row>)
    requires rows != [] && Holds(rows[..|rows| - 1], before, latest)
    requires var last := rows[|rows| - 1].identity; order == if last in before then before else before + [last]
    ensures Holds(rows, order, latest[rows[|rows| - 1].identity := rows[|rows| - 1]])
  {
    hide Latest;
    LatestStep(rows);
  }

  lemma HoldsAt(rows: seq<Row>, order: seq<Identity>, latest: map<Identity, Row>, k: nat)
    requires Holds(rows, order, latest) && k < |order|
    ensures order[k] in latest && Latest(rows, order[k]) == Some(latest[order[k]])
  {
    hide Latest;
    assert order[k] in order;
  }

  lemma FirstSeenStep(rows: seq<Row>)
    requires rows != []
    ensures var ids, last := FirstSeen(rows[..|rows| - 1]), rows[|rows| - 1].identity;
            FirstSeen(rows) == if last in ids then ids else ids + [last]
  {
  }

  lemma NoneSeen()
    ensures FirstSeen([]) == [] && Holds([], [], map[])
  {
  }

  lemma LatestStep(rows: seq<Row>)
    requires rows != []
    ensures forall id :: Latest(rows, id) ==
                         if rows[|rows| - 1].identity == id then Some(rows[|rows| - 1]) else Latest(rows[..|rows| - 1], id)
  {
  }

  /** The report has one line per identity, and lines stand in order of first appearance. */
  lemma {:induction false} FirstSeenOrder(rows: seq<Row>, a: nat, b: nat)
    requires a < b < |FirstSeen(rows)|
    ensures var ids := FirstSeen(rows);
            exists i :: 0 <= i < |rows| && rows[i].identity == ids[a] &&
                        forall j :: 0 <= j <= i ==> rows[j].identity != ids[b]
  {
    var head := rows[..|rows| - 1];
    var ids := FirstSeen(head);
    if b < |ids| {
      FirstSeenOrder(head, a, b);
      var i :| 0 <= i < |head| && head[i].identity == ids[a] && forall j :: 0 <= j <= i ==> head[j].identity != ids[b];
      assert rows[i] == head[i] && forall j :: 0 <= j <= i ==> rows[j] == head[j];
    } else {
      assert ids[a] in ids;
      var row :| row in head && row.identity == ids[a];
      var i :| 0 <= i < |head| && head[i] == row;
      forall j | 0 <= j <= i ensures rows[j].identity != FirstSeen(rows)[b] {
        assert rows[j] == head[j] && head[j] in head;
      }
    }
  }

  /** The report shows a failure for the identity. */
  predicate ReportFailed(rows: seq<Row>, id: Identity) {
    var last := Latest(rows, id);
    last.Some? && last.value.status.Failed?
  }

  /** The last row a case appends carries its identity, and says whether it failed. */
  lemma LastRow(setup: Setup, rows: seq<Row>, c: Case, attempt: Attempt)
    requires LogInv(rows) && Done(setup, rows, true, c).None?
    ensures var more := CaseRows(setup, rows, true, c, attempt);
            && more != []
            && more[|more| - 1].identity == IdentityOf(KeyOf(setup, c))
            && (more[|more| - 1].status.Failed? <==> CaseFails(setup, rows, true, c, attempt))
  {
    hide LogInv, FindAnswer, FindCompleted;
    var cached := Cached(rows, true, KeyOf(setup, c));
    if cached.Some? {
      InLogHonest(rows, cached.value);
    }
  }

  lemma LatestOfMore(rows: seq<Row>, more: seq<Row>, id: Identity)
    requires more != [] && more[|more| - 1].identity == id
    ensures Latest(rows + more, id) == Some(more[|more| - 1])
  {
    assert (rows + more)[|rows + more| - 1] == more[|more| - 1];
  }

  /** After one resumed case the report shows a failure exactly when the case failed now, or was skipped while
      the report showed one. */
  lemma CaseReport(setup: Setup, rows: seq<Row>, c: Case, attempt: Attempt)
    requires LogInv(rows)
    ensures ReportFailed(rows + CaseRows(setup, rows, true, c, attempt), IdentityOf(KeyOf(setup, c)))
            <==> || CaseFails(setup, rows, true, c, attempt)
                 || (Done(setup, rows, true, c).Some? && ReportFailed(rows, IdentityOf(KeyOf(setup, c))))
  {
    hide LogInv, Latest, CaseRows, CaseFails;
    var more := CaseRows(setup, rows, true, c, attempt);
    if Done(setup, rows, true, c).Some? {
      NeverRelabelled(setup, rows, true, c);
      SkippedRows(setup, rows, c, attempt);
      assert rows + [] == rows;
    } else {
      LastRow(setup, rows, c, attempt);
      LatestOfMore(rows, more, IdentityOf(KeyOf(setup, c)));
    }
  }

  lemma SkippedRows(setup: Setup, rows: seq<Row>, c: Case, attempt: Attempt)
    requires var done := Done(setup, rows, true, c); done.Some? && JudgedBy(done.value, setup)
    ensures CaseRows(setup, rows, true, c, attempt) == [] && !CaseFails(setup, rows, true, c, attempt)
  {
    hide Done;
  }

  lemma ScansStep(rows: seq<Row>, row: Row, key: AnswerKey, judge: JudgeKey, id: Identity)
    requires row.answerKey != key && row.identity != id
    ensures FindAnswer(rows + [row], key) == FindAnswer(rows, key)
    ensures FindCompleted(rows + [row], key, judge) == FindCompleted(rows, key, judge)
    ensures Latest(rows + [row], id) == Latest(rows, id)
  {
    var all := rows + [row];
    assert all[..|all| - 1] == rows && all[|all| - 1] == row;
  }

  lemma {:induction false} OtherRowsIrrelevant(rows: seq<Row>, more: seq<Row>, key: AnswerKey, judge: JudgeKey, id: Identity)
    requires forall row :: row in more ==> row.answerKey != key && row.identity != id
    ensures FindAnswer(rows + more, key) == FindAnswer(rows, key)
    ensures FindCompleted(rows + more, key, judge) == FindCompleted(rows, key, judge)
    ensures Latest(rows + more, id) == Latest(rows, id)
    decreases |more|
  {
    hide FindAnswer, FindCompleted, Latest;
    if more == [] {
      assert rows + more == rows;
    } else {
      var n := |more| - 1;
      assert rows + more == rows + more[..n] + [more[n]] && more[n] in more;
      ScansStep(rows + more[..n], more[n], key, judge, id);
      OtherRowsIrrelevant(rows, more[..n], key, judge, id);
    }
  }

  /** The rows of a run belong to its cases. */
  lemma {:induction false} RunRows(setup: Setup, rows: seq<Row>, failFast: bool, cases: seq<Case>, attempts: nat -> Attempt, k: nat)
    requires LogInv(rows)
    ensures forall row :: row in Evaluate(setup, rows, true, failFast, cases, attempts, k).added ==>
              exists c :: c in cases && row.answerKey == KeyOf(setup, c) && row.identity == IdentityOf(KeyOf(setup, c))
    decreases |cases|
  {
    hide LogInv, CaseRows, CaseFails, CaseCalls, Done;
    if cases != [] {
      var c := cases[0];
      var more := CaseRows(setup, rows, true, c, attempts(k));
      CaseKeeps(setup, rows, true, c, attempts(k));
      CaseRowsKey(setup, rows, true, c, attempts(k));
      forall row | row in more ensures row.identity == IdentityOf(KeyOf(setup, c)) {
        InLogHonest(rows + more, row);
      }
      RunRows(setup, rows + more, failFast, cases[1..], attempts, k + 1);
    }
  }

  /** Rows of other cases change neither what a case starts from nor its line in the report. */
  lemma OtherCases(setup: Setup, rows: seq<Row>, more: seq<Row>, c: Case, attempt: Attempt)
    requires forall row :: row in more ==> row.answerKey != KeyOf(setup, c) && row.identity != IdentityOf(KeyOf(setup, c))
    ensures Done(setup, rows + more, true, c) == Done(setup, rows, true, c)
    ensures CaseFails(setup, rows + more, true, c, attempt) == CaseFails(setup, rows, true, c, attempt)
    ensures ReportFailed(rows + more, IdentityOf(KeyOf(setup, c))) == ReportFailed(rows, IdentityOf(KeyOf(setup, c)))
  {
    hide FindAnswer, FindCompleted, Latest, JudgeKeyOf, KeyOf, IdentityOf;
    var key, id := KeyOf(setup, c), IdentityOf(KeyOf(setup, c));
    var cached := FindAnswer(rows, key);
    var judge := JudgeKeyOf(setup, c, if cached.Some? then cached.value.answer.value else "");
    OtherRowsIrrelevant(rows, more, key, judge, id);
  }

  /** The report after a resumed run, case by case. */
  lemma {:induction false} RunReport(setup: Setup, rows: seq<Row>, cases: seq<Case>, attempts: nat -> Attempt, k: nat, i: nat)
    requires LogInv(rows) && DistinctIds(cases) && i < |cases|
    ensures var id := IdentityOf(KeyOf(setup, cases[i]));
            ReportFailed(rows + Evaluate(setup, rows, true, false, cases, attempts, k).added, id)
            <==> || CaseFails(setup, rows, true, cases[i], attempts(k + i))
                 || (Done(setup, rows, true, cases[i]).Some? && ReportFailed(rows, id))
    decreases |cases|
  {
    hide LogInv, CaseRows, CaseFails, CaseCalls, Done, ReportFailed, IdentityOf;
    var c := cases[0];
    var more := CaseRows(setup, rows, true, c, attempts(k));
    var rest := Evaluate(setup, rows + more, true, false, cases[1..], attempts, k + 1).added;
    assert rows + more + rest == rows + (more + rest);
    CaseKeeps(setup, rows, true, c, attempts(k));
    CaseRowsKey(setup, rows, true, c, attempts(k));
    if i == 0 {
      CaseReport(setup, rows, c, attempts(k));
      RunRows(setup, rows + more, false, cases[1..], attempts, k + 1);
      forall row | row in rest ensures row.answerKey != KeyOf(setup, c) && row.identity != IdentityOf(KeyOf(setup, c)) {
        var d :| d in cases[1..] && row.answerKey == KeyOf(setup, d) && row.identity == IdentityOf(KeyOf(setup, d));
        ApartIdentities(setup, c, d);
      }
      OtherCases(setup, rows + more, rest, c, attempts(k));
    } else {
      RunReport(setup, rows + more, cases[1..], attempts, k + 1, i - 1);
      forall row | row in more ensures row.answerKey != KeyOf(setup, cases[i]) && row.identity != IdentityOf(KeyOf(setup, cases[i])) {
        InLogHonest(rows + more, row);
        ApartIdentities(setup, c, cases[i]);
      }
      OtherCases(setup, rows, more, cases[i], attempts(k + i));
      assert k + 1 + (i - 1) == k + i;
    }
  }

  lemma ApartIdentities(setup: Setup, c: Case, d: Case)
    requires c.id != d.id
    ensures KeyOf(setup, c) != KeyOf(setup, d) && IdentityOf(KeyOf(setup, c)) != IdentityOf(KeyOf(setup, d))
  {
  }

  /** The report goes by identity, which names neither the judge nor the configuration.  So a run with another
      judge or configuration hides a completed result exactly when its own attempt fails, or it skips the case
      while the report shows a failure; the result is still in the log, and resuming the first run changes nothing. */
  lemma FailureHidesCompletion(rows: seq<Row>, c: Case, first: Setup, second: Setup, attempts: nat -> Attempt)
    requires LogInv(rows) && CompletedFor(first, rows, c)
    requires IdentityOf(KeyOf(first, c)) == IdentityOf(KeyOf(second, c))
    ensures var log := rows + Evaluate(second, rows, true, false, [c], attempts, 0).added;
            && CompletedFor(first, log, c)
            && Evaluate(first, log, true, false, [c], attempts, 0) == Evaluation([], 0, 0, 1, false)
            && (ReportFailed(log, IdentityOf(KeyOf(first, c)))
                <==> || CaseFails(second, rows, true, c, attempts(0))
                     || (Done(second, rows, true, c).Some? && ReportFailed(rows, IdentityOf(KeyOf(first, c)))))
  {
    hide *;
    var added := CaseRows(second, rows, true, c, attempts(0));
    EvaluateOne(second, rows, true, c, attempts);
    CaseReport(second, rows, c, attempts(0));
    CompletedSurvives(first, rows, added, c);
    EvaluateKeeps(second, rows, true, false, [c], attempts, 0);
    CompletedRunIsQuiet(first, rows + added, false, [c], attempts, 0);
  }

  lemma InLogHonest(rows: seq<Row>, row: Row)
    requires LogInv(rows) && row in rows
    ensures Honest(row)
  {
  }
}
