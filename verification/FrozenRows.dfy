/** Frozen answer rows, checked against the manifest they were produced under. */
module FrozenRows {
  import opened Results

  datatype Case = Case(id: string, questionType: string)

  datatype Manifest = Manifest(name: string, hash: string, cases: seq<Case>)

  /** One row of the source file: the values the checks read.  A value that is missing, or is no string,
      is None; `references` is None unless it is a list; `objects` names the fields that hold objects. */
  datatype Row = Row(caseId: string, values: map<string, string>, references: Option<seq<string>>, objects: set<string>)

  /** What the caller asks for. */
  datatype Expected = Expected(version: string, executionMode: string, answerModel: string)

  const REQUIRED_STRINGS := ["answer_cache_key", "generated_answer", "selected_evidence_hash", "question", "result_identity"]
  const REQUIRED_OBJECTS := ["context_diagnostics", "official_metric", "latency_ms"]

  predicate Has(row: Row, field: string, value: string) {
    field in row.values && row.values[field] == value
  }

  /** The values that must agree with the manifest and the caller, in the order of the checks. */
  function Agreements(manifest: Manifest, expected: Expected, questionType: string): seq<(string, string)> {
    [("status", "answer_completed"), ("manifest_name", manifest.name), ("manifest_hash", manifest.hash),
     ("evaluation_version", expected.version), ("execution_mode", expected.executionMode),
     ("answer_model", expected.answerModel), ("question_type", questionType)]
  }

  /** Every per-row check. */
  ghost predicate RowOk(row: Row, manifest: Manifest, expected: Expected, questionType: string) {
    && (forall a :: a in Agreements(manifest, expected, questionType) ==> Has(row, a.0, a.1))
    && (forall f :: f in REQUIRED_STRINGS ==> f in row.values && row.values[f] != "")
    && row.references.Some? && row.references.value != []
    && (forall f :: f in REQUIRED_OBJECTS ==> f in row.objects)
  }

  function Get(row: Row, field: string): Option<string> {
    if field in row.values then Some(row.values[field]) else None
  }

  predicate Filled(row: Row, field: string) {
    Get(row, field).Some? && Get(row, field).value != ""
  }

  lemma AgreementsIff(row: Row, manifest: Manifest, expected: Expected, questionType: string)
    ensures (forall a :: a in Agreements(manifest, expected, questionType) ==> Has(row, a.0, a.1)) <==>
            && Get(row, "status") == Some("answer_completed")
            && Get(row, "manifest_name") == Some(manifest.name) && Get(row, "manifest_hash") == Some(manifest.hash)
            && Get(row, "evaluation_version") == Some(expected.version)
            && Get(row, "execution_mode") == Some(expected.executionMode)
            && Get(row, "answer_model") == Some(expected.answerModel) && Get(row, "question_type") == Some(questionType)
  {
    var all := Agreements(manifest, expected, questionType);
    assert all[0] in all && all[1] in all && all[2] in all && all[3] in all && all[4] in all && all[5] in all && all[6] in all;
    assert forall f, v :: Has(row, f, v) <==> Get(row, f) == Some(v);
    hide Get, Has;
    assert forall a :: a in all ==> a in {all[0], all[1], all[2], all[3], all[4], all[5], all[6]};
  }

  lemma FieldsIff(row: Row)
    ensures (forall f :: f in REQUIRED_STRINGS ==> f in row.values && row.values[f] != "") <==>
            && Filled(row, "answer_cache_key") && Filled(row, "generated_answer") && Filled(row, "selected_evidence_hash")
            && Filled(row, "question") && Filled(row, "result_identity")
    ensures (forall f :: f in REQUIRED_OBJECTS ==> f in row.objects) <==>
            "context_diagnostics" in row.objects && "official_metric" in row.objects && "latency_ms" in row.objects
  {
    assert forall f :: Filled(row, f) <==> f in row.values && row.values[f] != "";
    hide Filled;
    assert forall f :: f in REQUIRED_STRINGS <==>
        f in {"answer_cache_key", "generated_answer", "selected_evidence_hash", "question", "result_identity"};
  }

  /** A row is in order exactly when it has the status of an answered case, agrees with the manifest, the caller and the case in
      six values, and holds an answer, its keys, a reference and the three diagnostic objects. */
  lemma RowOkIff(row: Row, manifest: Manifest, expected: Expected, questionType: string)
    ensures RowOk(row, manifest, expected, questionType) <==>
            && Get(row, "status") == Some("answer_completed")
            && Get(row, "manifest_name") == Some(manifest.name) && Get(row, "manifest_hash") == Some(manifest.hash)
            && Get(row, "evaluation_version") == Some(expected.version)
            && Get(row, "execution_mode") == Some(expected.executionMode)
            && Get(row, "answer_model") == Some(expected.answerModel) && Get(row, "question_type") == Some(questionType)
            && Filled(row, "answer_cache_key") && Filled(row, "generated_answer") && Filled(row, "selected_evidence_hash")
            && Filled(row, "question") && Filled(row, "result_identity")
            && row.references.Some? && row.references.value != []
            && "context_diagnostics" in row.objects && "official_metric" in row.objects && "latency_ms" in row.objects
  {
    hide Has, Get, Filled, Agreements;
    AgreementsIff(row, manifest, expected, questionType);
    FieldsIff(row);
  }

  method CheckRow(row: Row, manifest: Manifest, expected: Expected, questionType: string) returns (problem: Option<string>)
    ensures problem.None? <==> RowOk(row, manifest, expected, questionType)
  {
    var agreements := Agreements(manifest, expected, questionType);
    for i := 0 to |agreements|
      invariant forall j :: 0 <= j < i ==> Has(row, agreements[j].0, agreements[j].1)
    {
      if !Has(row, agreements[i].0, agreements[i].1) {
        assert agreements[i] in agreements;
        return Some(agreements[i].0);
      }
    }
    for i := 0 to |REQUIRED_STRINGS|
      invariant forall j :: 0 <= j < i ==> REQUIRED_STRINGS[j] in row.values && row.values[REQUIRED_STRINGS[j]] != ""
    {
      var field := REQUIRED_STRINGS[i];
      if field !in row.values || row.values[field] == "" {
        assert field in REQUIRED_STRINGS;
        return Some(field);
      }
    }
    if row.references.None? || row.references.value == [] {
      return Some("reference_answer");
    }
    for i := 0 to |REQUIRED_OBJECTS|
      invariant forall j :: 0 <= j < i ==> REQUIRED_OBJECTS[j] in row.objects
    {
      var field := REQUIRED_OBJECTS[i];
      if field !in row.objects {
        assert field in REQUIRED_OBJECTS;
        return Some(field);
      }
    }
    problem := None;
  }

  function Ids(cases: seq<Case>): set<string> {
    set c | c in cases :: c.id
  }

  ghost predicate DistinctCases(cases: seq<Case>) {
    forall i, j :: 0 <= i < j < |cases| ==> cases[i].id != cases[j].id
  }

  ghost predicate DistinctRows(rows: seq<Row>) {
    forall i, j :: 0 <= i < j < |rows| ==> rows[i].caseId != rows[j].caseId
  }

  function TypeOf(cases: seq<Case>, id: string): string
    requires id in Ids(cases)
  {
    var n := |cases| - 1;
    assert forall c :: c in cases ==> c == cases[n] || c in cases[..n];
    if cases[n].id == id then cases[n].questionType else TypeOf(cases[..n], id)
  }

  /** Of cases with one id the last counts. */
  lemma {:induction false} TypeOfLast(cases: seq<Case>, k: nat)
    requires k < |cases| && forall j :: k < j < |cases| ==> cases[j].id != cases[k].id
    ensures cases[k].id in Ids(cases) && TypeOf(cases, cases[k].id) == cases[k].questionType
  {
    assert cases[k] in cases;
    if k < |cases| - 1 {
      TypeOfLast(cases[..|cases| - 1], k);
    }
  }

  /** The rows cover the cases, one row each, and every row is in order. */
  ghost predicate Frozen(manifest: Manifest, rows: seq<Row>, expected: Expected) {
    && DistinctRows(rows)
    && (forall row :: row in rows ==>
          row.caseId in Ids(manifest.cases) && RowOk(row, manifest, expected, TypeOf(manifest.cases, row.caseId)))
    && (forall id :: id in Ids(manifest.cases) ==> HasRow(rows, id))
  }

  ghost predicate HasRow(rows: seq<Row>, id: string) {
    exists row :: row in rows && row.caseId == id
  }

  /** The rows in the order of the cases. */
  ghost predicate InOrder(result: seq<Row>, cases: seq<Case>, rows: seq<Row>) {
    && |result| == |cases|
    && forall k :: 0 <= k < |cases| ==> result[k] in rows && result[k].caseId == cases[k].id
  }

  /** The checks that need no look at what is missing. */
  ghost predicate RowsOk(manifest: Manifest, rows: seq<Row>, expected: Expected) {
    && DistinctRows(rows)
    && forall row :: row in rows ==>
         row.caseId in Ids(manifest.cases) && RowOk(row, manifest, expected, TypeOf(manifest.cases, row.caseId))
  }

  /** The dictionary from case ids to rows. */
  ghost predicate Indexes(byCase: map<string, Row>, rows: seq<Row>) {
    && (forall id :: id in byCase ==> byCase[id] in rows && byCase[id].caseId == id)
    && (forall row :: row in rows ==> row.caseId in byCase)
  }

  lemma OneRowMore(manifest: Manifest, rows: seq<Row>, expected: Expected, byCase: map<string, Row>, row: Row)
    requires RowsOk(manifest, rows, expected) && Indexes(byCase, rows)
    ensures RowsOk(manifest, rows + [row], expected) <==>
            && row.caseId in Ids(manifest.cases) && row.caseId !in byCase
            && RowOk(row, manifest, expected, TypeOf(manifest.cases, row.caseId))
    ensures row.caseId !in byCase ==> Indexes(byCase[row.caseId := row], rows + [row])
  {
    hide RowOk, TypeOf, Ids;
    var all := rows + [row];
    assert all[|rows|] == row && row in all;
    if row.caseId in byCase {
      var i :| 0 <= i < |rows| && rows[i] == byCase[row.caseId];
      assert all[i].caseId == all[|rows|].caseId;
    } else {
      forall i, j | 0 <= i < j < |all| ensures all[i].caseId != all[j].caseId {
        assert all[i] == rows[i] && rows[i] in rows;
      }
    }
  }

  lemma FewerRows(manifest: Manifest, rows: seq<Row>, n: nat, expected: Expected)
    requires RowsOk(manifest, rows, expected) && n <= |rows|
    ensures RowsOk(manifest, rows[..n], expected)
  {
    hide RowOk, TypeOf, Ids;
  }

  /** The first loop: every row is checked and entered. */
  method CollectRows(manifest: Manifest, rows: seq<Row>, expected: Expected) returns (r: Result<map<string, Row>, string>)
    ensures r.Ok? <==> RowsOk(manifest, rows, expected)
    ensures r.Ok? ==> Indexes(r.value, rows)
  {
    hide RowsOk, Indexes, RowOk, TypeOf, Ids;
    var byCase: map<string, Row> := map[];
    NothingCollected(manifest, expected);
    assert rows[..0] == [];
    for i := 0 to |rows|
      invariant Indexes(byCase, rows[..i]) && RowsOk(manifest, rows[..i], expected)
    {
      var row := rows[i];
      assert rows[..i + 1] == rows[..i] + [row];
      OneRowMore(manifest, rows[..i], expected, byCase, row);
      if RowsOk(manifest, rows, expected) {
        FewerRows(manifest, rows, i + 1, expected);
      }
      if row.caseId !in Ids(manifest.cases) {
        return Err("non-frozen answer row: " + row.caseId);
      }
      if row.caseId in byCase {
        return Err("duplicate answer row: " + row.caseId);
      }
      var problem := CheckRow(row, manifest, expected, TypeOf(manifest.cases, row.caseId));
      if problem.Some? {
        return Err("answer row " + row.caseId + ": " + problem.value);
      }
      byCase := byCase[row.caseId := row];
    }
    assert rows[..|rows|] == rows;
    r := Ok(byCase);
  }

  lemma NothingCollected(manifest: Manifest, expected: Expected)
    ensures RowsOk(manifest, [], expected) && Indexes(map[], [])
  {
  }

  /** validate_frozen_answer_rows. */
  method Validate(manifest: Manifest, rows: seq<Row>, expected: Expected) returns (r: Result<seq<Row>, string>)
    ensures r.Ok? <==> Frozen(manifest, rows, expected)
    ensures r.Ok? ==> InOrder(r.value, manifest.cases, rows)
  {
    hide RowsOk, Frozen, Indexes, RowOk, TypeOf, Ids, HasRow;
    var collected := CollectRows(manifest, rows, expected);
    FrozenParts(manifest, rows, expected);
    if collected.Err? {
      return Err(collected.error);
    }
    var byCase := collected.value;
    var result: seq<Row> := [];
    for k := 0 to |manifest.cases|
      invariant |result| == k
      invariant forall j :: 0 <= j < k ==> manifest.cases[j].id in byCase && result[j] == byCase[manifest.cases[j].id]
    {
      var id := manifest.cases[k].id;
      if id !in byCase {
        IdOfCase(manifest.cases, k);
        NoRow(byCase, rows, id);
        return Err("missing answer rows: " + id);
      }
      result := result + [byCase[id]];
    }
    EveryIdIsACase(manifest.cases, byCase, rows, result);
    r := Ok(result);
  }

  lemma FrozenParts(manifest: Manifest, rows: seq<Row>, expected: Expected)
    ensures Frozen(manifest, rows, expected) <==>
            RowsOk(manifest, rows, expected) && forall id :: id in Ids(manifest.cases) ==> HasRow(rows, id)
  {
    hide RowOk, TypeOf, Ids, HasRow;
  }

  lemma NoRow(byCase: map<string, Row>, rows: seq<Row>, id: string)
    requires Indexes(byCase, rows) && id !in byCase
    ensures !HasRow(rows, id)
  {
  }

  lemma IdOfCase(cases: seq<Case>, k: nat)
    requires k < |cases|
    ensures cases[k].id in Ids(cases)
  {
    assert cases[k] in cases;
  }

  lemma EveryIdIsACase(cases: seq<Case>, byCase: map<string, Row>, rows: seq<Row>, result: seq<Row>)
    requires Indexes(byCase, rows) && |result| == |cases|
    requires forall j :: 0 <= j < |cases| ==> cases[j].id in byCase && result[j] == byCase[cases[j].id]
    ensures forall id :: id in Ids(cases) ==> HasRow(rows, id)
    ensures InOrder(result, cases, rows)
  {
    forall id | id in Ids(cases) ensures HasRow(rows, id) {
      var c :| c in cases && c.id == id;
      assert byCase[id] in rows;
    }
  }

  // ---------------------------------------------------------------- a permutation

  lemma {:induction false} OnceEach(rows: seq<Row>, row: Row)
    requires DistinctRows(rows)
    ensures multiset(rows)[row] == if row in rows then 1 else 0
  {
    if rows != [] {
      var n := |rows| - 1;
      assert rows == rows[..n] + [rows[n]];
      OnceEach(rows[..n], row);
    }
  }

  /** Accepted rows come back as they are: the same rows, in manifest order. */
  lemma AcceptedIsPermutation(manifest: Manifest, rows: seq<Row>, expected: Expected, result: seq<Row>)
    requires DistinctCases(manifest.cases) && Frozen(manifest, rows, expected) && InOrder(result, manifest.cases, rows)
    ensures multiset(result) == multiset(rows)
  {
    hide RowOk, TypeOf;
    assert DistinctRows(result);
    forall row ensures row in result <==> row in rows {
      if row in rows {
        var c :| c in manifest.cases && c.id == row.caseId;
        var k :| 0 <= k < |manifest.cases| && manifest.cases[k] == c;
        SameRow(rows, row, result[k]);
      }
    }
    forall row ensures multiset(result)[row] == multiset(rows)[row] {
      OnceEach(result, row);
      OnceEach(rows, row);
    }
  }

  lemma SameRow(rows: seq<Row>, a: Row, b: Row)
    requires DistinctRows(rows) && a in rows && b in rows && a.caseId == b.caseId
    ensures a == b
  {
  }

  function RowIds(rows: seq<Row>): (ids: seq<string>)
    ensures |ids| == |rows| && forall i :: 0 <= i < |rows| ==> ids[i] == rows[i].caseId
  {
    seq(|rows|, i requires 0 <= i < |rows| => rows[i].caseId)
  }

  function CaseIds(cases: seq<Case>): (ids: seq<string>)
    ensures |ids| == |cases| && forall i :: 0 <= i < |cases| ==> ids[i] == cases[i].id
  {
    seq(|cases|, i requires 0 <= i < |cases| => cases[i].id)
  }

  ghost predicate NoRepeats(ids: seq<string>) {
    forall i, j :: 0 <= i < j < |ids| ==> ids[i] != ids[j]
  }

  lemma {:induction false} CountsOne(ids: seq<string>, x: string)
    requires NoRepeats(ids)
    ensures multiset(ids)[x] == if x in ids then 1 else 0
  {
    if ids != [] {
      var n := |ids| - 1;
      assert ids == ids[..n] + [ids[n]];
      CountsOne(ids[..n], x);
    }
  }

  lemma CountsTwice(ids: seq<string>, i: nat, j: nat)
    requires i < j < |ids| && ids[i] == ids[j]
    ensures multiset(ids)[ids[i]] >= 2
  {
    assert ids == ids[..j] + ids[j..];
    assert ids[..j][i] == ids[i] && ids[j..][0] == ids[i];
    assert multiset(ids) == multiset(ids[..j]) + multiset(ids[j..]);
    assert ids[i] in multiset(ids[..j]) && ids[i] in multiset(ids[j..]);
  }

  lemma PermutationIff(a: seq<string>, b: seq<string>)
    requires NoRepeats(b)
    ensures multiset(a) == multiset(b) <==> NoRepeats(a) && forall x :: x in a <==> x in b
  {
    if multiset(a) == multiset(b) {
      forall x ensures x in a <==> x in b {
        assert x in multiset(a) <==> x in multiset(b);
      }
      forall i, j | 0 <= i < j < |a| ensures a[i] != a[j] {
        CountsOne(b, a[i]);
        if a[i] == a[j] {
          CountsTwice(a, i, j);
        }
      }
    } else if NoRepeats(a) && forall x :: x in a <==> x in b {
      forall x ensures multiset(a)[x] == multiset(b)[x] {
        CountsOne(a, x);
        CountsOne(b, x);
      }
    }
  }

  /** Accepted exactly when the case ids of the rows are a permutation of the manifest's and every row
      passes its checks. */
  lemma AcceptsIff(manifest: Manifest, rows: seq<Row>, expected: Expected)
    requires DistinctCases(manifest.cases)
    ensures Frozen(manifest, rows, expected) <==>
            && multiset(RowIds(rows)) == multiset(CaseIds(manifest.cases))
            && forall row :: row in rows && row.caseId in Ids(manifest.cases) ==>
                 RowOk(row, manifest, expected, TypeOf(manifest.cases, row.caseId))
  {
    hide RowOk, TypeOf, RowIds, CaseIds;
    PermutationIff(RowIds(rows), CaseIds(manifest.cases));
    assert NoRepeats(RowIds(rows)) <==> DistinctRows(rows);
    forall x ensures x in RowIds(rows) <==> HasRow(rows, x) {
      RowIdMembers(rows, x);
    }
    forall x ensures x in CaseIds(manifest.cases) <==> x in Ids(manifest.cases) {
      CaseIdMembers(manifest.cases, x);
    }
    assert forall row :: row in rows ==> HasRow(rows, row.caseId);
  }

  lemma RowIdMembers(rows: seq<Row>, x: string)
    ensures x in RowIds(rows) <==> HasRow(rows, x)
  {
    hide RowIds;
    if HasRow(rows, x) {
      var row :| row in rows && row.caseId == x;
      var i :| 0 <= i < |rows| && rows[i] == row;
      assert RowIds(rows)[i] == x;
    }
  }

  lemma CaseIdMembers(cases: seq<Case>, x: string)
    ensures x in CaseIds(cases) <==> x in Ids(cases)
  {
    hide CaseIds;
    if x in Ids(cases) {
      var c :| c in cases && c.id == x;
      var i :| 0 <= i < |cases| && cases[i] == c;
      assert CaseIds(cases)[i] == x;
    }
    if x in CaseIds(cases) {
      var i :| 0 <= i < |cases| && CaseIds(cases)[i] == x;
      assert cases[i] in cases;
    }
  }
}
