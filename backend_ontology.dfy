/**
 * The backend's ontology endpoints: SHACL-validated import, the triple
 * query with its optional filters, creating and deleting one triple or
 * node, and the bulk add/delete operation. The database and the SHACL
 * validator are outside the model; what they answer is a parameter.
 */
module BackendOntology {
  import opened Wrappers
  import opened Seqs
  import opened Strings
  import opened BackendDb

  datatype Triple = Triple(subject: string, pred: string, obj: string)

  /** An endpoint's answer: a message, or an HTTP error with its detail. */
  datatype Response = Ok(message: string) | HttpError(status: int, detail: string)

  /**
   * What one `neo4j_run` call gives: the `count` (or `deleted`) column of
   * its rows, or the failure it turns into an HTTPException.
   */
  datatype DbReply = Returned(counts: seq<int>) | DbRaised(failure: DbFailure)

  // ---------------------------------------------------------------------------
  // validate_and_import
  // ---------------------------------------------------------------------------

  /**
   * The SHACL check: a file could not be decoded or parsed (with the text
   * of the exception raised), or the verdict and its report.
   */
  datatype Validation = Unparsable(error: string) | Validated(conforms: bool, report: string)

  /** The answer: the import's result, or an HTTP error with its detail. */
  datatype ImportResponse =
    | ImportResult(triplesLoaded: int, validationConforms: bool, report: Option<string>)
    | ImportFailed(status: int, detail: string)

  /**
   * `validate_and_import`: data that does not conform is not imported;
   * conforming data is imported and the count of the first result row (0
   * when there is none) is reported. The exception of an unparsable file
   * reaches the application's catch-all handler, which answers 500 with its
   * text; a failed import answers with `neo4j_run`'s HTTPException.
   * `importReply` is what the import would give, looked at only when the
   * data conforms.
   */
  function ValidateAndImport(validation: Validation, importReply: DbReply): ImportResponse {
    match validation
    case Unparsable(error) => ImportFailed(500, error)
    case Validated(conforms, report) =>
      if !conforms then ImportResult(0, false, Some(report))
      else match importReply
        case DbRaised(f) => ImportFailed(RunError(f).status, RunError(f).detail)
        case Returned(counts) => ImportResult(if counts != [] then counts[0] else 0, true, None)
  }

  /**
   * A non-conforming file loads nothing whatever the database would have
   * said, and reports itself non-conforming with the validator's report; a
   * conforming one reports conformance without a report, and the count of
   * the import's first row, or 0 when the import returned no row. The
   * request fails exactly when a file cannot be parsed (500, with the
   * parser's text) or the import of conforming data fails (503, 401 or 500,
   * as `neo4j_run` classifies the failure).
   */
  lemma ValidateAndImportSpec(validation: Validation, importReply: DbReply, otherReply: DbReply)
    ensures validation.Validated? && !validation.conforms ==>
      ValidateAndImport(validation, importReply) == ValidateAndImport(validation, otherReply) == ImportResult(0, false, Some(validation.report))
    ensures ValidateAndImport(validation, importReply).ImportFailed? <==>
      validation.Unparsable? || (validation.conforms && importReply.DbRaised?)
    ensures validation.Unparsable? ==>
      ValidateAndImport(validation, importReply) == ImportFailed(500, validation.error)
    ensures validation.Validated? && validation.conforms && importReply.DbRaised? ==>
      var r := ValidateAndImport(validation, importReply);
      && r == ImportFailed(RunError(importReply.failure).status, RunError(importReply.failure).detail)
      && (r.status == 503 || r.status == 401 || r.status == 500)
    ensures ValidateAndImport(validation, importReply).ImportResult? ==>
      ValidateAndImport(validation, importReply).validationConforms == validation.conforms
    ensures validation.Validated? && validation.conforms && importReply.Returned? ==>
      var r := ValidateAndImport(validation, importReply);
      && r.report.None?
      && (importReply.counts != [] ==> r.triplesLoaded == importReply.counts[0])
      && (importReply.counts == [] ==> r.triplesLoaded == 0)
  {
  }

  // ---------------------------------------------------------------------------
  // get_triples
  // ---------------------------------------------------------------------------

  datatype Field = SubjectField | PredicateField | ObjectField

  /** The condition each filter adds to the `WHERE` clause. */
  function Condition(f: Field): string {
    match f
    case SubjectField => "s.uri = $subject"
    case PredicateField => "type(r) = $predicate"
    case ObjectField => "o.uri = $object"
  }

  function ParamName(f: Field): string {
    match f
    case SubjectField => "subject"
    case PredicateField => "predicate"
    case ObjectField => "object"
  }

  /** A query parameter counts when it is present and not empty. */
  predicate Given(v: Option<string>) {
    v.Some? && v.value != ""
  }

  /** The filters in force, in the order subject, predicate, object. */
  function GivenFields(subject: Option<string>, pred: Option<string>, obj: Option<string>): seq<Field> {
    (if Given(subject) then [SubjectField] else [])
    + (if Given(pred) then [PredicateField] else [])
    + (if Given(obj) then [ObjectField] else [])
  }

  function FieldValue(f: Field, subject: Option<string>, pred: Option<string>, obj: Option<string>): Option<string> {
    match f
    case SubjectField => subject
    case PredicateField => pred
    case ObjectField => obj
  }

  /** The `WHERE` clause: the conditions joined by ` AND `, or `1=1` without any. */
  function WhereClause(subject: Option<string>, pred: Option<string>, obj: Option<string>): string {
    var fields := GivenFields(subject, pred, obj);
    if fields == [] then "1=1" else Join(Map(fields, Condition), " AND ")
  }

  /** The query parameters: one `(name, value)` per filter in force, in the same order. */
  function Params(subject: Option<string>, pred: Option<string>, obj: Option<string>): seq<(string, string)> {
    Map(GivenFields(subject, pred, obj), ParamOf(subject, pred, obj))
  }

  function ParamOf(subject: Option<string>, pred: Option<string>, obj: Option<string>): Field -> (string, string) {
    (f: Field) => (ParamName(f), FieldValue(f, subject, pred, obj).GetOr(""))
  }

  /** The clause and the parameters of `get_triples`, built condition by condition. */
  method BuildTripleQuery(subject: Option<string>, pred: Option<string>, obj: Option<string>)
    returns (whereClause: string, params: seq<(string, string)>)
    ensures whereClause == WhereClause(subject, pred, obj)
    ensures params == Params(subject, pred, obj)
  {
    var clauses: seq<string> := [];
    params := [];
    ghost var fields: seq<Field> := [];
    ghost var param := ParamOf(subject, pred, obj);
    if Given(subject) {
      clauses, params := AddFilter(fields, param, clauses, params, SubjectField, subject.value);
      fields := fields + [SubjectField];
    }
    if Given(pred) {
      clauses, params := AddFilter(fields, param, clauses, params, PredicateField, pred.value);
      fields := fields + [PredicateField];
    }
    if Given(obj) {
      clauses, params := AddFilter(fields, param, clauses, params, ObjectField, obj.value);
      fields := fields + [ObjectField];
    }
    assert fields == GivenFields(subject, pred, obj);
    whereClause := if clauses != [] then Join(clauses, " AND ") else "1=1";
  }

  /** One filter in force: its condition joins the clauses and its value the parameters, under its name. */
  method AddFilter(ghost fields: seq<Field>, ghost param: Field -> (string, string),
                   clauses: seq<string>, params: seq<(string, string)>, f: Field, value: string)
    returns (clauses': seq<string>, params': seq<(string, string)>)
    requires clauses == Map(fields, Condition) && params == Map(fields, param)
    requires param(f) == (ParamName(f), value)
    ensures clauses' == Map(fields + [f], Condition) && params' == Map(fields + [f], param)
  {
    MapAppend(fields, [f], Condition);
    MapAppend(fields, [f], param);
    clauses' := clauses + [Condition(f)];
    params' := params + [(ParamName(f), value)];
  }

  /**
   * The clause is `1=1` exactly when no filter is given; otherwise it is the
   * conditions of the given filters, in order, joined by ` AND `.
   */
  lemma WhereClauseSpec(subject: Option<string>, pred: Option<string>, obj: Option<string>)
    ensures WhereClause(subject, pred, obj) == "1=1" <==> !Given(subject) && !Given(pred) && !Given(obj)
    ensures Given(subject) && !Given(pred) && !Given(obj) ==> WhereClause(subject, pred, obj) == "s.uri = $subject"
    ensures Given(subject) && Given(pred) && Given(obj) ==>
      WhereClause(subject, pred, obj) == "s.uri = $subject" + " AND " + "type(r) = $predicate" + " AND " + "o.uri = $object"
  {
    var fields := GivenFields(subject, pred, obj);
    var conds := Map(fields, Condition);
    if fields != [] {
      JoinStartsWithFirst(conds, " AND ");
      assert conds[0][0] != '1';
    }
    if Given(subject) && Given(pred) && Given(obj) {
      assert conds == ["s.uri = $subject", "type(r) = $predicate", "o.uri = $object"];
      assert conds[1..][1..] == conds[2..];
      assert Join(conds[2..], " AND ") == "o.uri = $object";
      assert Join(conds[1..], " AND ") == "type(r) = $predicate" + " AND " + "o.uri = $object";
      assert Join(conds, " AND ") == "s.uri = $subject" + " AND " + ("type(r) = $predicate" + " AND " + "o.uri = $object");
    }
  }

  /** A parameter is passed for a field exactly when its filter is given, carrying the filter's value. */
  lemma ParamsSpec(subject: Option<string>, pred: Option<string>, obj: Option<string>)
    ensures |Params(subject, pred, obj)| == |GivenFields(subject, pred, obj)| <= 3
    ensures forall f: Field :: (ParamName(f), FieldValue(f, subject, pred, obj).GetOr("")) in Params(subject, pred, obj)
                           <==> Given(FieldValue(f, subject, pred, obj))
  {
    forall f: Field
      ensures (ParamName(f), FieldValue(f, subject, pred, obj).GetOr("")) in Params(subject, pred, obj)
          <==> Given(FieldValue(f, subject, pred, obj))
    {
      ParamFor(subject, pred, obj, f);
    }
  }

  lemma ParamFor(subject: Option<string>, pred: Option<string>, obj: Option<string>, f: Field)
    ensures (ParamName(f), FieldValue(f, subject, pred, obj).GetOr("")) in Params(subject, pred, obj)
        <==> Given(FieldValue(f, subject, pred, obj))
  {
    var fields := GivenFields(subject, pred, obj);
    var p := Params(subject, pred, obj);
    var entry := (ParamName(f), FieldValue(f, subject, pred, obj).GetOr(""));
    GivenFieldsSpec(subject, pred, obj, f);
    if Given(FieldValue(f, subject, pred, obj)) {
      var i :| 0 <= i < |fields| && fields[i] == f;
      assert p[i] == entry;
    }
    if entry in p {
      var i :| 0 <= i < |p| && p[i] == entry;
      ParamNameInjective(fields[i], f);
      assert fields[i] in fields;
    }
  }

  lemma GivenFieldsSpec(subject: Option<string>, pred: Option<string>, obj: Option<string>, f: Field)
    ensures f in GivenFields(subject, pred, obj) <==> Given(FieldValue(f, subject, pred, obj))
  {
  }

  lemma ParamNameInjective(f: Field, g: Field)
    ensures ParamName(f) == ParamName(g) ==> f == g
  {
    if f != g {
      assert ParamName(f)[0] != ParamName(g)[0];
    }
  }

  /** A join of non-empty pieces starts with the first piece's first character. */
  lemma JoinStartsWithFirst(parts: seq<string>, sep: string)
    requires parts != [] && parts[0] != []
    ensures Join(parts, sep) != [] && Join(parts, sep)[0] == parts[0][0]
  {
  }

  // ---------------------------------------------------------------------------
  // Single-triple and node operations
  // ---------------------------------------------------------------------------

  /**
   * `create_triple`: its `except Exception` also catches `neo4j_run`'s
   * HTTPException, so any database failure becomes a 400 carrying the
   * exception's text, whatever status `neo4j_run` gave it.
   */
  function CreateTriple(reply: DbReply): (r: Response)
    ensures r.HttpError? <==> reply.DbRaised?
    ensures r.HttpError? ==> r.status == 400 && r.detail == ExceptionText(RunError(reply.failure))
  {
    if reply.DbRaised? then HttpError(400, ExceptionText(RunError(reply.failure))) else Ok("Triple created successfully")
  }

  /**
   * A deletion answers with its success message when the first row counts
   * at least one deletion and with a 404 otherwise. Both this 404 and the
   * HTTPException of a database failure are re-raised unchanged by the
   * `except HTTPException` clause.
   */
  function DeleteResponse(reply: DbReply, deleted: string, notFound: string): Response {
    if reply.DbRaised? then HttpError(RunError(reply.failure).status, RunError(reply.failure).detail)
    else if reply.counts != [] && reply.counts[0] > 0 then Ok(deleted)
    else HttpError(404, notFound)
  }

  function DeleteTriple(reply: DbReply): Response {
    DeleteResponse(reply, "Triple deleted successfully", "Triple not found")
  }

  function DeleteNode(reply: DbReply): Response {
    DeleteResponse(reply, "Node and all related relationships deleted successfully", "Node not found")
  }

  /**
   * The three outcomes of a deletion, each exactly in its case: success, a
   * 404 when nothing was deleted, and `neo4j_run`'s own error (503, 401 or
   * 500, never a 404 or a 400) when the database failed.
   */
  lemma DeleteSpec(reply: DbReply)
    ensures DeleteTriple(reply).Ok? <==> reply.Returned? && |reply.counts| > 0 && reply.counts[0] > 0
    ensures DeleteTriple(reply) == HttpError(404, "Triple not found") <==>
      reply.Returned? && (reply.counts == [] || reply.counts[0] <= 0)
    ensures reply.DbRaised? ==>
      DeleteTriple(reply) == DeleteNode(reply) == HttpError(RunError(reply.failure).status, RunError(reply.failure).detail)
    ensures DeleteTriple(reply).HttpError? && DeleteTriple(reply).status != 404 <==> reply.DbRaised?
    ensures DeleteNode(reply).Ok? <==> DeleteTriple(reply).Ok?
    ensures DeleteNode(reply).HttpError? ==> DeleteNode(reply).status == DeleteTriple(reply).status
  {
  }

  // ---------------------------------------------------------------------------
  // bulk_triple_operation
  // ---------------------------------------------------------------------------

  /** A database call the bulk operation makes. */
  datatype Call = AddCall(t: Triple) | DeleteCall(t: Triple)

  function Adding(t: Triple): Call { AddCall(t) }

  function Deleting(t: Triple): Call { DeleteCall(t) }

  datatype BulkResult = BulkResult(added: nat, deleted: nat, errors: seq<string>)

  /**
   * The database's answers to the successive calls of one loop: the text
   * of the exception the i-th call raised (`str()` of `neo4j_run`'s
   * HTTPException, see `ExceptionText`), or none when it succeeded.
   */
  type Replies = nat -> Option<string>

  /** How many of the first `n` calls succeeded. */
  function Successes(n: nat, replies: Replies): nat {
    if n == 0 then 0 else Successes(n - 1, replies) + (if replies(n - 1).None? then 1 else 0)
  }

  /**
   * The error lines of the failed calls among the first `n`, in call order:
   * the prefix and the exception's text.
   */
  function Failures(n: nat, replies: Replies, prefix: string): seq<string> {
    if n == 0 then []
    else Failures(n - 1, replies, prefix) + (if replies(n - 1).Some? then [prefix + replies(n - 1).value] else [])
  }

  /** Every call either succeeds or leaves exactly one error line. */
  lemma {:induction false} SuccessesAndFailures(n: nat, replies: Replies, prefix: string)
    ensures Successes(n, replies) + |Failures(n, replies, prefix)| == n
    ensures forall e :: e in Failures(n, replies, prefix) ==> StartsWith(e, prefix)
  {
    if n > 0 {
      SuccessesAndFailures(n - 1, replies, prefix);
    }
  }

  /**
   * `bulk_triple_operation`: every add is tried, then every delete; a failed
   * call adds an error line and the loop goes on.
   */
  method BulkTripleOperation(add: seq<Triple>, delete: seq<Triple>, addReplies: Replies, deleteReplies: Replies)
    returns (r: BulkResult, calls: seq<Call>)
    ensures calls == Map(add, Adding) + Map(delete, Deleting)
    ensures r.added == Successes(|add|, addReplies)
    ensures r.deleted == Successes(|delete|, deleteReplies)
    ensures r.errors == Failures(|add|, addReplies, "Add error: ") + Failures(|delete|, deleteReplies, "Delete error: ")
  {
    var added, deleted := 0, 0;
    var errors: seq<string> := [];
    calls := [];
    for i := 0 to |add|
      invariant added == Successes(i, addReplies)
      invariant errors == Failures(i, addReplies, "Add error: ")
      invariant calls == Map(add[..i], Adding)
    {
      MapStep(add, i, Adding);
      calls := calls + [AddCall(add[i])];
      var reply := addReplies(i);
      if reply.None? {
        added := added + 1;
      } else {
        errors := errors + ["Add error: " + reply.value];
      }
    }
    assert add[..|add|] == add;
    ghost var addErrors := errors;
    for i := 0 to |delete|
      invariant deleted == Successes(i, deleteReplies)
      invariant errors == addErrors + Failures(i, deleteReplies, "Delete error: ")
      invariant calls == Map(add, Adding) + Map(delete[..i], Deleting)
    {
      MapStep(delete, i, Deleting);
      calls := calls + [DeleteCall(delete[i])];
      var reply := deleteReplies(i);
      if reply.None? {
        deleted := deleted + 1;
      } else {
        errors := errors + ["Delete error: " + reply.value];
      }
    }
    assert delete[..|delete|] == delete;
    r := BulkResult(added, deleted, errors);
  }

  lemma MapStep<T, U>(s: seq<T>, i: int, f: T -> U)
    requires 0 <= i < |s|
    ensures Map(s[..i + 1], f) == Map(s[..i], f) + [f(s[i])]
  {
    assert s[..i + 1] == s[..i] + [s[i]];
    MapAppend(s[..i], [s[i]], f);
  }

  /**
   * The counters and the error list account for every triple: adds that
   * succeeded plus add errors make all the adds, and likewise for deletes;
   * the add errors all come before the delete errors.
   */
  lemma BulkCounts(add: seq<Triple>, delete: seq<Triple>, addReplies: Replies, deleteReplies: Replies, r: BulkResult)
    requires r.added == Successes(|add|, addReplies)
    requires r.deleted == Successes(|delete|, deleteReplies)
    requires r.errors == Failures(|add|, addReplies, "Add error: ") + Failures(|delete|, deleteReplies, "Delete error: ")
    ensures r.added <= |add| && r.deleted <= |delete|
    ensures |r.errors| == (|add| - r.added) + (|delete| - r.deleted)
    ensures forall i :: 0 <= i < |add| - r.added ==> StartsWith(r.errors[i], "Add error: ")
    ensures forall i :: |add| - r.added <= i < |r.errors| ==> StartsWith(r.errors[i], "Delete error: ")
  {
    var a := Failures(|add|, addReplies, "Add error: ");
    var d := Failures(|delete|, deleteReplies, "Delete error: ");
    SuccessesAndFailures(|add|, addReplies, "Add error: ");
    SuccessesAndFailures(|delete|, deleteReplies, "Delete error: ");
    PrefixedParts(a, d, "Add error: ", "Delete error: ");
  }

  lemma PrefixedParts(a: seq<string>, d: seq<string>, p: string, q: string)
    requires forall e :: e in a ==> StartsWith(e, p)
    requires forall e :: e in d ==> StartsWith(e, q)
    ensures forall i :: 0 <= i < |a| ==> StartsWith((a + d)[i], p)
    ensures forall i :: |a| <= i < |a + d| ==> StartsWith((a + d)[i], q)
  {
    forall i | 0 <= i < |a| ensures StartsWith((a + d)[i], p) {
      assert a[i] in a;
    }
    forall i | |a| <= i < |a + d| ensures StartsWith((a + d)[i], q) {
      assert d[i - |a|] in d;
    }
  }
}
