/** The shape of schema validation as the forms use it: each check that fails
    contributes one issue attached to a field path; an object schema first
    checks every field, and its `.refine` rules run afterwards, but only when
    no field had a type error (a missing required value or a value outside an
    enumeration). Checks on a well-typed value (minimum and maximum length,
    positivity) do not stop the refinements. */
module Validation {
  import opened Wrappers
  import opened JsSemantics

  /** One validation message, attached to the path of the field it concerns. */
  datatype Issue = Issue(path: string, message: string)

  /** The outcome of checking the fields of an object schema: the issues found
      and whether a type error stopped the object from being parsed. */
  datatype FieldCheck = FieldCheck(issues: seq<Issue>, typeError: bool)

  /** A submit attempt: rejected with the issues found, or accepted with the
      state that follows. */
  datatype Submission<S> = Rejected(issues: seq<Issue>) | Accepted(next: S)

  /** The paths that carry at least one issue. */
  function Paths(issues: seq<Issue>): set<string> {
    set k | k in issues :: k.path
  }

  predicate HasIssueAt(issues: seq<Issue>, path: string) {
    path in Paths(issues)
  }

  /** `{path}` when `c` holds, the empty set otherwise. */
  function When(c: bool, path: string): set<string> {
    if c then {path} else {}
  }

  lemma PathsJoin(a: seq<Issue>, b: seq<Issue>)
    ensures Paths(a + b) == Paths(a) + Paths(b)
  {
    forall p | p in Paths(a + b) ensures p in Paths(a) + Paths(b) {
      var k :| k in a + b && k.path == p;
      assert k in a || k in b;
    }
    forall p | p in Paths(a) + Paths(b) ensures p in Paths(a + b) {
      if p in Paths(a) {
        var k :| k in a && k.path == p;
        assert k in a + b;
      } else {
        var k :| k in b && k.path == p;
        assert k in a + b;
      }
    }
  }

  lemma PathsSingle(k: Issue)
    ensures Paths([k]) == {k.path}
  {
    assert k in [k];
  }

  /** A length-bounded check on a string field: one issue when `s` is shorter
      than `n`. */
  function MinLength(path: string, s: string, n: nat, message: string): (r: seq<Issue>)
    ensures Paths(r) == When(|s| < n, path)
  {
    PathsSingle(Issue(path, message));
    if |s| < n then [Issue(path, message)] else []
  }

  /** An optional string field with a maximum length: an absent value passes. */
  function MaxLengthOpt(path: string, o: Option<string>, n: nat, message: string): (r: seq<Issue>)
    ensures Paths(r) == When(o.Some? && |o.value| > n, path)
  {
    PathsSingle(Issue(path, message));
    if o.Some? && |o.value| > n then [Issue(path, message)] else []
  }

  /** A number that must be strictly positive. */
  function Positive(path: string, x: int, message: string): (r: seq<Issue>)
    ensures Paths(r) == When(x <= 0, path)
  {
    PathsSingle(Issue(path, message));
    if x <= 0 then [Issue(path, message)] else []
  }

  /** A `.refine` rule: one issue at `path` when its predicate is false. */
  function Refinement(holds: bool, path: string, message: string): (r: seq<Issue>)
    ensures Paths(r) == When(!holds, path)
  {
    PathsSingle(Issue(path, message));
    if holds then [] else [Issue(path, message)]
  }

  /** The issues an object schema reports: its field issues, followed by the
      issues of its refinements when no field had a type error. */
  function ObjectIssues(fields: FieldCheck, refinements: seq<Issue>): (r: seq<Issue>)
    ensures fields.typeError ==> r == fields.issues
    ensures Paths(r) == Paths(fields.issues) + (if fields.typeError then {} else Paths(refinements))
  {
    PathsJoin(fields.issues, refinements);
    if fields.typeError then fields.issues else fields.issues + refinements
  }

  function HasPath(path: string): Issue -> bool {
    (k: Issue) => k.path == path
  }

  /** The message the form shows under a field: the first issue attached to
      that path, since only the first error per field is kept for display. */
  function DisplayedError(issues: seq<Issue>, path: string): (r: Option<string>)
    ensures r.None? <==> !HasIssueAt(issues, path)
    ensures r.Some? ==> exists i :: 0 <= i < |issues| && issues[i].path == path
                                  && issues[i].message == r.value
                                  && forall j :: 0 <= j < i ==> issues[j].path != path
  {
    match FindIndex(issues, HasPath(path))
    case None =>
      assert forall i :: 0 <= i < |issues| ==> issues[i].path != path by {
        forall i | 0 <= i < |issues| ensures issues[i].path != path {
          assert !HasPath(path)(issues[i]);
        }
      }
      None
    case Some(i) =>
      assert HasPath(path)(issues[i]) && issues[i] in issues;
      Some(issues[i].message)
  }

  /** The displayed message is the one of the first issue at that path. */
  lemma DisplayedErrorIsFirst(issues: seq<Issue>, path: string, n: nat)
    requires n < |issues| && issues[n].path == path
    requires forall j :: 0 <= j < n ==> issues[j].path != path
    ensures DisplayedError(issues, path) == Some(issues[n].message)
  {
    assert issues[n] in issues;
    var d := DisplayedError(issues, path);
    var i :| 0 <= i < |issues| && issues[i].path == path && issues[i].message == d.value
             && forall j :: 0 <= j < i ==> issues[j].path != path;
    assert i == n;
  }
}
