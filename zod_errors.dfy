// Form validation messages: the translation of one schema issue into a
// user-facing message chosen by the field's expected kind, and the
// population of a form's error record from a list of issues (the first
// issue for a field wins). The translation function is a parameter.

module ZodErrors {
  import opened Common

  /** The expected kind of a form field. */
  datatype FieldKind = StringField | NumberField | DateField

  /** The issue codes the mapping distinguishes; any other code is kept by
      name. */
  datatype IssueCode = InvalidType | TooSmall | TooBig | OtherCode(name: string)

  /** A validation issue: its code, its path into the form, the schema's own
      message and, for a size check, its minimum. */
  datatype Issue = Issue(code: IssueCode, path: seq<string>, message: string, minimum: Option<int>)

  /** `issue.path[0]`, with a missing first element read as "" (both are
      falsy). */
  function FieldOf(issue: Issue): string
  {
    if issue.path == [] then "" else issue.path[0]
  }

  /** The kind recorded for the issue's field, if any. */
  function KindOf(issue: Issue, meta: map<string, FieldKind>): (k: Option<FieldKind>)
    ensures k.Some? <==> FieldOf(issue) != "" && FieldOf(issue) in meta
    ensures k.Some? ==> k.value == meta[FieldOf(issue)]
  {
    var field := FieldOf(issue);
    if field != "" && field in meta then Some(meta[field]) else None
  }

  // ---------------------------------------------------------------------
  // String.prototype.replace with a string pattern
  // ---------------------------------------------------------------------

  predicate OccursAt(s: string, pat: string, j: int)
  {
    0 <= j && j + |pat| <= |s| && s[j..j + |pat|] == pat
  }

  lemma OccursAtTail(s: string, pat: string, j: int)
    requires s != [] && j >= 0
    ensures OccursAt(s[1..], pat, j) <==> OccursAt(s, pat, j + 1)
  {
    if 0 <= j && j + |pat| <= |s| - 1 {
      assert s[1..][j..j + |pat|] == s[j + 1..j + 1 + |pat|];
    }
  }

  /** The index of the first occurrence of `pat` in `s`, or -1. */
  function FindSub(s: string, pat: string): (r: int)
    ensures r == -1 || OccursAt(s, pat, r)
    ensures r == -1 ==> forall j :: !OccursAt(s, pat, j)
    ensures r >= 0 ==> forall j :: 0 <= j < r ==> !OccursAt(s, pat, j)
  {
    if |s| < |pat| then -1
    else if s[..|pat|] == pat then 0
    else
      var k := FindSub(s[1..], pat);
      assert forall j :: j >= 0 ==> (OccursAt(s[1..], pat, j) <==> OccursAt(s, pat, j + 1)) by {
        forall j | j >= 0 ensures OccursAt(s[1..], pat, j) <==> OccursAt(s, pat, j + 1) {
          OccursAtTail(s, pat, j);
        }
      }
      assert !OccursAt(s, pat, 0);
      assert forall j :: OccursAt(s, pat, j) ==> j == 0 || OccursAt(s[1..], pat, j - 1);
      if k < 0 then -1 else k + 1
  }

  /** `s.replace(pat, rep)`: only the first occurrence is replaced. */
  function ReplaceOnce(s: string, pat: string, rep: string): (r: string)
    ensures FindSub(s, pat) == -1 ==> r == s
  {
    var k := FindSub(s, pat);
    if k < 0 then s else s[..k] + rep + s[k + |pat|..]
  }

  /** A text holding the placeholder, with no `{` before it, has exactly
      that placeholder filled in. */
  lemma ReplaceOnceFills(pre: string, post: string, value: string)
    requires '{' !in pre
    ensures ReplaceOnce(pre + "{min}" + post, "{min}", value) == pre + value + post
  {
    var s := pre + "{min}" + post;
    assert OccursAt(s, "{min}", |pre|) by {
      assert s[|pre|..|pre| + 5] == "{min}";
    }
    forall j | 0 <= j < |pre|
      ensures !OccursAt(s, "{min}", j)
    {
      assert s[j] == pre[j];
    }
    var k := FindSub(s, "{min}");
    assert k == |pre|;
    assert s[..k] == pre;
    assert s[k + 5..] == post;
  }

  // ---------------------------------------------------------------------
  // zodIssueMessage
  // ---------------------------------------------------------------------

  /** zodIssueMessage: wrong or missing values by the field's kind, a
      number's minimum (1 when the issue gives none) in the
      "field_min_value" text, the schema's own message for a too-big value,
      and otherwise that message unless it is empty. */
  function ZodIssueMessage(issue: Issue, meta: map<string, FieldKind>, t: string -> string): (m: string)
    ensures issue.code == InvalidType ==>
      m == (match KindOf(issue, meta)
            case Some(NumberField) => t("field_invalid_number")
            case Some(DateField) => t("field_invalid_date")
            case _ => t("field_required"))
    ensures issue.code == TooSmall && KindOf(issue, meta) != Some(NumberField) ==> m == t("field_required")
    ensures issue.code == TooBig ==> m == issue.message
    ensures issue.code.OtherCode? ==> m == (if issue.message != "" then issue.message else t("field_required"))
  {
    var kind := KindOf(issue, meta);
    match issue.code
    case InvalidType =>
      if kind == Some(NumberField) then t("field_invalid_number")
      else if kind == Some(DateField) then t("field_invalid_date")
      else t("field_required")
    case TooSmall =>
      if kind == Some(NumberField) then
        var min := if issue.minimum.Some? then issue.minimum.value else 1;
        ReplaceOnce(t("field_min_value"), "{min}", IntToString(min))
      else t("field_required")
    case TooBig => issue.message
    case OtherCode(_) => if issue.message != "" then issue.message else t("field_required")
  }

  /** A too-small number reports its minimum, or 1 when the issue gives
      none, in place of the translation's placeholder. */
  lemma MinimumInMessage(issue: Issue, meta: map<string, FieldKind>, t: string -> string, pre: string, post: string)
    requires issue.code == TooSmall && KindOf(issue, meta) == Some(NumberField)
    requires t("field_min_value") == pre + "{min}" + post && '{' !in pre
    ensures ZodIssueMessage(issue, meta, t)
      == pre + IntToString(if issue.minimum.Some? then issue.minimum.value else 1) + post
  {
    ReplaceOnceFills(pre, post, IntToString(if issue.minimum.Some? then issue.minimum.value else 1));
  }

  // ---------------------------------------------------------------------
  // mapZodErrors
  // ---------------------------------------------------------------------

  /** One iteration: a field with no message yet (absent or empty) gets the
      issue's message. */
  function Step(errors: map<string, string>, issue: Issue, meta: map<string, FieldKind>, t: string -> string): map<string, string>
  {
    var field := FieldOf(issue);
    if field != "" && (field !in errors || errors[field] == "") then
      errors[field := ZodIssueMessage(issue, meta, t)]
    else errors
  }

  /** The error record after all issues, in order. */
  function MapErrors(issues: seq<Issue>, errors: map<string, string>, meta: map<string, FieldKind>, t: string -> string): map<string, string>
    decreases |issues|
  {
    if issues == [] then errors else MapErrors(issues[1..], Step(errors, issues[0], meta, t), meta, t)
  }

  /** A field that already has a message keeps it. */
  lemma {:induction false} MapErrorsKeepsSet(issues: seq<Issue>, errors: map<string, string>, meta: map<string, FieldKind>, t: string -> string)
    ensures forall f :: f in errors && errors[f] != "" ==>
      f in MapErrors(issues, errors, meta, t) && MapErrors(issues, errors, meta, t)[f] == errors[f]
    decreases |issues|
  {
    if issues != [] {
      MapErrorsKeepsSet(issues[1..], Step(errors, issues[0], meta, t), meta, t);
    }
  }

  /** The non-empty fields the issues name. */
  function NamedFields(issues: seq<Issue>): set<string>
  {
    set i | 0 <= i < |issues| && FieldOf(issues[i]) != "" :: FieldOf(issues[i])
  }

  lemma NamedFieldsCons(issues: seq<Issue>)
    requires issues != []
    ensures NamedFields(issues)
      == NamedFields(issues[1..]) + (if FieldOf(issues[0]) != "" then {FieldOf(issues[0])} else {})
  {
    var all, rest := NamedFields(issues), NamedFields(issues[1..]);
    forall f | f in all ensures f in rest || (FieldOf(issues[0]) != "" && f == FieldOf(issues[0])) {
      var i :| 0 <= i < |issues| && FieldOf(issues[i]) != "" && f == FieldOf(issues[i]);
      if i > 0 {
        assert issues[1..][i - 1] == issues[i];
      }
    }
    forall f | f in rest ensures f in all {
      var i :| 0 <= i < |issues[1..]| && FieldOf(issues[1..][i]) != "" && f == FieldOf(issues[1..][i]);
      assert issues[1..][i] == issues[i + 1];
    }
  }

  /** The record gains exactly the non-empty fields named by the issues. */
  lemma {:induction false} MapErrorsKeys(issues: seq<Issue>, errors: map<string, string>, meta: map<string, FieldKind>, t: string -> string)
    ensures MapErrors(issues, errors, meta, t).Keys == errors.Keys + NamedFields(issues)
    decreases |issues|
  {
    if issues != [] {
      MapErrorsKeys(issues[1..], Step(errors, issues[0], meta, t), meta, t);
      NamedFieldsCons(issues);
    }
  }

  /** The first issue naming a field without a message decides that
      field's message, provided its message is not empty. */
  lemma {:induction false} MapErrorsFirstWins(issues: seq<Issue>, errors: map<string, string>, meta: map<string, FieldKind>, t: string -> string, k: nat)
    requires k < |issues| && FieldOf(issues[k]) != ""
    requires FieldOf(issues[k]) !in errors || errors[FieldOf(issues[k])] == ""
    requires forall j :: 0 <= j < k ==> FieldOf(issues[j]) != FieldOf(issues[k])
    requires ZodIssueMessage(issues[k], meta, t) != ""
    ensures FieldOf(issues[k]) in MapErrors(issues, errors, meta, t)
    ensures MapErrors(issues, errors, meta, t)[FieldOf(issues[k])] == ZodIssueMessage(issues[k], meta, t)
    decreases k
  {
    var e' := Step(errors, issues[0], meta, t);
    if k == 0 {
      MapErrorsKeepsSet(issues[1..], e', meta, t);
    } else {
      assert issues[1..][k - 1] == issues[k];
      forall j | 0 <= j < k - 1 ensures FieldOf(issues[1..][j]) != FieldOf(issues[k]) {
        assert issues[1..][j] == issues[j + 1];
      }
      MapErrorsFirstWins(issues[1..], e', meta, t, k - 1);
    }
  }

  /** The reactive errors record a form owns. */
  class ErrorRecord {
    var entries: map<string, string>

    constructor(entries: map<string, string>)
      ensures this.entries == entries
    {
      this.entries := entries;
    }
  }

  /** mapZodErrors: fills `errors` in place, issue by issue. */
  method MapZodErrors(issues: seq<Issue>, errors: ErrorRecord, meta: map<string, FieldKind>, t: string -> string)
    modifies errors
    ensures errors.entries == MapErrors(issues, old(errors.entries), meta, t)
  {
    var i := 0;
    while i < |issues|
      invariant 0 <= i <= |issues|
      invariant MapErrors(issues[i..], errors.entries, meta, t) == MapErrors(issues, old(errors.entries), meta, t)
    {
      assert issues[i..][1..] == issues[i + 1..];
      var issue := issues[i];
      var field := FieldOf(issue);
      if field != "" && (field !in errors.entries || errors.entries[field] == "") {
        errors.entries := errors.entries[field := ZodIssueMessage(issue, meta, t)];
      }
      i := i + 1;
    }
  }
}
