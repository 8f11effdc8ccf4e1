/** The field-error maps kept by the profile and complaint forms: a failed
    schema check turns its issue list into `Record<string, string>` keyed by the
    first element of each issue's path, and editing a field deletes that
    field's entry. */
module FormErrors {
  import opened Common

  /** One validation issue as the schema library reports it. */
  datatype Issue = Issue(path: seq<string>, message: string)

  /** `issue.path[0]` used as an object key; an empty path reads `undefined`,
      which becomes the key "undefined". */
  function IssueKey(i: Issue): string {
    if |i.path| > 0 then i.path[0] else "undefined"
  }

  /** The map that `issues.forEach(i => errors[i.path[0]] = i.message)` leaves
      behind, starting from `{}`. */
  function IssueMap(issues: seq<Issue>): map<string, string>
  {
    if issues == [] then map[]
    else
      var last := issues[|issues| - 1];
      IssueMap(issues[..|issues| - 1])[IssueKey(last) := last.message]
  }

  /** The `forEach` loop itself. */
  method CollectErrors(issues: seq<Issue>) returns (errors: map<string, string>)
    ensures errors == IssueMap(issues)
    ensures errors.Keys == IssueKeys(issues)
  {
    errors := map[];
    var i := 0;
    while i < |issues|
      invariant 0 <= i <= |issues|
      invariant errors == IssueMap(issues[..i])
    {
      assert issues[..i + 1][..i] == issues[..i];
      errors := errors[IssueKey(issues[i]) := issues[i].message];
      i := i + 1;
    }
    assert issues[..|issues|] == issues;
    IssueMapKeys(issues);
  }

  /** The set of fields some issue points at. */
  function IssueKeys(issues: seq<Issue>): set<string>
  {
    set i | i in issues :: IssueKey(i)
  }

  /** Every issue leaves an entry, and there are no other entries. */
  lemma {:induction false} IssueMapKeys(issues: seq<Issue>)
    ensures IssueMap(issues).Keys == IssueKeys(issues)
  {
    if issues != [] {
      var init := issues[..|issues| - 1];
      var last := issues[|issues| - 1];
      IssueMapKeys(init);
      assert issues == init + [last];
      assert IssueKeys(issues) == IssueKeys(init) + {IssueKey(last)};
    }
  }

  /** The message kept for a field is that of the LAST issue about it: a later
      issue on the same field overwrites an earlier one. */
  lemma {:induction false} LastIssueWins(issues: seq<Issue>, j: nat)
    requires j < |issues|
    requires forall k :: j < k < |issues| ==> IssueKey(issues[k]) != IssueKey(issues[j])
    ensures IssueKey(issues[j]) in IssueMap(issues)
    ensures IssueMap(issues)[IssueKey(issues[j])] == issues[j].message
  {
    var init := issues[..|issues| - 1];
    if j < |issues| - 1 {
      LastIssueWins(init, j);
    }
  }

  /** The toast shown after a failed check: the first issue's message, if any. */
  function FirstMessage(issues: seq<Issue>): (r: Option<string>)
    ensures r.Some? <==> |issues| > 0
    ensures r.Some? ==> r.value == issues[0].message
  {
    if |issues| > 0 then Some(issues[0].message) else None
  }

  /** `if (errors[key]) { delete errors[key] }`: the entry goes only when its
      message is truthy; an entry holding "" stays. */
  function ClearError(errors: map<string, string>, key: string): (r: map<string, string>)
    ensures key in r <==> key in errors && errors[key] == ""
    ensures forall k :: k != key ==> (k in r <==> k in errors)
    ensures forall k :: k in r ==> k in errors && r[k] == errors[k]
  {
    if key in errors && errors[key] != "" then errors - {key} else errors
  }

  /** `issues.map(e => e.message).join(", ")`. */
  function JoinMessages(ms: seq<string>): (r: string)
    ensures ms == [] ==> r == ""
    ensures |ms| == 1 ==> r == ms[0]
    ensures |ms| >= 1 ==> |r| >= |ms[0]| && r[..|ms[0]|] == ms[0]
  {
    if ms == [] then ""
    else if |ms| == 1 then ms[0]
    else ms[0] + ", " + JoinMessages(ms[1..])
  }
}
