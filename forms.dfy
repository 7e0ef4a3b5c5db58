/** Validation issues the form schemas report, each attached to one field. */
module Forms {
  datatype Issue = Issue(path: string, message: string)

  /** A `.min(n, message)` check on a string field: one issue when it is too short. */
  function MinLength(path: string, value: string, n: nat, message: string): (r: seq<Issue>)
    ensures r == [] <==> |value| >= n
    ensures r != [] ==> r == [Issue(path, message)]
  {
    if |value| < n then [Issue(path, message)] else []
  }

  /** The issues reported for one field. */
  function IssuesAt(issues: seq<Issue>, path: string): set<Issue> {
    set i | 0 <= i < |issues| && issues[i].path == path :: issues[i]
  }
}
