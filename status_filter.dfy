/**
 * The build-status filter: a `StatusFilter` is built once from optional
 * lists, regular expressions and predicates for a builder's name, project and
 * branch, plus an optional predicate over the whole status, and then answers
 * whether a given builder status passes.
 *
 * Regular-expression matching and the user-supplied callbacks are not
 * interpreted: a compiled expression is an abstract `Regex` and matching is
 * the parameter `reMatch`; each callback is an arbitrary total predicate.
 */
module StatusFilter {
  import opened Wrappers

  /** The Python values a filter list may hold: `None`, the `NotABranch` sentinel, or a string. */
  datatype Value = PyNone | NotABranch | Str(s: string)

  /** A list argument as a caller passes it: a Python list, or any single non-list value. */
  datatype ListArg = Scalar(v: Value) | List(items: seq<Value>)

  /** A compiled regular expression, kept abstract: its source text and its flags. */
  datatype Regex = Regex(pattern: string, flags: nat)

  /** A regex argument: absent, a pattern string to be compiled, or an object that already has `match`. */
  datatype RegexArg = NoRegex | Pattern(source: string) | Compiled(regex: Regex)

  /** The three status attributes the filter inspects, in the order it checks them. */
  datatype Attr = Name | Project | Branch

  /** A builder status as the filter sees it; each attribute is `None` or a string. */
  datatype BuilderStatus = BuilderStatus(name: Option<string>, project: Option<string>, branch: Option<string>)

  /** One normalised check: optional list, optional regex, optional predicate, and the attribute it reads. */
  datatype Check = Check(list: Option<seq<Value>>, re: Option<Regex>, fn: Option<Option<string> -> bool>, attr: Attr)

  /** A constructed filter: the optional whole-status predicate and the checks in order. */
  datatype Filter = Filter(filterFn: Option<BuilderStatus -> bool>, checks: seq<Check>)

  /** The values a list argument stands for once it is seen as a list. */
  function Values(x: ListArg): seq<Value>
  {
    match x
    case Scalar(v) => [v]
    case List(xs) => xs
  }

  /** `mklist`: `None` stays `None`, a list passes through, any other value is wrapped. */
  function MkList(x: ListArg): (r: Option<seq<Value>>)
    ensures r.None? <==> x == Scalar(PyNone)
    ensures r.Some? ==> r.value == Values(x)
  {
    match x
    case Scalar(v) => if v != PyNone then Some([v]) else None
    case List(xs) => Some(xs)
  }

  /** `mklist_br`: only the `NotABranch` sentinel means "no list"; `None` itself is wrapped. */
  function MkListBr(x: ListArg): (r: Option<seq<Value>>)
    ensures r.None? <==> x == Scalar(NotABranch)
    ensures r.Some? ==> r.value == Values(x)
  {
    if x == Scalar(NotABranch) then None
    else match x
      case Scalar(v) => Some([v])
      case List(xs) => Some(xs)
  }

  /** What `re.compile` gives for a pattern string: that pattern with no flags. */
  function Compile(source: string): Regex
  {
    Regex(source, 0)
  }

  /** `mkre`: compile a pattern string, pass an absent or already-compiled regex through. */
  function MkRe(r: RegexArg): (c: Option<Regex>)
    ensures c.None? <==> r == NoRegex
    ensures r.Pattern? ==> c == Some(Compile(r.source))
    ensures r.Compiled? ==> c == Some(r.regex)
  {
    if r != NoRegex && !r.Compiled? then Some(Compile(r.source))
    else match r
      case Compiled(re) => Some(re)
      case _ => None
  }

  /** The Python value an attribute holds, for comparison with list members. */
  function AsValue(o: Option<string>): Value
  {
    match o
    case None => PyNone
    case Some(s) => Str(s)
  }

  /** The list test: no list, or the value is one of its members. */
  predicate ListAccepts(value: Option<string>, list: Option<seq<Value>>)
  {
    list.None? || AsValue(value) in list.value
  }

  /** The regex test: no regex, or the value is a string the regex matches. */
  predicate RegexAccepts(value: Option<string>, re: Option<Regex>, reMatch: (Regex, string) -> bool)
  {
    re.None? || (value.Some? && reMatch(re.value, value.value))
  }

  /** The predicate test: no predicate, or the predicate holds of the value. */
  predicate FnAccepts(value: Option<string>, fn: Option<Option<string> -> bool>)
  {
    fn.None? || fn.value(value)
  }

  /** `_filter_value`: reject at the first failing test, in the order list, regex, predicate. */
  function FilterValue(value: Option<string>, list: Option<seq<Value>>, re: Option<Regex>,
                       fn: Option<Option<string> -> bool>, reMatch: (Regex, string) -> bool): (ok: bool)
    ensures ok <==> ListAccepts(value, list) && RegexAccepts(value, re, reMatch) && FnAccepts(value, fn)
  {
    if list.Some? && AsValue(value) !in list.value then false
    else if re.Some? && (value.None? || !reMatch(re.value, value.value)) then false
    else if fn.Some? && !fn.value(value) then false
    else true
  }

  /** `getattr(builderStatus, attr)` for the three attributes the checks name. */
  function GetAttr(status: BuilderStatus, attr: Attr): Option<string>
  {
    match attr
    case Name => status.name
    case Project => status.project
    case Branch => status.branch
  }

  /** One check applied to a status. */
  predicate CheckAccepts(c: Check, status: BuilderStatus, reMatch: (Regex, string) -> bool)
  {
    FilterValue(GetAttr(status, c.attr), c.list, c.re, c.fn, reMatch)
  }

  /** The loop of `filter_status`: run the checks in order and stop at the first rejection. */
  function ChecksPass(checks: seq<Check>, status: BuilderStatus, reMatch: (Regex, string) -> bool): (ok: bool)
    ensures ok <==> forall i :: 0 <= i < |checks| ==> CheckAccepts(checks[i], status, reMatch)
    decreases |checks|
  {
    if checks == [] then true
    else if !CheckAccepts(checks[0], status, reMatch) then false
    else
      var rest := ChecksPass(checks[1..], status, reMatch);
      assert forall i :: 1 <= i < |checks| ==> checks[i] == checks[1..][i - 1];
      rest
  }

  /** `filter_status`: the whole-status predicate first, then every check. */
  function FilterStatus(f: Filter, status: BuilderStatus, reMatch: (Regex, string) -> bool): (ok: bool)
    ensures ok <==> (f.filterFn.None? || f.filterFn.value(status))
                    && forall i :: 0 <= i < |f.checks| ==> CheckAccepts(f.checks[i], status, reMatch)
  {
    if f.filterFn.Some? && !f.filterFn.value(status) then false
    else ChecksPass(f.checks, status, reMatch)
  }

  /**
   * `StatusFilter.__init__`: every argument is optional, as in the source.
   * The branch list goes through `MkList`, like the other two; `MkListBr` is not used.
   */
  function New(filterFn: Option<BuilderStatus -> bool> := None,
               builderName: ListArg := Scalar(PyNone), builderNameRe: RegexArg := NoRegex,
               builderNameFn: Option<Option<string> -> bool> := None,
               project: ListArg := Scalar(PyNone), projectRe: RegexArg := NoRegex,
               projectFn: Option<Option<string> -> bool> := None,
               branch: ListArg := Scalar(PyNone), branchRe: RegexArg := NoRegex,
               branchFn: Option<Option<string> -> bool> := None): (f: Filter)
    ensures f.filterFn == filterFn
    ensures |f.checks| == 3
    ensures f.checks[0] == Check(MkList(builderName), MkRe(builderNameRe), builderNameFn, Name)
    ensures f.checks[1] == Check(MkList(project), MkRe(projectRe), projectFn, Project)
    ensures f.checks[2] == Check(MkList(branch), MkRe(branchRe), branchFn, Branch)
  {
    Filter(filterFn, [
      Check(MkList(builderName), MkRe(builderNameRe), builderNameFn, Name),
      Check(MkList(project), MkRe(projectRe), projectFn, Project),
      Check(MkList(branch), MkRe(branchRe), branchFn, Branch)
    ])
  }

  // ---------------------------------------------------------------------------
  // Properties of the filter
  // ---------------------------------------------------------------------------

  /** `mklist` and `mklist_br` differ exactly on `None` and on the `NotABranch` sentinel. */
  lemma MkListVersusMkListBr(x: ListArg)
    ensures MkList(x) != MkListBr(x) <==> x == Scalar(PyNone) || x == Scalar(NotABranch)
  {
  }

  /** A single non-`None` value is normalised to the same list as the one-element list holding it. */
  lemma MkListScalarIsSingleton(v: Value)
    requires v != PyNone
    ensures MkList(Scalar(v)) == MkList(List([v])) == Some([v])
  {
  }

  /** With no list, no regex and no predicate, every value passes. */
  lemma FilterValueUnconstrained(value: Option<string>, reMatch: (Regex, string) -> bool)
    ensures FilterValue(value, None, None, None, reMatch)
  {
  }

  /** A present list rejects every value that is not one of its members. */
  lemma FilterValueNotListed(value: Option<string>, list: seq<Value>, re: Option<Regex>,
                             fn: Option<Option<string> -> bool>, reMatch: (Regex, string) -> bool)
    requires AsValue(value) !in list
    ensures !FilterValue(value, Some(list), re, fn, reMatch)
  {
  }

  /** A present regex rejects a `None` value, whatever its pattern and however matching behaves. */
  lemma FilterValueRegexRejectsNone(re: Regex, list: Option<seq<Value>>,
                                    fn: Option<Option<string> -> bool>, reMatch: (Regex, string) -> bool)
    ensures !FilterValue(None, list, Some(re), fn, reMatch)
  {
  }

  /** A whole-status predicate that rejects the status decides the answer, whatever the checks say. */
  lemma FilterFnRejectionWins(f: Filter, status: BuilderStatus, reMatch: (Regex, string) -> bool)
    requires f.filterFn.Some? && !f.filterFn.value(status)
    ensures !FilterStatus(f, status, reMatch)
  {
  }

  /**
   * A filter built by `New` accepts a status exactly when the whole-status
   * predicate (if any) accepts it and the name, project and branch each pass
   * their normalised list, regex and predicate.
   */
  lemma FilterStatusOfNew(filterFn: Option<BuilderStatus -> bool>,
                          builderName: ListArg, builderNameRe: RegexArg, builderNameFn: Option<Option<string> -> bool>,
                          project: ListArg, projectRe: RegexArg, projectFn: Option<Option<string> -> bool>,
                          branch: ListArg, branchRe: RegexArg, branchFn: Option<Option<string> -> bool>,
                          status: BuilderStatus, reMatch: (Regex, string) -> bool)
    ensures FilterStatus(New(filterFn, builderName, builderNameRe, builderNameFn, project, projectRe, projectFn,
                             branch, branchRe, branchFn), status, reMatch)
            <==> (filterFn.None? || filterFn.value(status))
                 && FilterValue(status.name, MkList(builderName), MkRe(builderNameRe), builderNameFn, reMatch)
                 && FilterValue(status.project, MkList(project), MkRe(projectRe), projectFn, reMatch)
                 && FilterValue(status.branch, MkList(branch), MkRe(branchRe), branchFn, reMatch)
  {
  }

  /** A filter built with no arguments accepts every status. */
  lemma DefaultFilterAcceptsAll(status: BuilderStatus, reMatch: (Regex, string) -> bool)
    ensures FilterStatus(New(), status, reMatch)
  {
  }

  /**
   * Because the branch argument goes through `MkList` and not `MkListBr`,
   * passing the `NotABranch` sentinel as the branch yields the list
   * `[NotABranch]`, which no branch value equals: such a filter rejects every
   * status, where `MkListBr` would have dropped the branch list altogether.
   */
  lemma BranchNotABranchRejectsAll(status: BuilderStatus, reMatch: (Regex, string) -> bool)
    ensures !FilterStatus(New(branch := Scalar(NotABranch)), status, reMatch)
    ensures MkListBr(Scalar(NotABranch)).None?
  {
  }
}
