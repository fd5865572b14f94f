# Buildbot status filter and users connector, modelled in Dafny

This project models two sequential pieces of Buildbot's master.

**The build-status filter** (`StatusFilter`, file `status_filter.dfy`). A
`StatusFilter` is built once. Its inputs are an optional predicate over the whole
builder status, and an optional list, regex and predicate for each of the
builder name, the project and the branch. The constructor normalises these into
three checks, always in the order name, project, branch. A list argument goes
through `mklist`, which wraps a single value into a one-element list. A regex
argument goes through `mkre`, which compiles a pattern string. `filter_status`
accepts a status when the whole-status predicate (if any) accepts it and every
check passes. A check passes when the attribute value is in the list (if any),
is a string the regex matches (if any), and satisfies the predicate (if any).
Regex matching is the abstract parameter `reMatch`. The user callbacks are
arbitrary total predicates. The branch argument goes through `mklist`, like the
other two. The helper `mklist_br`, which treats the `NotABranch` sentinel as
"no list", is defined in the source but unused. The model keeps both as
written. `BranchNotABranchRejectsAll` shows what follows: `branch=NotABranch`
makes the filter reject every status.

**The users connector** (`Users`, file `users.dfy`). It is a class that holds the
`users` table (uid → optional identifier) and the `users_info` table
((uid, attr_type) → attr_data) as map fields, plus the auto-increment counter that
hands out uids. Its invariant `Valid` states the store's constraints:

- every attribute row belongs to an existing user;
- a user has at most one value per attribute type, because (uid, attr_type) is the map key;
- a non-`None` identifier belongs to at most one user;
- an observation (attr_type, attr_data) belongs to at most one user;
- every uid is below the counter, so a uid is never reused.

`AddUser` is find-or-create keyed by the observation. `GetUser` returns a
`UserView`, or `None` for an unknown uid. `UpdateUser` sets the identifier
and/or upserts one attribute. `RemoveUser` deletes a user and never fails. Every
state-changing method states the whole new state. `UsersScenarios`
(`users_scenarios.dfy`) replays each sequential test of
`master/buildbot/test/unit/test_db_users.py` on the model, with the expected
results as postconditions. It also holds the all-inputs idempotence property of
`AddUser`.

`master/buildbot/db/users.py` is not part of this model. The connector's
behaviour is taken from the test file. Where the test file does not pin a case,
the model follows the store constraints listed above.

## Model

| member | source | states |
|---|---|---|
| StatusFilter.MkList | master/buildbot/status/filter.py:62-65 | the result is `None` exactly when the argument is `None`; otherwise it is the argument's values, a list unchanged or a single value as a one-element list |
| StatusFilter.MkListBr | master/buildbot/status/filter.py:66-71 | the result is `None` exactly for `NotABranch`; any other single value, `None` included, becomes a one-element list, and a list passes unchanged |
| StatusFilter.MkRe | master/buildbot/status/filter.py:72-75 | no regex stays absent, a pattern string becomes its compiled regex, and an already-compiled regex passes unchanged |
| StatusFilter.FilterValue | master/buildbot/status/filter.py:84-91 | accepts exactly when the list test, the regex test and the predicate test all pass, so the order of the early returns does not matter |
| StatusFilter.ChecksPass | master/buildbot/status/filter.py:96-99 | the early-exit loop over the checks accepts exactly when every check accepts |
| StatusFilter.FilterStatus | master/buildbot/status/filter.py:93-100 | accepts exactly when the whole-status predicate is absent or accepts, and every check accepts |
| StatusFilter.New | master/buildbot/status/filter.py:77-82 | keeps the whole-status predicate and builds exactly three checks, name, project, branch in that order; each uses `mklist` and `mkre` on its own arguments |
| StatusFilter.MkListVersusMkListBr | master/buildbot/status/filter.py:62-71 | `mklist` and `mklist_br` give different results exactly on `None` and on `NotABranch` |
| StatusFilter.MkListScalarIsSingleton | master/buildbot/status/filter.py:63-64 | a single non-`None` value normalises to the same list as the one-element list that holds it |
| StatusFilter.FilterValueUnconstrained | master/buildbot/status/filter.py:84-91 | with no list, no regex and no predicate, every value is accepted |
| StatusFilter.FilterValueNotListed | master/buildbot/status/filter.py:85-86 | a present list rejects every value that is not one of its members, whatever the other tests |
| StatusFilter.FilterValueRegexRejectsNone | master/buildbot/status/filter.py:87-88 | a present regex rejects a `None` value for every pattern and every matcher |
| StatusFilter.FilterFnRejectionWins | master/buildbot/status/filter.py:94-95 | a whole-status predicate that rejects the status makes `filter_status` reject it, whatever the checks |
| StatusFilter.FilterStatusOfNew | master/buildbot/status/filter.py:77-100 | a constructed filter accepts a status exactly when the whole-status predicate accepts and the name, project and branch each pass their normalised list, regex and predicate |
| StatusFilter.DefaultFilterAcceptsAll | master/buildbot/status/filter.py:24-28 | a filter built with every argument at its default `None` accepts every status |
| StatusFilter.BranchNotABranchRejectsAll | master/buildbot/status/filter.py:81 | since the branch goes through `mklist`, `branch=NotABranch` gives the list `[NotABranch]`, and every status is rejected; `mklist_br` would have dropped the list |
| Users.AttrsOf | master/buildbot/test/unit/test_db_users.py:50-61 | the view's attribute entries are exactly the stored attribute types of that uid, each mapped to its stored data |
| Users.AttrsOfAfterWrite | master/buildbot/test/unit/test_db_users.py:187-216 | writing attribute type t of a user changes that user's attribute view in entry t only; the other types keep their values |
| Users.AttrsOfOtherAfterWrite | master/buildbot/test/unit/test_db_users.py:187-191 | writing an attribute of one uid leaves the attribute view of every other uid unchanged |
| Users.AttrsOfFirstWrite | master/buildbot/test/unit/test_db_users.py:65-84 | a uid with no attribute rows that receives one has exactly that one attribute |
| Users.UsersConnector.constructor | master/buildbot/test/unit/test_db_users.py:25-31 | a fresh connector has empty `users` and `users_info` tables and satisfies the invariant |
| Users.UsersConnector.AddUser | master/buildbot/test/unit/test_db_users.py:65-108 | keeps the invariant; a stored observation returns its owner's uid and changes nothing; else an identifier already held is an integrity error that changes nothing; else one user row with the identifier and one attribute row are inserted under a fresh uid, which is returned |
| Users.UsersConnector.GetUser | master/buildbot/test/unit/test_db_users.py:157-185 | returns `None` exactly for an unknown uid; otherwise the uid, its identifier and all its stored attributes |
| Users.UsersConnector.UpdateUser | master/buildbot/test/unit/test_db_users.py:187-248 | keeps the invariant; an unknown uid is a no-op that succeeds; it fails, changing nothing, exactly when the new identifier or the new observation belongs to another user; otherwise it sets the identifier if given and overwrites or inserts `(uid, attr_type)` if given, and nothing else changes |
| Users.UsersConnector.RemoveUser | master/buildbot/test/unit/test_db_users.py:299-318 | keeps the invariant; the user row is gone and all other user rows stay; an unknown uid changes nothing |
| UsersScenarios.User1 | master/buildbot/test/unit/test_db_users.py:38-41 | the fixture user 1 built through the connector: uid 1, identifier "soap", the one IPv9 attribute |
| UsersScenarios.AddUserNew | master/buildbot/test/unit/test_db_users.py:65-84 | on an empty store the call succeeds and leaves exactly one user row ("soap") and one attribute row, both for the returned uid |
| UsersScenarios.AddUserExisting | master/buildbot/test/unit/test_db_users.py:86-108 | re-adding the IPv9 observation as "soapy" returns uid 1, and both tables are unchanged; the identifier stays "soap" |
| UsersScenarios.AddUserExistingIdentifier | master/buildbot/test/unit/test_db_users.py:143-155 | a new observation under the held identifier "soap" is an integrity error |
| UsersScenarios.GetUserAndNoMatch | master/buildbot/test/unit/test_db_users.py:157-185 | user 1 reads back as {uid 1, identifier "soap", IPv9}; uid 3 reads back as `None` |
| UsersScenarios.GetUserMultiAttr | master/buildbot/test/unit/test_db_users.py:167-175 | the fixture user 2 (identifier "soap", git and irc rows) reads back as exactly {uid 2, identifier "soap", git, irc} |
| UsersScenarios.UpdateUserExistingType | master/buildbot/test/unit/test_db_users.py:187-200 | overwriting IPv9 replaces its value only, and the identifier stays "soap" |
| UsersScenarios.UpdateUserNewType | master/buildbot/test/unit/test_db_users.py:202-216 | adding IPv4 keeps IPv9 and the identifier |
| UsersScenarios.UpdateUserIdentifier | master/buildbot/test/unit/test_db_users.py:218-231 | an identifier-only update sets "lye" and keeps IPv9 |
| UsersScenarios.UpdateUserBoth | master/buildbot/test/unit/test_db_users.py:233-248 | a combined update sets "lye", adds IPv4 and keeps IPv9 |
| UsersScenarios.UpdateNoMatch | master/buildbot/test/unit/test_db_users.py:271-297 | identifier and attribute updates of uid 3 both succeed, and user 1 is unchanged |
| UsersScenarios.RemoveUserAndNoMatch | master/buildbot/test/unit/test_db_users.py:299-318 | removing uid 3 succeeds and changes nothing; removing uid 1 empties the users table |
| UsersScenarios.AddUserTwice | master/buildbot/test/unit/test_db_users.py:86-108 | for any store, when the first call succeeds, the same observation added again gives the same uid; after a creating first call the users table is the old table plus that uid with the first identifier, and the counter moved by one; after a finding first call the users table and counter are unchanged; the attribute table gains at most that one row; the second call changes nothing |

## Left out

- `StatusFilter.__repr__` and `compare_attrs` (master/buildbot/status/filter.py:22, 102-115). Both read `result_checks`, which the constructor never assigns, and they depend on Python string formatting and on `ComparableMixin`, which is not part of this model.
- Result filtering. `test_status_filter.py` passes `result=` and calls `filter_status` with two arguments. `filter.py` accepts neither, and the model follows `filter.py` as written.
- The regex engine, `re.I` and the user-supplied callbacks. A compiled regex is an abstract record of its pattern and flags, matching is the parameter `reMatch`, and each callback is an arbitrary total function. A callback that raises is not modelled. Neither is a non-string attribute value handed to `match`.
- StatusFilter.MkRe: in the source, a pattern string that `re.compile` rejects (for example `"("`) raises `re.error`, so `__init__` raises. In the model `Compile` is total, so `MkRe` and `New` always succeed. Invalid patterns and that exception are not modelled.
- A builder status is reduced to its name, project and branch, each `None` or a string. The whole-status predicate sees only these.
- Persistence and plumbing of the users connector: SQLAlchemy, the connection pool, Twisted Deferreds, the `fakedb` row helpers, and the `changes` and `change_users` tables.
- Concurrency. The race tests and `_race_hook` (test_db_users.py:110-141, 250-269) are left out, along with the retry-once recovery of `addUser` and the dropped attribute insert of `updateUser` when another writer wins. In a sequential run the retry cannot change the outcome.
- Test pre-states. The model does not insert fixture rows directly. It builds them through the connector, so fixture user 1 gets uid 1 from the auto-increment. For fixture user 2, a placeholder user is added and removed first, so that the fixture gets uid 2. Its identifier "soap" comes from a fake default, and the scenario passes it explicitly.
- Users.UsersConnector.UpdateUser: the tests do not say what happens when the new identifier, or a new attribute observation, belongs to another user. The model reports an integrity error and changes nothing. That is the store's uniqueness constraint.
- Users.UsersConnector.RemoveUser: the model also deletes the user's attribute rows, because every attribute row must belong to an existing user. The test checks only the `users` table.
- Users.UsersConnector: the identifier column is nullable, so `users` maps a uid to an optional identifier, and uniqueness applies only to the identifiers that are present. In the tests, the only row without an identifier is a `fakedb` fixture row, and the model does not build that state. `AddUser` takes a plain string, and `UpdateUser` writes only a given identifier. So every user the model can reach has an identifier.
- `UserView` keeps the uid and identifier apart from the attributes. An attribute type literally named `uid` or `identifier` would clash in the source's dictionary, and that clash is not modelled.
