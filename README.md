# Todo API backend in Dafny

This project models the three request-handling files of the Todo demo's Next.js
backend, and proves what they do:

- `frontend/app/api/todos/route.ts` keeps a module-level task list. `handleTodosRequest`
  checks a bearer token and that the user id in the path is the token's `user_id`. It then
  lists, creates, merges into, marks complete or splices out tasks.
- `frontend/app/api/auth/route.ts` keeps a module-level user list. `handleAuthRequest`
  implements signup, login, password change, and reading and updating the caller's profile,
  by mutating the record that `find` returns.
- `frontend/app/api/route.ts` holds the five exported handlers (`GET` … `DELETE`). Each one
  computes `apiPath` from the URL and decides whether to answer the health check, delegate
  to one of the two handlers above, or answer 404.

Layout, one module per file:

| file | module | contents |
|---|---|---|
| `values.dfy` | `Values` | JavaScript values of a parsed JSON body (`undefined`, `null`, booleans, integers, strings), truthiness, `||`, and the "not `undefined`" test of a spread |
| `seqs.dfy` | `Seqs` | `findIndex`/`find`, `filter`, `splice(i, 1)` |
| `strings.dfy` | `Strings` | `split`, `indexOf`, `replace` with a string pattern, `startsWith`, `parseInt` (sign, decimal digits, `0x` prefix) |
| `requests.dfy` | `Requests` | the path segments after `api`, the bearer token, the token check shared by both handlers |
| `todos.dfy` | `Todos` | class `TaskStore` over `seq<Task>` with the handler and one method per mutating branch |
| `auth.dfy` | `Auth` | class `UserStore` over `seq<User>` with the handler and one method per branch |
| `router.dfy` | `Router` | the five exports' dispatch decisions, and the corrected dispatch of the finding below |

Foreign code becomes a parameter of the handler:

- `jwt.verify` under the server secret is `verify: string -> Option<Claims>`. `None` means it threw.
- `jwt.sign` is modelled by the claims it signs, `{sub: email, user_id: id}`.
- bcrypt's `hash` and `compare` are the function parameters `hash` and `compare`.
- `new Date().toISOString()` is the parameter `now`.

bcrypt rejects data that is not a string, for example a missing `password` field. The
handlers do not catch that rejection, so the host answers 500. The model writes this
outcome as `Crash`.

Where the code's own comments and patterns promise more than the code does, the model
follows the code:

- The comment at `frontend/app/api/route.ts:8` says `apiPath` is "everything after /api/",
  and the patterns at lines 20, 39, 58, 73 and 88 (`^\d+\/tasks` and longer) are written for
  such text. But `apiPath` is only the first `/`-piece of it, so no export ever forwards to
  the task handler (`Router.TodosUnreachable`). None of the task endpoints is reachable
  through the router (see "Findings").
- The comment at `frontend/app/api/todos/route.ts:48` names `GET <userId>/tasks/<id>` as a fetch
  of one task. That branch can never run: the guard at line 38 takes every path whose second
  segment is `tasks` and whose first is non-empty, and segments are never empty, so the guard
  at line 49 is never reached (`Todos.FetchUnreachable`).
  - The "complete, then fetch by id" and "delete, then fetch by id" scenarios are therefore
    stated about the store lookup `Todos.Lookup`, not about an HTTP round trip.
  - Task ids are `todos.length + 1` (line 76), so after a delete two tasks can share an id,
    and "delete, then fetch" can still find a task (`Todos.IdsCollideAfterDelete`).
- Signup refuses an email that is already stored (the check at
  `frontend/app/api/auth/route.ts:31`), so signup keeps emails unique. But the profile update
  at line 155 has no such check, and can give a second user the first user's email
  (`Auth.ProfileUpdateCanDuplicateEmail`).

## Model

| member | source | states |
|---|---|---|
| `Seqs.FindIndex` | frontend/app/api/todos/route.ts:102 | `findIndex`: -1 or an index whose element satisfies the predicate, and no earlier element does |
| `Seqs.FindIndexUnique` | frontend/app/api/todos/route.ts:102 | the first-match property determines the index `findIndex` returns |
| `Seqs.FindIndexUpdate` | frontend/app/api/todos/route.ts:109-110 | overwriting an element with one the predicate judges alike keeps the first match where it was |
| `Seqs.Filter` | frontend/app/api/todos/route.ts:45 | `filter`: every kept element is in the input and satisfies the predicate; every input element that satisfies it is kept |
| `Seqs.FilterAppend` | frontend/app/api/todos/route.ts:45 | filtering a concatenation is the concatenation of the filtered parts, so the order is kept |
| `Seqs.RemoveAt` | frontend/app/api/todos/route.ts:163 | `splice(i, 1)`: one element shorter; the elements before `i` stay, the ones after move down by one |
| `Strings.Split` | frontend/app/api/todos/route.ts:20 | `split` gives at least one piece, and no piece contains the separator |
| `Strings.JoinSplit` | frontend/app/api/todos/route.ts:20 | joining the pieces of a split with the separator gives back the original string |
| `Strings.SplitJoin` | frontend/app/api/todos/route.ts:20 | splitting a join of separator-free pieces gives back the pieces |
| `Strings.SplitPrefix` | frontend/app/api/route.ts:9 | a separator-free prefix becomes the front of the first piece and leaves the other pieces alone |
| `Strings.SplitNoSeparator` | frontend/app/api/todos/route.ts:25 | a string without the separator splits into itself alone |
| `Strings.IndexOf` | frontend/app/api/route.ts:9 | `indexOf`: -1 or the start of an occurrence, and no occurrence starts earlier |
| `Strings.ReplaceFirstAtFront` | frontend/app/api/route.ts:9 | `replace` with a string pattern rewrites the occurrence at the front |
| `Strings.LeadingDigits` | frontend/app/api/todos/route.ts:39 | the longest prefix of digits: a prefix, all digits, and followed by a non-digit or by nothing |
| `Strings.ParseInt` | frontend/app/api/todos/route.ts:39 | `parseInt` yields a number exactly when, after at most one sign, the text starts with a decimal digit, or with `0x`/`0X` and a hex digit; text that starts with neither a digit nor a sign gives NaN; the number is not negative unless the text starts with `-` |
| `Strings.DecimalString` | frontend/app/api/todos/route.ts:39 | the decimal spelling of a natural number is non-empty and all digits |
| `Strings.DecimalValue` | frontend/app/api/todos/route.ts:39 | the digits of a decimal spelling denote the number spelled |
| `Strings.LeadingDigitsOf` | frontend/app/api/todos/route.ts:39 | the leading digits of digits, followed by a non-digit, are exactly those digits |
| `Strings.ParseIntDecimal` | frontend/app/api/todos/route.ts:39 | `parseInt` reads back a decimal spelling, whatever follows it that neither continues the digits nor turns a lone `0` into the `0x` prefix |
| `Requests.RemainingSegments` | frontend/app/api/todos/route.ts:20-22 | with no `api` segment (`indexOf` gives -1), every segment remains |
| `Requests.RemainingAfterApi` | frontend/app/api/todos/route.ts:20-22 | the remaining segments are exactly those after the first `api` segment |
| `Requests.SegmentsNonEmpty` | frontend/app/api/todos/route.ts:20 | the segments are non-empty and contain no `/` |
| `Requests.RemainingNonEmpty` | frontend/app/api/auth/route.ts:22-24 | no remaining segment is empty, so a segment index is truthy exactly when it exists |
| `Requests.BearerToken` | frontend/app/api/todos/route.ts:24-27 | a token, when there is one, is non-empty and contains no space |
| `Requests.BearerTokenOf` | frontend/app/api/todos/route.ts:24-27 | `<scheme> <token>` yields that token, whatever follows after a further space; the scheme is not checked |
| `Requests.BearerTokenNeedsSpace` | frontend/app/api/todos/route.ts:24-29 | a header without a space yields no token |
| `Requests.Authenticate` | frontend/app/api/todos/route.ts:24-34 | the result is Missing exactly when there is no truthy token, or Invalid exactly when there is one and verification fails; otherwise Verified with the verified claims |
| `Todos.Classify` | frontend/app/api/todos/route.ts:36-166 | each branch is chosen exactly when its method label and segment tests hold, and it carries the user segment and, where used, the task segment |
| `Todos.FetchUnreachable` | frontend/app/api/todos/route.ts:38-49 | the single-task GET branch is chosen for no path |
| `Todos.OwnerOfDecimal` | frontend/app/api/todos/route.ts:39-43 | a path user id written in decimal passes the ownership check exactly when the token's `user_id` is that number |
| `Todos.OwnerNeedsDigits` | frontend/app/api/todos/route.ts:39-43 | a user segment that starts with neither a digit nor a sign parses to NaN and passes for no token |
| `Todos.Lookup` | frontend/app/api/todos/route.ts:57-59 | `find` returns the task at the first index matching id and owner, and returns nothing when no task matches |
| `Todos.TasksOfExactly` | frontend/app/api/todos/route.ts:45-46 | the listing holds only stored tasks of the owner, and every stored task of the owner |
| `Todos.TasksOfAppend` | frontend/app/api/todos/route.ts:45 | after an append, the listing is the old listing plus the new task when it is the owner's |
| `Todos.NewTaskFields` | frontend/app/api/todos/route.ts:75-86 | a new task has the given id and owner, is not completed, and both timestamps are the clock; falsy description, priority and category become `''`, `'normal'`, `'General'` while truthy ones are kept; title and due date are taken as given |
| `Todos.BuyMilk` | frontend/app/api/todos/route.ts:75-86 | creating `{title: "Buy milk"}` gives a task that is not completed, with priority `normal`, category `General` and an empty description |
| `Todos.MergeFields` | frontend/app/api/todos/route.ts:107-118 | the merge overwrites exactly the six body fields that are not `undefined` (`null`, `false`, `0`, `""` do overwrite); it keeps id, owner and creation time and sets `updated_at` to the clock |
| `Todos.MergeIdempotent` | frontend/app/api/todos/route.ts:109-118 | sending the same PUT body twice, each PUT with its own clock reading, gives the same task as one PUT at the later instant |
| `Todos.CompletionFlag` | frontend/app/api/todos/route.ts:133 | the task is marked completed exactly when the query parameter is the string `true` |
| `Todos.FindAfterUpdate` | frontend/app/api/todos/route.ts:135-144 | a PUT or PATCH keeps the updated task at the same index for the same id and owner |
| `Todos.CompleteThenLookup` | frontend/app/api/todos/route.ts:135-146 | after marking a found task completed, a lookup returns the completed task with the new timestamp |
| `Todos.DeleteThenLookup` | frontend/app/api/todos/route.ts:158-164 | after the delete, a lookup finds nothing when no other task shared the id and owner |
| `Todos.IdsCollideAfterDelete` | frontend/app/api/todos/route.ts:76 | concrete store in which create, create, delete, create leaves two tasks with id 2, and deleting one leaves the other findable |
| `Todos.TaskStore.constructor` | frontend/app/api/todos/route.ts:5 | the store starts empty |
| `Todos.TaskStore.Handle` | frontend/app/api/todos/route.ts:17-169 | the response and the new store are those of `Todos.Respond` on the old store, whose lemmas state them route by route |
| `Todos.TaskStore.Create` | frontend/app/api/todos/route.ts:73-90 | the response and the new store are those of `Todos.Created` on the old store |
| `Todos.TaskStore.Update` | frontend/app/api/todos/route.ts:102-120 | the response and the new store are those of `Todos.Updated` on the old store |
| `Todos.TaskStore.Complete` | frontend/app/api/todos/route.ts:132-146 | the response and the new store are those of `Todos.Completed` on the old store |
| `Todos.TaskStore.Delete` | frontend/app/api/todos/route.ts:158-164 | the response and the new store are those of `Todos.Deleted` on the old store |
| `Auth.Classify` | frontend/app/api/auth/route.ts:26-164 | each branch is chosen exactly when its method label and segment tests hold |
| `Auth.UpdatedProfileFields` | frontend/app/api/auth/route.ts:155-156 | email and username are replaced exactly when the supplied value is truthy; id, hash and creation time are kept |
| `Auth.FindByIdIndex` | frontend/app/api/auth/route.ts:122 | while ids equal positions plus one, the lookup by `user_id` n finds position n - 1, or nothing when n is out of range |
| `Auth.TokenFindsUser` | frontend/app/api/auth/route.ts:48-52 | a user's own token finds that same user |
| `Auth.AppendKeepsIds` | frontend/app/api/auth/route.ts:37-45 | appending a user with id length + 1 keeps ids equal to positions plus one |
| `Auth.ReplaceKeepsIds` | frontend/app/api/auth/route.ts:104 | an in-place update that keeps the id keeps ids equal to positions plus one |
| `Auth.SignupKeepsEmailsUnique` | frontend/app/api/auth/route.ts:31-45 | appending after a failed duplicate check keeps emails unique |
| `Auth.ReplaceKeepsEmailsUnique` | frontend/app/api/auth/route.ts:104 | an in-place update that keeps the email keeps emails unique |
| `Auth.ProfileUpdateCanDuplicateEmail` | frontend/app/api/auth/route.ts:147-156 | concrete store in which a profile update makes two users share an email; login then finds only the first |
| `Auth.LoginAfterSignup` | frontend/app/api/auth/route.ts:27-82 | after signup, the login lookup finds the new user, the compare passes when bcrypt accepts a password against its own hash, and the token names the new user |
| `Auth.LoginAfterPasswordChange` | frontend/app/api/auth/route.ts:67-104 | after a password change the record keeps its position and the new password passes the compare |
| `Auth.UserStore.constructor` | frontend/app/api/auth/route.ts:7 | the store starts empty |
| `Auth.UserStore.RegisterUser` | frontend/app/api/auth/route.ts:27-60 | a duplicate email gives 400 and no change; a non-string password gives the uncaught rejection; otherwise appends one user with id length + 1 and the password's hash, and answers with id, email, username, the claims `{sub, user_id}` and `bearer`; keeps ids as positions and emails unique |
| `Auth.UserStore.LogIn` | frontend/app/api/auth/route.ts:61-82 | looks the `username` field up as an email; an unknown user and a failed compare give the same 401; a token is issued exactly when the user exists and the compare passes, with claims for that user |
| `Auth.UserStore.ChangeUserPassword` | frontend/app/api/auth/route.ts:96-106 | 400 and no change for no user or a wrong current password; otherwise only that user's hash is replaced, with 200 |
| `Auth.UserStore.ReadUser` | frontend/app/api/auth/route.ts:122-131 | 404 when no user has the token's id; otherwise that user's id, email and username, with the id equal to the token's `user_id` |
| `Auth.UserStore.UpdateUser` | frontend/app/api/auth/route.ts:147-162 | 404 and no change when no user matches; otherwise only that user is replaced by its truthy-field update; ids stay positions |
| `Auth.UserStore.Handle` | frontend/app/api/auth/route.ts:19-167 | 404 `Route not found` for no branch; signup and login need no token; the other three answer 401 for no token or an invalid one, and then act as the methods above do; ids stay positions on every path; emails stay unique on every path except the profile update |
| `Router.ApiPath` | frontend/app/api/route.ts:9 | `apiPath` never contains `/` |
| `Router.ApiPathOf` | frontend/app/api/route.ts:9 | for `/api/<name><rest>` with a slash-free name and a rest that is empty or starts with `/`, `apiPath` is the name |
| `Router.TasksPatternIsRegex` | frontend/app/api/route.ts:20 | the longest-digit-run reading of `^\d+\/tasks` agrees with the regular expression's own "some run of digits" reading |
| `Router.TaskIdPatternIsRegex` | frontend/app/api/route.ts:58 | the longest-run reading of `^\d+\/tasks\/\d+` agrees with the regular expression's "some run of digits, `/tasks/`, some run of digits" reading |
| `Router.CompletePatternIsRegex` | frontend/app/api/route.ts:73 | the longest-run reading of `^\d+\/tasks\/\d+\/complete` agrees with the regular expression's reading |
| `Router.TaskIdAtIsPattern` | frontend/app/api/route.ts:58 | any digits-`/tasks/`-digits split of the text is the split the longest-run reading finds |
| `Router.CompleteAtIsPattern` | frontend/app/api/route.ts:73 | any split of the text that matches `^\d+\/tasks\/\d+\/complete` yields the longest-run reading's match |
| `Router.LeadingDigitsUpTo` | frontend/app/api/route.ts:20 | a run of digits that a non-digit ends is the longest leading run |
| `Router.PatternsNeedSlash` | frontend/app/api/route.ts:20-88 | all three task patterns need a `/` after the leading digits |
| `Router.TodosUnreachable` | frontend/app/api/route.ts:20-23 | no export ever delegates to the todos handler |
| `Router.HealthExactly` | frontend/app/api/route.ts:11-13 | the health body comes exactly from GET with `apiPath` `''` or `health` |
| `Router.AuthDelegation` | frontend/app/api/route.ts:16-19 | delegation to auth happens exactly for GET with `auth…`, `signup`, `login` or `users`, for POST with `signup` or `login`, and for PUT with `users`, and the export's own method label is passed on |
| `Router.NotFoundOtherwise` | frontend/app/api/route.ts:67-94 | PATCH and DELETE always answer 404; every request that is neither health nor delegated to auth gets 404 |
| `Router.ChangePasswordNotRouted` | frontend/app/api/route.ts:35-45 | POST `/api/users/change-password` gets the router's 404 |
| `Router.ProfileRouted` | frontend/app/api/route.ts:54-57 | GET and PUT `/api/users/me` reach the auth handler with their own labels |
| `Router.DigitsAreNoKeyword` | frontend/app/api/route.ts:11-16 | a run of digits is none of the names the router tests for |
| `Router.TasksPatternOf` | frontend/app/api/route.ts:39 | `<digits>/tasks…` matches `^\d+\/tasks` |
| `Router.TaskIdPatternOf` | frontend/app/api/route.ts:58 | `<digits>/tasks/<digits>…` matches `^\d+\/tasks\/\d+` |
| `Router.CompletePatternOf` | frontend/app/api/route.ts:73 | `<digits>/tasks/<digits>/complete` matches `^\d+\/tasks\/\d+\/complete` |
| `Router.TaskEndpointsNotRouted` | frontend/app/api/route.ts:20-94 | as written, every task endpoint (list, create, update, delete, complete) gets the router's 404 |
| `Router.IntendedOnlyAddsTodos` | frontend/app/api/route.ts:8 | the corrected dispatch agrees with the written one wherever the written one does not answer 404, and otherwise differs only by delegating to the todos handler |
| `Router.IntendedReachesTaskList` | frontend/app/api/route.ts:8-42 | under the corrected dispatch GET and POST `<digits>/tasks` reach the todos handler with their own labels |
| `Router.IntendedReachesTaskItem` | frontend/app/api/route.ts:58-91 | under the corrected dispatch PUT and DELETE `<digits>/tasks/<digits>` reach the todos handler with their own labels |
| `Router.IntendedReachesCompletion` | frontend/app/api/route.ts:73-76 | under the corrected dispatch PATCH `<digits>/tasks/<digits>/complete` reaches the todos handler with label PATCH |
| `Values.Truthy` | frontend/app/api/todos/route.ts:79-83 | a value is falsy exactly when it is `undefined`, `null`, `false`, `0` or `""` |
| `Values.Or` | frontend/app/api/todos/route.ts:79-83 | the or-default operator is one of its operands, is `v` when `v` is truthy, and is truthy exactly when one operand is |
| `Values.Defined` | frontend/app/api/todos/route.ts:111-116 | the spread `...(v !== undefined && { v })` gives one of its two values, `v` itself unless undefined, and undefined only when both are |
| `Seqs.FilterUpdateRejected` | frontend/app/api/todos/route.ts:109 | overwriting a rejected element with another rejected one does not change the filter |
| `Seqs.FilterRemoveRejected` | frontend/app/api/todos/route.ts:163 | removing a rejected element does not change the filter |
| `Seqs.FilterDropRejected` | frontend/app/api/todos/route.ts:163 | dropping a rejected element out of the middle does not change the filter |
| `Strings.StartsWith` | frontend/app/api/route.ts:16 | `s.startsWith(p)` holds exactly when `p` is no longer than `s` and agrees with it character by character |
| `Strings.ReplaceFirst` | frontend/app/api/route.ts:9 | with no occurrence the string is unchanged; otherwise only the first occurrence is cut out and `rep` put in its place, the text around it kept |
| `Strings.LeadingHexDigits` | frontend/app/api/todos/route.ts:39 | the longest prefix of hex digits: a prefix, all hex digits, followed by a non-hex-digit or by nothing |
| `Strings.HexDigitValue` | frontend/app/api/todos/route.ts:39 | a hex digit is worth less than 16, and a decimal digit its decimal value |
| `Strings.Magnitude` | frontend/app/api/todos/route.ts:39 | the unsigned text yields a number exactly when it starts a decimal or a `0x` hex number |
| `Strings.ParseIntExamples` | frontend/app/api/todos/route.ts:39 | `"0x1"` is 1, `"0X1f"` 31, `"0x"` and `"0xg"` NaN, `"+7"` 7, `"-7"` -7, `"12ab"` 12, `"ab"` NaN |
| `Strings.DecimalStringLead` | frontend/app/api/todos/route.ts:39 | a decimal spelling starts with `0` only for zero |
| `Requests.Segments` | frontend/app/api/todos/route.ts:20 | every segment is a non-empty `/`-piece of the path |
| `Todos.Owner` | frontend/app/api/todos/route.ts:39-43 | ownership passes only with the number `parseInt` reads from the segment, equal to the token's `user_id`, and passes whenever they are equal |
| `Todos.HexUserSegment` | frontend/app/api/todos/route.ts:39-43 | the user segment `0x1` passes the ownership check for a token with `user_id` 1 |
| `Todos.FindTask` | frontend/app/api/todos/route.ts:102 | `findIndex` over tasks: -1 exactly when no task has that id and owner, otherwise a matching index; a NaN task id matches nothing |
| `Todos.TasksOf` | frontend/app/api/todos/route.ts:45 | the listing is no longer than the store and holds only tasks of the owner |
| `Todos.NewTask` | frontend/app/api/todos/route.ts:75-86 | a new task carries the given id and owner, is not completed, has both timestamps from the clock, always a defined description and truthy priority and category |
| `Todos.Merge` | frontend/app/api/todos/route.ts:109-118 | the merge keeps id, owner and creation time, sets `updated_at` to the clock, and never makes a defined title or due date undefined |
| `Todos.MarkCompleted` | frontend/app/api/todos/route.ts:140-144 | only `is_completed`, set to the flag, and `updated_at`, set to the clock, change |
| `Todos.Listed` | frontend/app/api/todos/route.ts:45-46 | 200 with the owner's listing, store unchanged |
| `Todos.Fetched` | frontend/app/api/todos/route.ts:57-62 | 404 exactly when `find` finds nothing, otherwise 200 with the found task; store unchanged |
| `Todos.Created` | frontend/app/api/todos/route.ts:75-90 | exactly one task is appended, the earlier ones stay, the new one has id old length + 1 and the path's owner, and 201 answers with it |
| `Todos.Updated` | frontend/app/api/todos/route.ts:102-120 | 404 and no change exactly when no task matches; otherwise only the first match is replaced by its merge and returned with 200 |
| `Todos.Completed` | frontend/app/api/todos/route.ts:132-146 | 404 and no change exactly when no task matches; otherwise only the first match is replaced by its marked copy, with `Task updated successfully` |
| `Todos.Deleted` | frontend/app/api/todos/route.ts:158-164 | 404 and no change exactly when no task matches; otherwise exactly the first match is removed, the others keep their order, with `Task deleted successfully` |
| `Todos.Perform` | frontend/app/api/todos/route.ts:36-166 | a matched branch answers 200, 201 or 404, and 201 exactly for a create |
| `Todos.Respond` | frontend/app/api/todos/route.ts:17-169 | the handler answers only 200, 201, 401, 403 or 404, and 401 exactly when the token is missing or fails verification |
| `Todos.RespondChecksTokenFirst` | frontend/app/api/todos/route.ts:24-34 | whatever the route, no truthy token gives 401 `Authentication required` and a failed verification 401 `Invalid token`, store unchanged |
| `Todos.RespondNoRoute` | frontend/app/api/todos/route.ts:168 | with a valid token and no matching branch, 404 `Route not found` and no change |
| `Todos.RespondForbidden` | frontend/app/api/todos/route.ts:41-43 | when the path user is not the token's, 403 `Not authorized` whatever the store holds, and no change |
| `Todos.RespondPerforms` | frontend/app/api/todos/route.ts:36-166 | once token, branch and ownership pass, list, create, update, complete and delete act as `Listed`, `Created`, `Updated`, `Completed`, `Deleted` with the task id `parseInt` reads |
| `Todos.PerformFailureKeepsStore` | frontend/app/api/todos/route.ts:102-164 | a matched branch that answers neither 200 nor 201 leaves the store unchanged |
| `Todos.RespondFailureKeepsStore` | frontend/app/api/todos/route.ts:17-169 | every answer other than 200 or 201 leaves the store unchanged |
| `Todos.RespondIsolatesUsers` | frontend/app/api/todos/route.ts:36-166 | a request changes no listing but that of the user it acts for |
| `Auth.FindByEmail` | frontend/app/api/auth/route.ts:31 | `find` by email: -1 exactly when no user has the email, otherwise the first such user's index |
| `Auth.FindById` | frontend/app/api/auth/route.ts:122 | `find` by `user_id`: -1 exactly when no user has that id, otherwise a matching index; a `user_id` that is not a number finds nobody |
| `Auth.Sign` | frontend/app/api/auth/route.ts:48-52 | the payload a token is signed with, `{sub: email, user_id: id}` |
| `Auth.UpdatedProfile` | frontend/app/api/auth/route.ts:155-156 | a profile update keeps id, hash and creation time and never makes a truthy email or username falsy |
| `Router.ApiRest` | frontend/app/api/route.ts:9 | a path without `/api/` is kept; a path that starts with `/api/` loses just those five characters |
| `Router.TasksPattern` | frontend/app/api/route.ts:20 | `^\d+\/tasks` read with the longest run of leading digits (see `Router.TasksPatternIsRegex`) |
| `Router.TaskIdPattern` | frontend/app/api/route.ts:58 | `^\d+\/tasks\/\d+` read with the longest runs of digits (see `Router.TaskIdPatternIsRegex`) |
| `Router.CompletePattern` | frontend/app/api/route.ts:73 | `^\d+\/tasks\/\d+\/complete` read with the longest runs of digits (see `Router.CompletePatternIsRegex`) |
| `Router.RouteGet` | frontend/app/api/route.ts:3-27 | GET answers the health check exactly for `apiPath` `''` or `health`, and passes label GET when it delegates |
| `Router.RoutePost` | frontend/app/api/route.ts:29-46 | POST never answers the health check and passes label POST when it delegates |
| `Router.RoutePut` | frontend/app/api/route.ts:48-65 | PUT delegates to auth exactly for `apiPath` `users`, passes label PUT, and never answers the health check |
| `Router.RoutePatch` | frontend/app/api/route.ts:67-80 | PATCH either delegates to the todos handler with label PATCH or answers 404 |
| `Router.RouteDelete` | frontend/app/api/route.ts:82-95 | DELETE either delegates to the todos handler with label DELETE or answers 404 |
| `Router.Route` | frontend/app/api/route.ts:3-95 | each export passes its own method label when it delegates, and only GET answers the health check |
| `Router.IntendedRoute` | frontend/app/api/route.ts:8-91 | the corrected dispatch also passes each export's own label and answers the health check only for GET |
| `Values.Field` | frontend/app/api/todos/route.ts:73 | reading a JSON body field: a missing key reads as `undefined`, and a value other than `undefined` is the one stored under the key |
| `Auth.FormValue` | frontend/app/api/auth/route.ts:64-65 | `formData.get(key) as string`: a missing field reads as `null` (never `undefined`), a present one as its text |
| `Auth.ProfileOf` | frontend/app/api/auth/route.ts:127-131 | the profile body carries exactly the user's id, email and username, and nothing of the password hash |
| `Requests.SegIs` | frontend/app/api/todos/route.ts:38 | `remainingSegments[k] === lit` holds only for an existing segment, and for a non-empty literal implies that the segment is truthy |
| `Requests.Given` | frontend/app/api/todos/route.ts:38 | `remainingSegments[k]` is truthy only when it exists, and, the segments being non-empty, exactly when it exists |
| `Todos.Targets` | frontend/app/api/todos/route.ts:102 | the find predicate `t.id === todoId && t.userId === userId` holds only for that id and owner, and never for a NaN task id |

## Left out

- JWT: signing, the secret and its fallback value, the 24-hour expiry, and expired tokens are
  not modelled. Verification is the `verify` parameter. Signing is shown as the claims it
  would encode, so a response carries the claims rather than the token string.
- `jwt.verify` can return a string payload. The model's `verify` always yields a claims
  record or nothing.
- bcrypt: `hash` and `compare` are uninterpreted parameters. The salt's randomness is not
  modelled. The one assumption needed, that `compare(p, hash(p))` holds, appears only as a
  requirement of the lemmas that use it.
- Clock: each request reads one instant, `now`. The two `toISOString()` calls of a create are
  taken to give the same instant.
- HTTP plumbing: URL parsing and percent-decoding, `request.json()` and
  `request.formData()`, and a body that does not parse or is not an object. The body is a map
  from field names to values. Floating-point numbers, arrays and nested objects are not
  values in this model.
- `Strings.ParseInt`: models one leading sign, decimal digits and the `0x`/`0X` hex prefix.
  It leaves out leading whitespace, which a URL pathname segment cannot hold unencoded. It
  also leaves out the loss of precision beyond 2^53 and the distinction between `-0` and `0`
  (`-0 === 0`, so the ownership check cannot tell them apart either).
- `Todos.RespondPerforms`: has no clause for the single-task GET branch, because that branch
  cannot be reached (`Todos.FetchUnreachable`). `Todos.Respond` and `Todos.TaskStore.Handle`
  still handle it, as `Todos.Fetched`.
- Concurrent requests racing on the shared arrays are not modelled; requests are sequential.
- The dynamic `await import(...)` of the router is not modelled; only the dispatch decision is.
- `Response.json` serialization and headers are not modelled; a response is a status and a
  body value.
- HTTP methods other than the five exports (which Next.js answers itself) are not modelled.
- `frontend/next.config.js` is not part of this model; it holds build and proxy configuration
  only.

## Findings

| source | as written | input that shows it | evidently intended | confidence | as-written member | corrected member |
|---|---|---|---|---|---|---|
| frontend/app/api/route.ts:20-91 | the task patterns are tested against `apiPath`, the first `/`-piece after `/api/`, which never contains `/` | `GET /api/1/tasks` with a valid token for user 1: `apiPath` is `1`, the pattern `^\d+\/tasks` fails, and the answer is 404 `Route not found` | test the patterns against everything after `/api/` (the comment at line 8), so that task requests reach the todos handler | not executed | `Router.TaskEndpointsNotRouted` | `Router.IntendedReachesTaskList` |
