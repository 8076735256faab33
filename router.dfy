/** The dispatch decisions of frontend/app/api/route.ts: each exported handler
    computes `apiPath`, the first `/`-piece of the path once the first `/api/`
    is removed, and decides from it whether to answer the health check, to
    delegate to the auth handler, to delegate to the todos handler (with its own
    method label), or to answer 404. */
module Router {
  import opened Strings

  /** The five exports of the file. */
  datatype Verb = GET | POST | PUT | PATCH | DELETE

  /** The method label each export passes on when it delegates. */
  function Label(v: Verb): string {
    match v
    case GET => "GET"
    case POST => "POST"
    case PUT => "PUT"
    case PATCH => "PATCH"
    case DELETE => "DELETE"
  }

  /** What an export does with a request. */
  datatype Dispatch = Healthy | ToAuth(verb: string) | ToTodos(verb: string) | NotFound

  /** `path.replace('/api/', '')`: the path with its first `/api/` removed. */
  function ApiRest(path: string): (r: string)
    ensures IndexOf(path, "/api/") < 0 ==> r == path
    ensures StartsWith(path, "/api/") ==> r == path[5..]
  {
    ReplaceFirst(path, "/api/", "")
  }

  /** `ApiRest(path).split('/')[0] || ''` (lines 9, 32, 51, 70, 85); the `|| ''`
      changes nothing, as the only falsy string is `''` itself. */
  function ApiPath(path: string): (r: string)
    ensures '/' !in r
  {
    Split(ApiRest(path), '/')[0]
  }

  /** A path that starts with `/api/` then a slash-free name has that name as
      `apiPath`, whatever follows from the next `/` on. */
  lemma ApiPathOf(name: string, rest: string)
    requires '/' !in name
    requires rest == [] || rest[0] == '/'
    ensures ApiRest("/api/" + name + rest) == name + rest
    ensures ApiPath("/api/" + name + rest) == name
  {
    assert "/api/" + name + rest == "/api/" + (name + rest);
    ReplaceFirstAtFront("/api/", name + rest, "");
    assert "" + (name + rest) == name + rest;
    SplitPrefix(name, rest, '/');
    if rest == [] {
      assert Split(rest, '/')[0] == "";
    } else {
      assert rest == [rest[0]] + rest[1..];
      assert Split(rest, '/')[0] == "";
    }
    assert name + "" == name;
  }

  /** `/^\d+\/tasks/`, read with the longest run of leading digits (the only run
      a following `/` can come after). */
  predicate TasksPattern(s: string) {
    var d := LeadingDigits(s);
    |d| > 0 && StartsWith(s[|d|..], "/tasks")
  }

  /** `/^\d+\/tasks\/\d+/`. */
  predicate TaskIdPattern(s: string) {
    var d := LeadingDigits(s);
    |d| > 0 && StartsWith(s[|d|..], "/tasks/") && |LeadingDigits(s[|d| + 7..])| > 0
  }

  /** `/^\d+\/tasks\/\d+\/complete/`. */
  predicate CompletePattern(s: string) {
    var d := LeadingDigits(s);
    |d| > 0 && StartsWith(s[|d|..], "/tasks/") &&
    var rest := s[|d| + 7..];
    var e := LeadingDigits(rest);
    |e| > 0 && StartsWith(rest[|e|..], "/complete")
  }

  /** The regular expressions' own reading: the first `k` characters are digits and
      `/tasks` follows them. */
  predicate TasksAt(s: string, k: int) {
    1 <= k <= |s| && AllDigits(s[..k]) && StartsWith(s[k..], "/tasks")
  }

  /** ... and, for a task path, `m` more digits follow `/tasks/`. */
  predicate TaskIdAt(s: string, k: int, m: int) {
    1 <= k && 1 <= m && k + 7 + m <= |s| && AllDigits(s[..k]) &&
    StartsWith(s[k..], "/tasks/") && AllDigits(s[k + 7..k + 7 + m])
  }

  /** ... and, for a completion path, `/complete` follows those. */
  predicate CompleteAt(s: string, k: int, m: int) {
    TaskIdAt(s, k, m) && StartsWith(s[k + 7 + m..], "/complete")
  }

  ghost predicate TasksRegex(s: string) {
    exists k :: TasksAt(s, k)
  }

  ghost predicate TaskIdRegex(s: string) {
    exists k, m :: TaskIdAt(s, k, m)
  }

  ghost predicate CompleteRegex(s: string) {
    exists k, m :: CompleteAt(s, k, m)
  }

  /** A run of digits that a non-digit ends is the longest run. */
  lemma LeadingDigitsUpTo(s: string, k: int)
    requires 0 <= k < |s| && AllDigits(s[..k]) && !IsDigit(s[k])
    ensures LeadingDigits(s) == s[..k]
  {
    assert s == s[..k] + s[k..];
    assert s[k..][0] == s[k];
    LeadingDigitsOf(s[..k], s[k..]);
  }

  /** The longest-run reading of `/^\d+\/tasks/` agrees with the regular expression. */
  lemma TasksPatternIsRegex(s: string)
    ensures TasksPattern(s) <==> TasksRegex(s)
  {
    var d := LeadingDigits(s);
    if TasksPattern(s) {
      assert s[..|d|] == d;
      assert TasksAt(s, |d|);
    }
    if TasksRegex(s) {
      var k :| TasksAt(s, k);
      assert s[k..][0] == '/';
      LeadingDigitsUpTo(s, k);
    }
  }

  /** The longest-run reading of `/^\d+\/tasks\/\d+/` agrees with the regular expression. */
  lemma TaskIdPatternIsRegex(s: string)
    ensures TaskIdPattern(s) <==> TaskIdRegex(s)
  {
    if TaskIdPattern(s) {
      var k := |LeadingDigits(s)|;
      var e := LeadingDigits(s[k + 7..]);
      assert s[k + 7..k + 7 + |e|] == e;
      assert TaskIdAt(s, k, |e|);
    }
    if TaskIdRegex(s) {
      var k, m :| TaskIdAt(s, k, m);
      TaskIdAtIsPattern(s, k, m);
    }
  }

  /** A witness of the regular expression gives the longest-run reading's digits. */
  lemma TaskIdAtIsPattern(s: string, k: int, m: int)
    requires TaskIdAt(s, k, m)
    ensures LeadingDigits(s) == s[..k]
    ensures TaskIdPattern(s)
  {
    assert s[k..][0] == '/';
    LeadingDigitsUpTo(s, k);
    assert s[k + 7..][0] == s[k + 7..k + 7 + m][0];
  }

  /** The longest-run reading of `/^\d+\/tasks\/\d+\/complete/` agrees with the regular expression. */
  lemma CompletePatternIsRegex(s: string)
    ensures CompletePattern(s) <==> CompleteRegex(s)
  {
    if CompletePattern(s) {
      var k := |LeadingDigits(s)|;
      var rest := s[k + 7..];
      var e := LeadingDigits(rest);
      assert s[k + 7..k + 7 + |e|] == e;
      assert s[k + 7 + |e|..] == rest[|e|..];
      assert CompleteAt(s, k, |e|);
    }
    if CompleteRegex(s) {
      var k, m :| CompleteAt(s, k, m);
      CompleteAtIsPattern(s, k, m);
    }
  }

  /** A witness of the regular expression gives both longest runs of digits. */
  lemma CompleteAtIsPattern(s: string, k: int, m: int)
    requires CompleteAt(s, k, m)
    ensures CompletePattern(s)
  {
    TaskIdAtIsPattern(s, k, m);
    var rest := s[k + 7..];
    assert rest[..m] == s[k + 7..k + 7 + m];
    assert rest[m..] == s[k + 7 + m..];
    assert rest[m] == '/';
    LeadingDigitsUpTo(rest, m);
  }

  /** Every task pattern needs a `/` right after the leading digits. */
  lemma PatternsNeedSlash(s: string)
    ensures TasksPattern(s) || TaskIdPattern(s) || CompletePattern(s) ==> '/' in s
  {
    var d := LeadingDigits(s);
    if |d| < |s| && s[|d|..][0] == '/' {
      assert s[|d|] == '/';
    }
  }

  /** GET (lines 3-27). The second disjunct of line 20 is the one of line 16 again. */
  function RouteGet(path: string): (r: Dispatch)
    ensures r.ToAuth? || r.ToTodos? ==> r.verb == "GET"
    ensures r == Healthy <==> ApiPath(path) == "" || ApiPath(path) == "health"
  {
    var p := ApiPath(path);
    if p == "health" || p == "" then Healthy
    else if StartsWith(p, "auth") || p == "signup" || p == "login" || p == "users" then ToAuth("GET")
    else if TasksPattern(p) || p == "users" then ToTodos("GET")
    else NotFound
  }

  /** POST (lines 29-46). */
  function RoutePost(path: string): (r: Dispatch)
    ensures r != Healthy
    ensures r.ToAuth? || r.ToTodos? ==> r.verb == "POST"
  {
    var p := ApiPath(path);
    if p == "signup" || p == "login" then ToAuth("POST")
    else if TasksPattern(p) then ToTodos("POST")
    else NotFound
  }

  /** PUT (lines 48-65). */
  function RoutePut(path: string): (r: Dispatch)
    ensures r != Healthy
    ensures r.ToAuth? || r.ToTodos? ==> r.verb == "PUT"
    ensures r.ToAuth? <==> ApiPath(path) == "users"
  {
    var p := ApiPath(path);
    if p == "users" then ToAuth("PUT")
    else if TaskIdPattern(p) then ToTodos("PUT")
    else NotFound
  }

  /** PATCH (lines 67-80). */
  function RoutePatch(path: string): (r: Dispatch)
    ensures r == NotFound || r == ToTodos("PATCH")
  {
    if CompletePattern(ApiPath(path)) then ToTodos("PATCH") else NotFound
  }

  /** DELETE (lines 82-95). */
  function RouteDelete(path: string): (r: Dispatch)
    ensures r == NotFound || r == ToTodos("DELETE")
  {
    if TaskIdPattern(ApiPath(path)) then ToTodos("DELETE") else NotFound
  }

  /** The export Next.js calls for a request of the given method. */
  function Route(v: Verb, path: string): (r: Dispatch)
    ensures r.ToAuth? || r.ToTodos? ==> r.verb == Label(v)
    ensures r == Healthy ==> v == GET
  {
    match v
    case GET => RouteGet(path)
    case POST => RoutePost(path)
    case PUT => RoutePut(path)
    case PATCH => RoutePatch(path)
    case DELETE => RouteDelete(path)
  }

  /** No export ever reaches the todos handler: `apiPath` has no `/`, and every
      task pattern needs one. */
  lemma TodosUnreachable(v: Verb, path: string)
    ensures !Route(v, path).ToTodos?
  {
    PatternsNeedSlash(ApiPath(path));
  }

  /** Only GET answers the health check, exactly for `apiPath` `''` or `health`. */
  lemma HealthExactly(v: Verb, path: string)
    ensures Route(v, path) == Healthy <==> v == GET && (ApiPath(path) == "" || ApiPath(path) == "health")
  {
  }

  /** When each export delegates to the auth handler, and that it passes its own label. */
  lemma AuthDelegation(v: Verb, path: string)
    ensures var p := ApiPath(path);
      Route(v, path).ToAuth? <==>
        || (v == GET && (StartsWith(p, "auth") || p == "signup" || p == "login" || p == "users"))
        || (v == POST && (p == "signup" || p == "login"))
        || (v == PUT && p == "users")
    ensures Route(v, path).ToAuth? ==> Route(v, path).verb == Label(v)
  {
    assert "health"[..4][0] == 'h';
  }

  /** Everything else is the router's own 404; PATCH and DELETE always are. */
  lemma NotFoundOtherwise(v: Verb, path: string)
    ensures (v == PATCH || v == DELETE) ==> Route(v, path) == NotFound
    ensures Route(v, path) == NotFound <==> Route(v, path) != Healthy && !Route(v, path).ToAuth?
  {
    TodosUnreachable(v, path);
  }

  /** POST users/change-password gets the router's 404, although the auth handler serves it. */
  lemma ChangePasswordNotRouted()
    ensures RoutePost("/api/users/change-password") == NotFound
  {
    UsersPath("/change-password");
    ApiPathOf("users", "/change-password");
    assert LeadingDigits("users") == "";
  }

  /** The paths under `/api/users/`, spelled out. */
  lemma UsersPath(rest: string)
    requires rest == "/change-password" || rest == "/me"
    ensures rest == "/change-password" ==> "/api/" + "users" + rest == "/api/users/change-password"
    ensures rest == "/me" ==> "/api/" + "users" + rest == "/api/users/me"
  {
  }

  /** GET users/me is delegated to the auth handler with label GET. */
  lemma ProfileRouted()
    ensures RouteGet("/api/users/me") == ToAuth("GET")
    ensures RoutePut("/api/users/me") == ToAuth("PUT")
  {
    UsersPath("/me");
    ApiPathOf("users", "/me");
  }

  /** A run of digits is none of the names the router tests for. */
  lemma DigitsAreNoKeyword(d: string)
    requires |d| > 0 && AllDigits(d)
    ensures '/' !in d
    ensures d != "" && d != "health" && d != "signup" && d != "login" && d != "users" && !StartsWith(d, "auth")
  {
    assert IsDigit(d[0]);
    assert |d| >= 4 ==> d[..4][0] == d[0];
  }

  /** The routing the task delegations evidently intend (the comment of line 8
      calls the tested text "everything after /api/"): the task patterns are
      tested against everything after `/api/`, not against its first piece. */
  function IntendedRoute(v: Verb, path: string): (r: Dispatch)
    ensures r.ToAuth? || r.ToTodos? ==> r.verb == Label(v)
    ensures r == Healthy ==> v == GET
  {
    var p := ApiPath(path);
    var rest := ApiRest(path);
    match v
    case GET =>
      if p == "health" || p == "" then Healthy
      else if StartsWith(p, "auth") || p == "signup" || p == "login" || p == "users" then ToAuth("GET")
      else if TasksPattern(rest) then ToTodos("GET")
      else NotFound
    case POST =>
      if p == "signup" || p == "login" then ToAuth("POST")
      else if TasksPattern(rest) then ToTodos("POST")
      else NotFound
    case PUT =>
      if p == "users" then ToAuth("PUT")
      else if TaskIdPattern(rest) then ToTodos("PUT")
      else NotFound
    case PATCH =>
      if CompletePattern(rest) then ToTodos("PATCH") else NotFound
    case DELETE =>
      if TaskIdPattern(rest) then ToTodos("DELETE") else NotFound
  }

  /** The correction only turns some 404s into delegations to the todos handler. */
  lemma IntendedOnlyAddsTodos(v: Verb, path: string)
    ensures Route(v, path) != NotFound ==> IntendedRoute(v, path) == Route(v, path)
    ensures IntendedRoute(v, path) != Route(v, path) ==> IntendedRoute(v, path) == ToTodos(Label(v))
  {
    TodosUnreachable(v, path);
  }

  /** `<digits>/tasks` matches the list pattern. */
  lemma TasksPatternOf(d: string, tail: string)
    requires |d| > 0 && AllDigits(d)
    requires StartsWith(tail, "/tasks")
    ensures TasksPattern(d + tail)
  {
    LeadingDigitsOf(d, tail);
    assert (d + tail)[|d|..] == tail;
  }

  /** `<digits>/tasks/<digits>` matches the item pattern. */
  lemma TaskIdPatternOf(d: string, e: string, tail: string)
    requires |d| > 0 && AllDigits(d) && |e| > 0 && AllDigits(e)
    ensures TaskIdPattern(d + "/tasks/" + e + tail)
  {
    var s := d + "/tasks/" + e + tail;
    LeadingDigitsOf(d, "/tasks/" + e + tail);
    assert s == d + ("/tasks/" + e + tail);
    assert s[|d|..] == "/tasks/" + e + tail;
    assert s[|d| + 7..] == e + tail;
  }

  /** `<digits>/tasks/<digits>/complete` matches the completion pattern. */
  lemma CompletePatternOf(d: string, e: string)
    requires |d| > 0 && AllDigits(d) && |e| > 0 && AllDigits(e)
    ensures CompletePattern(d + "/tasks/" + e + "/complete")
  {
    var s := d + "/tasks/" + e + "/complete";
    LeadingDigitsOf(d, "/tasks/" + e + "/complete");
    assert s == d + ("/tasks/" + e + "/complete");
    assert s[|d|..] == "/tasks/" + e + "/complete";
    assert s[|d| + 7..] == e + "/complete";
    LeadingDigitsOf(e, "/complete");
    assert (e + "/complete")[|e|..] == "/complete";
  }

  /** Under the intended routing the list and create endpoint `<id>/tasks`
      reaches the todos handler with the method's own label. */
  lemma IntendedReachesTaskList(d: string)
    requires |d| > 0 && AllDigits(d)
    ensures IntendedRoute(GET, "/api/" + d + "/tasks") == ToTodos("GET")
    ensures IntendedRoute(POST, "/api/" + d + "/tasks") == ToTodos("POST")
  {
    DigitsAreNoKeyword(d);
    ApiPathOf(d, "/tasks");
    TasksPatternOf(d, "/tasks");
  }

  /** So do the update and delete endpoint `<id>/tasks/<taskId>`. */
  lemma IntendedReachesTaskItem(d: string, e: string)
    requires |d| > 0 && AllDigits(d) && |e| > 0 && AllDigits(e)
    ensures IntendedRoute(PUT, "/api/" + d + "/tasks/" + e) == ToTodos("PUT")
    ensures IntendedRoute(DELETE, "/api/" + d + "/tasks/" + e) == ToTodos("DELETE")
  {
    DigitsAreNoKeyword(d);
    var item := "/tasks/" + e;
    assert "/api/" + d + "/tasks/" + e == "/api/" + d + item;
    assert d + item == d + "/tasks/" + e + "";
    ApiPathOf(d, item);
    TaskIdPatternOf(d, e, "");
  }

  /** And the completion endpoint `<id>/tasks/<taskId>/complete`. */
  lemma IntendedReachesCompletion(d: string, e: string)
    requires |d| > 0 && AllDigits(d) && |e| > 0 && AllDigits(e)
    ensures IntendedRoute(PATCH, "/api/" + d + "/tasks/" + e + "/complete") == ToTodos("PATCH")
  {
    var done := "/tasks/" + e + "/complete";
    assert "/api/" + d + "/tasks/" + e + "/complete" == "/api/" + d + done;
    assert d + done == d + "/tasks/" + e + "/complete";
    DigitsAreNoKeyword(d);
    ApiPathOf(d, done);
    CompletePatternOf(d, e);
  }

  /** As written, the same paths all get the router's 404. */
  lemma TaskEndpointsNotRouted(d: string, e: string)
    requires |d| > 0 && AllDigits(d) && |e| > 0 && AllDigits(e)
    ensures RouteGet("/api/" + d + "/tasks") == NotFound
    ensures RoutePost("/api/" + d + "/tasks") == NotFound
    ensures RoutePut("/api/" + d + "/tasks/" + e) == NotFound
    ensures RouteDelete("/api/" + d + "/tasks/" + e) == NotFound
    ensures RoutePatch("/api/" + d + "/tasks/" + e + "/complete") == NotFound
  {
    DigitsAreNoKeyword(d);
    ApiPathOf(d, "/tasks");
    assert "/api/" + d + "/tasks/" + e == "/api/" + d + ("/tasks/" + e);
    ApiPathOf(d, "/tasks/" + e);
    assert "/api/" + d + "/tasks/" + e + "/complete" == "/api/" + d + ("/tasks/" + e + "/complete");
    ApiPathOf(d, "/tasks/" + e + "/complete");
    TodosUnreachable(GET, "/api/" + d + "/tasks");
    TodosUnreachable(POST, "/api/" + d + "/tasks");
    TodosUnreachable(PUT, "/api/" + d + "/tasks/" + e);
    TodosUnreachable(DELETE, "/api/" + d + "/tasks/" + e);
    TodosUnreachable(PATCH, "/api/" + d + "/tasks/" + e + "/complete");
  }

}
