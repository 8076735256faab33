/** The user store and its request handler, frontend/app/api/auth/route.ts:
    a module-level list of users that `handleAuthRequest` appends to on signup,
    searches on login, and updates in place (through the record `find` returns)
    on password change and profile update. */
module Auth {
  import opened Values
  import opened Seqs
  import opened Requests

  /** A stored user. `email` and `username` keep whatever JSON value signup or a
      profile update supplied; `hashedPassword` is the bcrypt output. */
  datatype User = User(id: int, email: Value, username: Value, hashedPassword: string, createdAt: string)

  /** The parts of a request the handler reads: the URL path, the Authorization
      header, the parsed JSON body and, for login, the url-encoded form fields. */
  datatype AuthRequest = AuthRequest(
    path: string,
    authorization: Option<string>,
    body: map<string, Value>,
    form: map<string, string>)

  /** Response bodies. `Rejected` stands for a bcrypt call whose promise rejects
      on non-string input; the handler does not catch it. */
  datatype Body =
    | Detail(detail: string)
    | RouteError(error: string)
    | Message(message: string)
    | Profile(id: int, email: Value, username: Value)
    | Registered(id: int, email: Value, username: Value, accessToken: Claims, tokenType: string)
    | Token(accessToken: Claims, tokenType: string)
    | Rejected

  datatype Response = Response(status: int, body: Body)

  /** An uncaught rejection inside a route handler, which the host answers with 500. */
  const Crash := Response(500, Rejected)

  /** `bcrypt.hash(password, 10)` for the one call a request makes. */
  type Hasher = string -> string
  /** `bcrypt.compare(password, hashed)`. */
  type Comparer = (string, string) -> bool

  /** The branch of lines 26-164 that a method label and the remaining segments select. */
  datatype AuthRoute = Signup | Login | ChangePassword | ReadProfile | UpdateProfile | NoRoute

  function Classify(verb: string, segs: seq<string>): (r: AuthRoute)
    ensures r.Signup? <==> verb == "POST" && SegIs(segs, 0, "signup")
    ensures r.Login? <==> verb == "POST" && SegIs(segs, 0, "login")
    ensures r.ChangePassword? <==> verb == "POST" && SegIs(segs, 0, "users") && SegIs(segs, 1, "change-password")
    ensures r.ReadProfile? <==> verb == "GET" && SegIs(segs, 0, "users") && SegIs(segs, 1, "me")
    ensures r.UpdateProfile? <==> verb == "PUT" && SegIs(segs, 0, "users") && SegIs(segs, 1, "me")
  {
    if verb == "POST" then
      if SegIs(segs, 0, "signup") then Signup
      else if SegIs(segs, 0, "login") then Login
      else if SegIs(segs, 0, "users") && SegIs(segs, 1, "change-password") then ChangePassword
      else NoRoute
    else if verb == "GET" then
      if SegIs(segs, 0, "users") && SegIs(segs, 1, "me") then ReadProfile else NoRoute
    else if verb == "PUT" then
      if SegIs(segs, 0, "users") && SegIs(segs, 1, "me") then UpdateProfile else NoRoute
    else NoRoute
  }

  /** `formData.get(key) as string`: the field's text, or `null` when absent. */
  function FormValue(form: map<string, string>, key: string): (v: Value)
    ensures v == Null <==> key !in form
    ensures v != Null ==> v == Str(form[key])
    ensures v != Undefined
  {
    if key in form then Str(form[key]) else Null
  }

  /** `users.find(u => u.email === email)`, as an index so the record can be updated. */
  function FindByEmail(users: seq<User>, email: Value): (i: int)
    ensures -1 <= i < |users|
    ensures 0 <= i ==> users[i].email == email
    ensures i < 0 <==> forall j :: 0 <= j < |users| ==> users[j].email != email
  {
    FindIndex(users, (u: User) => u.email == email)
  }

  /** `users.find(u => u.id === decoded.user_id)`, as an index. */
  function FindById(users: seq<User>, id: Value): (i: int)
    ensures -1 <= i < |users|
    ensures 0 <= i ==> Num(users[i].id) == id
    ensures i < 0 <==> forall j :: 0 <= j < |users| ==> Num(users[j].id) != id
    ensures !id.Num? ==> i == -1
  {
    FindIndex(users, (u: User) => Num(u.id) == id)
  }

  /** The payload `jwt.sign` issues for a user: `{sub: email, user_id: id}`. */
  function Sign(u: User): Claims {
    Claims(u.email, Num(u.id))
  }

  /** The `{id, email, username}` body of the profile routes. */
  function ProfileOf(u: User): (b: Body)
    ensures b.Profile? && b.id == u.id && b.email == u.email && b.username == u.username
  {
    Profile(u.id, u.email, u.username)
  }

  /** The profile update of lines 155-156: a field is replaced only by a truthy value. */
  function UpdatedProfile(u: User, body: map<string, Value>): (v: User)
    ensures v.id == u.id && v.hashedPassword == u.hashedPassword && v.createdAt == u.createdAt
    ensures Truthy(u.email) ==> Truthy(v.email)
    ensures Truthy(u.username) ==> Truthy(v.username)
  {
    u.(email := Or(Field(body, "email"), u.email), username := Or(Field(body, "username"), u.username))
  }

  /** A profile update keeps the id, the password hash and the creation time, and
      replaces email or username exactly when the supplied value is truthy. */
  lemma UpdatedProfileFields(u: User, body: map<string, Value>)
    ensures var v := UpdatedProfile(u, body);
      && v.id == u.id && v.hashedPassword == u.hashedPassword && v.createdAt == u.createdAt
      && (Truthy(Field(body, "email")) ==> v.email == Field(body, "email"))
      && (!Truthy(Field(body, "email")) ==> v.email == u.email)
      && (Truthy(Field(body, "username")) ==> v.username == Field(body, "username"))
      && (!Truthy(Field(body, "username")) ==> v.username == u.username)
  {
  }

  /** Ids are assigned as `users.length + 1` and users are never removed, so the
      user at index `i` has id `i + 1`. */
  predicate IdsAreIndices(users: seq<User>) {
    forall i :: 0 <= i < |users| ==> users[i].id == i + 1
  }

  /** No two stored users share an email. */
  predicate EmailsUnique(users: seq<User>) {
    forall i, j :: 0 <= i < j < |users| ==> users[i].email != users[j].email
  }

  /** While ids equal positions, the lookup by token id finds the user at position id - 1. */
  lemma FindByIdIndex(users: seq<User>, n: int)
    requires IdsAreIndices(users)
    ensures FindById(users, Num(n)) == (if 1 <= n <= |users| then n - 1 else -1)
  {
    var p := (u: User) => Num(u.id) == Num(n);
    FindIndexUnique(users, p, if 1 <= n <= |users| then n - 1 else -1);
  }

  /** The token a user is issued, presented back, finds that same user. */
  lemma TokenFindsUser(users: seq<User>, i: int)
    requires IdsAreIndices(users)
    requires 0 <= i < |users|
    ensures FindById(users, Sign(users[i]).userId) == i
  {
    FindByIdIndex(users, i + 1);
  }

  /** Appending the user signup builds keeps ids equal to positions. */
  lemma AppendKeepsIds(users: seq<User>, u: User)
    requires IdsAreIndices(users)
    requires u.id == |users| + 1
    ensures IdsAreIndices(users + [u])
  {
  }

  /** Replacing a record by one with the same id keeps ids equal to positions. */
  lemma ReplaceKeepsIds(users: seq<User>, i: int, u: User)
    requires IdsAreIndices(users)
    requires 0 <= i < |users| && u.id == users[i].id
    ensures IdsAreIndices(users[i := u])
  {
  }

  /** Signup appends only after the duplicate check failed, so emails stay unique. */
  lemma SignupKeepsEmailsUnique(users: seq<User>, u: User)
    requires EmailsUnique(users)
    requires FindByEmail(users, u.email) < 0
    ensures EmailsUnique(users + [u])
  {
    var s := users + [u];
    forall i, j | 0 <= i < j < |s|
      ensures s[i].email != s[j].email
    {
      if j == |users| {
        assert s[i] == users[i];
      } else {
        assert s[i] == users[i] && s[j] == users[j];
      }
    }
  }

  /** A password change keeps the email, so emails stay unique. */
  lemma ReplaceKeepsEmailsUnique(users: seq<User>, i: int, u: User)
    requires EmailsUnique(users)
    requires 0 <= i < |users| && u.email == users[i].email
    ensures EmailsUnique(users[i := u])
  {
    var s := users[i := u];
    forall a, b | 0 <= a < b < |s|
      ensures s[a].email != s[b].email
    {
      assert s[a].email == users[a].email && s[b].email == users[b].email;
    }
  }

  /** The profile update does no duplicate check: a second user can take the
      first one's email, and login then only ever finds the first. */
  lemma ProfileUpdateCanDuplicateEmail(hashed: string, now: string)
    ensures var users := [User(1, Str("a@x"), Str("a"), hashed, now), User(2, Str("b@x"), Str("b"), hashed, now)];
      var after := users[1 := UpdatedProfile(users[1], map["email" := Str("a@x")])];
      EmailsUnique(users) && !EmailsUnique(after) && FindByEmail(after, Str("a@x")) == 0
  {
    var users := [User(1, Str("a@x"), Str("a"), hashed, now), User(2, Str("b@x"), Str("b"), hashed, now)];
    var after := users[1 := UpdatedProfile(users[1], map["email" := Str("a@x")])];
    assert after[0].email == after[1].email;
  }

  /** A user who just signed up can log in with the same password (given that
      bcrypt accepts a password against its own hash), and the token names the
      new user. */
  lemma LoginAfterSignup(users: seq<User>, email: Value, username: Value, password: string,
                         hash: Hasher, compare: Comparer, now: string)
    requires FindByEmail(users, email) < 0
    requires compare(password, hash(password))
    ensures var u := User(|users| + 1, email, username, hash(password), now);
      var after := users + [u];
      && FindByEmail(after, email) == |users|
      && compare(password, after[FindByEmail(after, email)].hashedPassword)
      && Sign(after[FindByEmail(after, email)]) == Claims(email, Num(|users| + 1))
  {
    var u := User(|users| + 1, email, username, hash(password), now);
    var after := users + [u];
    var p := (x: User) => x.email == email;
    forall j | 0 <= j < |after| && j < |users|
      ensures !p(after[j])
    {
      assert after[j] == users[j];
    }
    FindIndexUnique(after, p, |users|);
  }

  /** After a password change the new password logs in and the old record's
      position is unchanged. */
  lemma LoginAfterPasswordChange(users: seq<User>, i: int, newPassword: string, hash: Hasher, compare: Comparer, email: Value)
    requires 0 <= i < |users|
    requires FindByEmail(users, email) == i
    requires compare(newPassword, hash(newPassword))
    ensures var after := users[i := users[i].(hashedPassword := hash(newPassword))];
      FindByEmail(after, email) == i && compare(newPassword, after[i].hashedPassword)
  {
    FindIndexUpdate(users, i, users[i].(hashedPassword := hash(newPassword)), (x: User) => x.email == email);
  }

  class UserStore {
    /** The module-level `users` array. */
    var users: seq<User>

    constructor ()
      ensures users == []
    {
      users := [];
    }

    /** POST signup (lines 27-60). */
    method RegisterUser(body: map<string, Value>, hash: Hasher, now: string) returns (resp: Response)
      modifies this
      ensures var email := Field(body, "email");
        FindByEmail(old(users), email) >= 0 ==>
          resp == Response(400, Detail("Email already registered")) && users == old(users)
      ensures var email := Field(body, "email");
        FindByEmail(old(users), email) < 0 && !Field(body, "password").Str? ==>
          resp == Crash && users == old(users)
      ensures var email := Field(body, "email");
        var password := Field(body, "password");
        FindByEmail(old(users), email) < 0 && password.Str? ==>
          var u := User(|old(users)| + 1, email, Field(body, "username"), hash(password.s), now);
          users == old(users) + [u] && resp == Response(200, Registered(u.id, u.email, u.username, Sign(u), "bearer"))
      ensures IdsAreIndices(old(users)) ==> IdsAreIndices(users)
      ensures EmailsUnique(old(users)) ==> EmailsUnique(users)
    {
      var email, password, username := Field(body, "email"), Field(body, "password"), Field(body, "username");
      if FindByEmail(users, email) >= 0 {
        return Response(400, Detail("Email already registered"));
      }
      if !password.Str? {
        return Crash;
      }
      var u := User(|users| + 1, email, username, hash(password.s), now);
      if IdsAreIndices(users) { AppendKeepsIds(users, u); }
      if EmailsUnique(users) { SignupKeepsEmailsUnique(users, u); }
      users := users + [u];
      resp := Response(200, Registered(u.id, u.email, u.username, Sign(u), "bearer"));
    }

    /** POST login (lines 61-82): look the form's `username` up as an email and
        compare the password; an unknown email and a wrong password give the
        same 401. */
    method LogIn(form: map<string, string>, compare: Comparer) returns (resp: Response)
      ensures var i := FindByEmail(users, FormValue(form, "username"));
        i < 0 ==> resp == Response(401, Detail("Incorrect email or password"))
      ensures var i := FindByEmail(users, FormValue(form, "username"));
        0 <= i && !FormValue(form, "password").Str? ==> resp == Crash
      ensures var i := FindByEmail(users, FormValue(form, "username"));
        var password := FormValue(form, "password");
        0 <= i && password.Str? ==>
          resp == if compare(password.s, users[i].hashedPassword)
                  then Response(200, Token(Sign(users[i]), "bearer"))
                  else Response(401, Detail("Incorrect email or password"))
      ensures resp.body.Token? <==>
        var i := FindByEmail(users, FormValue(form, "username"));
        0 <= i && FormValue(form, "password").Str? && compare(FormValue(form, "password").s, users[i].hashedPassword)
    {
      var email, password := FormValue(form, "username"), FormValue(form, "password");
      var i := FindByEmail(users, email);
      if i < 0 {
        return Response(401, Detail("Incorrect email or password"));
      }
      if !password.Str? {
        return Crash;
      }
      if !compare(password.s, users[i].hashedPassword) {
        return Response(401, Detail("Incorrect email or password"));
      }
      resp := Response(200, Token(Sign(users[i]), "bearer"));
    }

    /** POST users/change-password after the token check (lines 96-106): the
        current password must match before the new hash replaces the old one. */
    method ChangeUserPassword(claims: Claims, body: map<string, Value>, hash: Hasher, compare: Comparer)
      returns (resp: Response)
      modifies this
      ensures var i := FindById(old(users), claims.userId);
        i < 0 ==> resp == Response(400, Detail("Current password is incorrect")) && users == old(users)
      ensures var i := FindById(old(users), claims.userId);
        var current := Field(body, "current_password");
        0 <= i && current.Str? && !compare(current.s, old(users)[i].hashedPassword) ==>
          resp == Response(400, Detail("Current password is incorrect")) && users == old(users)
      ensures var i := FindById(old(users), claims.userId);
        var current := Field(body, "current_password");
        var next := Field(body, "new_password");
        0 <= i && (!current.Str? || (compare(current.s, old(users)[i].hashedPassword) && !next.Str?)) ==>
          resp == Crash && users == old(users)
      ensures var i := FindById(old(users), claims.userId);
        var current := Field(body, "current_password");
        var next := Field(body, "new_password");
        0 <= i && current.Str? && compare(current.s, old(users)[i].hashedPassword) && next.Str? ==>
          && users == old(users)[i := old(users)[i].(hashedPassword := hash(next.s))]
          && resp == Response(200, Message("Password changed successfully"))
      ensures IdsAreIndices(old(users)) ==> IdsAreIndices(users)
      ensures EmailsUnique(old(users)) ==> EmailsUnique(users)
    {
      var current, next := Field(body, "current_password"), Field(body, "new_password");
      var i := FindById(users, claims.userId);
      if i < 0 {
        return Response(400, Detail("Current password is incorrect"));
      }
      if !current.Str? {
        return Crash;
      }
      if !compare(current.s, users[i].hashedPassword) {
        return Response(400, Detail("Current password is incorrect"));
      }
      if !next.Str? {
        return Crash;
      }
      var u := users[i].(hashedPassword := hash(next.s));
      if IdsAreIndices(users) { ReplaceKeepsIds(users, i, u); }
      if EmailsUnique(users) { ReplaceKeepsEmailsUnique(users, i, u); }
      users := users[i := u];
      resp := Response(200, Message("Password changed successfully"));
    }

    /** GET users/me after the token check (lines 122-131). */
    method ReadUser(claims: Claims) returns (resp: Response)
      ensures var i := FindById(users, claims.userId);
        && (i < 0 ==> resp == Response(404, Detail("User not found")))
        && (0 <= i ==> resp == Response(200, ProfileOf(users[i])) && Num(resp.body.id) == claims.userId)
    {
      var i := FindById(users, claims.userId);
      if i < 0 {
        return Response(404, Detail("User not found"));
      }
      resp := Response(200, ProfileOf(users[i]));
    }

    /** PUT users/me after the token check (lines 147-162). */
    method UpdateUser(claims: Claims, body: map<string, Value>) returns (resp: Response)
      modifies this
      ensures var i := FindById(old(users), claims.userId);
        && (i < 0 ==> resp == Response(404, Detail("User not found")) && users == old(users))
        && (0 <= i ==> users == old(users)[i := UpdatedProfile(old(users)[i], body)]
                       && resp == Response(200, ProfileOf(users[i])))
      ensures IdsAreIndices(old(users)) ==> IdsAreIndices(users)
    {
      var i := FindById(users, claims.userId);
      if i < 0 {
        return Response(404, Detail("User not found"));
      }
      if IdsAreIndices(users) { ReplaceKeepsIds(users, i, UpdatedProfile(users[i], body)); }
      users := users[i := UpdatedProfile(users[i], body)];
      resp := Response(200, ProfileOf(users[i]));
    }

    /** `handleAuthRequest(request, method)`. `verify` is `jwt.verify` under the
        server's secret, `hash` and `compare` are bcrypt's, `now` is the clock. */
    method Handle(req: AuthRequest, verb: string, verify: string -> Option<Claims>,
                  hash: Hasher, compare: Comparer, now: string)
      returns (resp: Response)
      modifies this
      ensures Classify(verb, RemainingSegments(req.path)).NoRoute? ==>
        resp == Response(404, RouteError("Route not found")) && users == old(users)
      // Signup and login need no token.
      ensures Classify(verb, RemainingSegments(req.path)).Signup? ==>
        var email := Field(req.body, "email");
        var password := Field(req.body, "password");
        && (FindByEmail(old(users), email) >= 0 ==>
              resp == Response(400, Detail("Email already registered")) && users == old(users))
        && (FindByEmail(old(users), email) < 0 && !password.Str? ==> resp == Crash && users == old(users))
        && (FindByEmail(old(users), email) < 0 && password.Str? ==>
              var u := User(|old(users)| + 1, email, Field(req.body, "username"), hash(password.s), now);
              users == old(users) + [u] && resp == Response(200, Registered(u.id, u.email, u.username, Sign(u), "bearer")))
      ensures Classify(verb, RemainingSegments(req.path)).Login? ==>
        var i := FindByEmail(old(users), FormValue(req.form, "username"));
        var password := FormValue(req.form, "password");
        && users == old(users)
        && (i < 0 ==> resp == Response(401, Detail("Incorrect email or password")))
        && (0 <= i && !password.Str? ==> resp == Crash)
        && (0 <= i && password.Str? ==>
              resp == if compare(password.s, old(users)[i].hashedPassword)
                      then Response(200, Token(Sign(old(users)[i]), "bearer"))
                      else Response(401, Detail("Incorrect email or password")))
      // The other three routes check the token first.
      ensures var route := Classify(verb, RemainingSegments(req.path));
        (route.ChangePassword? || route.ReadProfile? || route.UpdateProfile?) ==>
          && (Authenticate(req.authorization, verify).Missing? ==>
                resp == Response(401, Detail("Authentication required")) && users == old(users))
          && (Authenticate(req.authorization, verify).Invalid? ==>
                resp == Response(401, Detail("Invalid token")) && users == old(users))
      ensures var cred := Authenticate(req.authorization, verify);
        Classify(verb, RemainingSegments(req.path)).ChangePassword? && cred.Verified? ==>
          var i := FindById(old(users), cred.claims.userId);
          var current := Field(req.body, "current_password");
          var next := Field(req.body, "new_password");
          && (i < 0 || (current.Str? && !compare(current.s, old(users)[i].hashedPassword)) ==>
                resp == Response(400, Detail("Current password is incorrect")) && users == old(users))
          && (0 <= i && (!current.Str? || (compare(current.s, old(users)[i].hashedPassword) && !next.Str?)) ==>
                resp == Crash && users == old(users))
          && (0 <= i && current.Str? && compare(current.s, old(users)[i].hashedPassword) && next.Str? ==>
                && users == old(users)[i := old(users)[i].(hashedPassword := hash(next.s))]
                && resp == Response(200, Message("Password changed successfully")))
      ensures var cred := Authenticate(req.authorization, verify);
        Classify(verb, RemainingSegments(req.path)).ReadProfile? && cred.Verified? ==>
          var i := FindById(old(users), cred.claims.userId);
          && users == old(users)
          && (i < 0 ==> resp == Response(404, Detail("User not found")))
          && (0 <= i ==> resp == Response(200, ProfileOf(old(users)[i])))
      ensures var cred := Authenticate(req.authorization, verify);
        Classify(verb, RemainingSegments(req.path)).UpdateProfile? && cred.Verified? ==>
          var i := FindById(old(users), cred.claims.userId);
          && (i < 0 ==> resp == Response(404, Detail("User not found")) && users == old(users))
          && (0 <= i ==> users == old(users)[i := UpdatedProfile(old(users)[i], req.body)]
                         && resp == Response(200, ProfileOf(users[i])))
      // Ids stay equal to positions on every path; emails stay unique on every path but the profile update.
      ensures IdsAreIndices(old(users)) ==> IdsAreIndices(users)
      ensures EmailsUnique(old(users)) && !Classify(verb, RemainingSegments(req.path)).UpdateProfile? ==>
        EmailsUnique(users)
    {
      var segs := RemainingSegments(req.path);
      var route := Classify(verb, segs);
      if route.NoRoute? {
        resp := Response(404, RouteError("Route not found"));
      } else if route.Signup? {
        resp := RegisterUser(req.body, hash, now);
      } else if route.Login? {
        resp := LogIn(req.form, compare);
      } else {
        var cred := Authenticate(req.authorization, verify);
        if cred.Missing? {
          return Response(401, Detail("Authentication required"));
        }
        if cred.Invalid? {
          return Response(401, Detail("Invalid token"));
        }
        if route.ChangePassword? {
          resp := ChangeUserPassword(cred.claims, req.body, hash, compare);
        } else if route.ReadProfile? {
          resp := ReadUser(cred.claims);
        } else {
          resp := UpdateUser(cred.claims, req.body);
        }
      }
    }
  }
}
