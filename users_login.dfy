/** The login route: a ladder of checks over the user store, in the order
    missing field (400), no user with that email and lower-cased role (404),
    wrong password (401), then success (200). */
module UsersLogin {
  import opened Common
  import opened Text
  import opened Seqs
  import opened UsersCreate

  datatype LoginRequest = LoginRequest(email: Option<string>, password: Option<string>, role: Option<string>)

  datatype Reply = Reply(status: int, user: Option<UserRecord>, error: string)

  function Matching(email: string, role: string): UserRecord -> bool {
    (u: UserRecord) => u.email == email && u.role == ToLower(role)
  }

  /** `POST /api/users/login`. The store is searched in order and the first
      match is taken. */
  function Login(users: seq<UserRecord>, req: LoginRequest): (r: Reply)
    ensures r.status in {400, 404, 401, 200}
    ensures r.status == 400 <==> !(IsTruthy(req.email) && IsTruthy(req.password) && IsTruthy(req.role))
    ensures r.status == 404 <==> (IsTruthy(req.email) && IsTruthy(req.password) && IsTruthy(req.role)
                                  && forall u :: u in users ==> !Matching(req.email.value, req.role.value)(u))
    ensures r.status == 401 || r.status == 200 ==>
              exists i :: (0 <= i < |users| && Matching(req.email.value, req.role.value)(users[i])
                          && (forall j :: 0 <= j < i ==> !Matching(req.email.value, req.role.value)(users[j]))
                          && (r.status == 200 <==> users[i].password == req.password.value)
                          && (r.status == 200 ==> r.user == Some(users[i])))
    ensures r.status == 200 ==> r.user.Some? && r.user.value.email == req.email.value
                                && r.user.value.password == req.password.value
    ensures r.status != 200 ==> r.user.None?
  {
    if !IsTruthy(req.email) || !IsTruthy(req.password) || !IsTruthy(req.role) then
      Reply(400, None, "Missing fields")
    else
      var i := FirstIndex(users, Matching(req.email.value, req.role.value));
      if i == -1 then Reply(404, None, "User not found")
      else if users[i].password != req.password.value then Reply(401, None, "Incorrect password")
      else Reply(200, Some(users[i]), "")
  }

  /** A user registered with a lower-case role logs in with its password
      and any capitalisation of that role. */
  lemma RegisteredUserLogsIn(users: seq<UserRecord>, req: Request, roleAsTyped: string)
    requires Decide(users, req).Ok?
    requires ToLower(roleAsTyped) == req.role.value
    requires roleAsTyped != ""
    ensures Login(users + [Decide(users, req).value], LoginRequest(req.email, req.password, Some(roleAsTyped)))
            == Reply(200, Some(Decide(users, req).value), "")
  {
    var u := Decide(users, req).value;
    var all := users + [u];
    var p := Matching(u.email, roleAsTyped);
    assert !EmailTaken(users, u.email);
    assert forall j :: 0 <= j < |users| ==> !p(all[j]);
    assert p(all[|users|]);
    assert FirstIndex(all, p) == |users| by {
      var k := FirstIndex(all, p);
      assert all[|users|] in all;
    }
  }

  /** A user stored with an upper-case letter in its role is never found,
      since the lookup lower-cases the role it is given. */
  lemma CapitalisedRoleNeverFound(users: seq<UserRecord>, req: LoginRequest, i: nat)
    requires i < |users| && ToLower(users[i].role) != users[i].role
    requires IsTruthy(req.email) && IsTruthy(req.role)
    ensures !Matching(req.email.value, req.role.value)(users[i])
  {
    var role := req.role.value;
    if users[i].role == ToLower(role) {
      ToLowerIdempotent(role);
    }
  }

  lemma ToLowerIdempotent(s: string)
    ensures ToLower(ToLower(s)) == ToLower(s)
  {
  }
}
