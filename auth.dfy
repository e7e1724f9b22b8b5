/** The sign-in route: the first user with the given name and role is
    returned; when there is none, one is created with the wallet address
    the request carries. */
module Auth {
  import opened Common
  import opened Seqs

  datatype AuthUser = AuthUser(name: string, role: string, walletAddress: Option<string>)

  function NameAndRoleAre(name: string, role: string): AuthUser -> bool {
    (u: AuthUser) => u.name == name && u.role == role
  }

  predicate Known(users: seq<AuthUser>, name: string, role: string) {
    exists i | 0 <= i < |users| :: users[i].name == name && users[i].role == role
  }

  /** The store after the call and the user in the reply. */
  datatype Signed = Signed(users: seq<AuthUser>, user: AuthUser)

  /** `findOne({ name, role })`, then `create` when nothing matched. A known
      user is returned as stored, whatever wallet address was sent. */
  function FindOrCreate(users: seq<AuthUser>, name: string, role: string, wallet: Option<string>): (r: Signed)
    ensures r.user.name == name && r.user.role == role
    ensures Known(users, name, role) ==> r.users == users && r.user in users
    ensures Known(users, name, role) ==>
              exists i :: 0 <= i < |users| && r.user == users[i]
                && forall j :: 0 <= j < i ==> !(users[j].name == name && users[j].role == role)
    ensures !Known(users, name, role) ==> r.users == users + [AuthUser(name, role, wallet)]
    ensures !Known(users, name, role) ==> r.user == AuthUser(name, role, wallet)
    ensures Known(r.users, name, role)
  {
    var i := FirstIndex(users, NameAndRoleAre(name, role));
    if i == -1 then
      var u := AuthUser(name, role, wallet);
      assert forall j :: 0 <= j < |users| ==> users[j] in users;
      assert (users + [u])[|users|] == u;
      Signed(users + [u], u)
    else
      Signed(users, users[i])
  }

  /** Signing in twice with the same name and role creates at most one
      user: the second call finds the first one's user and changes nothing,
      even with a different wallet address. */
  lemma SecondSignInCreatesNothing(users: seq<AuthUser>, name: string, role: string, w1: Option<string>, w2: Option<string>)
    ensures var first := FindOrCreate(users, name, role, w1);
            var second := FindOrCreate(first.users, name, role, w2);
            && second.users == first.users
            && second.user == first.user
            && |second.users| <= |users| + 1
  {
    var first := FindOrCreate(users, name, role, w1);
    var p := NameAndRoleAre(name, role);
    if Known(users, name, role) {
      assert FirstIndex(first.users, p) == FirstIndex(users, p);
    } else {
      assert forall j :: 0 <= j < |users| ==> !p(first.users[j]);
      assert p(first.users[|users|]);
      assert first.users[|users|] in first.users;
    }
  }

  /** The user collection the route reads and inserts into. */
  class UserDirectory {
    var users: seq<AuthUser>

    constructor (initial: seq<AuthUser>)
      ensures users == initial
    {
      users := initial;
    }

    /** `POST /api/auth`: the reply always holds the user. */
    method Authenticate(name: string, role: string, wallet: Option<string>) returns (user: AuthUser)
      modifies this
      ensures Signed(users, user) == FindOrCreate(old(users), name, role, wallet)
    {
      var i := 0;
      while i < |users|
        invariant 0 <= i <= |users|
        invariant forall j :: 0 <= j < i ==> !NameAndRoleAre(name, role)(users[j])
      {
        if users[i].name == name && users[i].role == role {
          FirstIndexIs(users, NameAndRoleAre(name, role), i);
          return users[i];
        }
        i := i + 1;
      }
      FirstIndexIs(users, NameAndRoleAre(name, role), -1);
      user := AuthUser(name, role, wallet);
      users := users + [user];
    }
  }

  /** Pins down `FirstIndex` from a scan: no earlier element matches, and
      the element at `i` does (or, for -1, none does). */
  lemma FirstIndexIs(s: seq<AuthUser>, p: AuthUser -> bool, i: int)
    requires -1 <= i < |s|
    requires i >= 0 ==> p(s[i]) && forall j :: 0 <= j < i ==> !p(s[j])
    requires i == -1 ==> forall j :: 0 <= j < |s| ==> !p(s[j])
    ensures FirstIndex(s, p) == i
  {
    var k := FirstIndex(s, p);
    if i >= 0 {
      assert s[i] in s;
    }
  }
}
