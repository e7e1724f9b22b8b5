/** The user registration route: field checks, a duplicate-email check,
    the user insert and, for producer and government roles, a wallet with a
    random six-digit number. The random draw is a parameter. */
module UsersCreate {
  import opened Common
  import opened Text

  datatype UserRecord = UserRecord(name: string, email: string, password: string, role: string)

  /** A wallet row: the position of its owner in the user store, and its
      number. */
  datatype WalletRecord = WalletRecord(owner: nat, walletNumber: string)

  datatype Request = Request(name: Option<string>, email: Option<string>, password: Option<string>, role: Option<string>)

  const MissingFields := Failure(400, "Missing fields")
  const UserExists := Failure(400, "User already exists")

  predicate EmailTaken(users: seq<UserRecord>, email: string) {
    exists i | 0 <= i < |users| :: users[i].email == email
  }

  /** The roles that get a wallet: exactly these two lower-case strings. */
  predicate GetsWallet(role: string) {
    role == "producer" || role == "government"
  }

  /** `"WALLET-" + Math.floor(100000 + Math.random() * 900000)`, with the
      floor of `Math.random() * 900000` as `draw`. */
  function WalletNumber(draw: nat): (r: string)
    requires draw < 900000
    ensures |r| >= 7 && r[..7] == "WALLET-"
    ensures ParseAmount(r[7..]) == Some(100000 + draw)
  {
    var n: nat := 100000 + draw;
    NatToStringRoundTrip(n);
    PrefixSplit("WALLET-", NatToString(n));
    "WALLET-" + NatToString(n)
  }

  lemma PrefixSplit(p: string, s: string)
    ensures (p + s)[..|p|] == p && (p + s)[|p|..] == s
  {
  }

  /** The route's decision: 400 for a missing field, 400 for a taken
      email, otherwise the new user. */
  function Decide(users: seq<UserRecord>, req: Request): (r: Result<UserRecord, Failure>)
    ensures !(IsTruthy(req.name) && IsTruthy(req.email) && IsTruthy(req.password) && IsTruthy(req.role))
            ==> r == Err(MissingFields)
    ensures IsTruthy(req.name) && IsTruthy(req.email) && IsTruthy(req.password) && IsTruthy(req.role)
            ==> (r.Err? <==> EmailTaken(users, req.email.value))
    ensures r.Err? ==> r.error.status == 400
    ensures r.Ok? ==> r.value == UserRecord(req.name.value, req.email.value, req.password.value, req.role.value)
  {
    if !IsTruthy(req.name) || !IsTruthy(req.email) || !IsTruthy(req.password) || !IsTruthy(req.role) then
      Err(MissingFields)
    else if EmailTaken(users, req.email.value) then Err(UserExists)
    else Ok(UserRecord(req.name.value, req.email.value, req.password.value, req.role.value))
  }

  /** The backing collections. */
  class Accounts {
    var users: seq<UserRecord>
    var wallets: seq<WalletRecord>

    /** No two users share an email, and every wallet belongs to a user. */
    predicate Valid()
      reads this
    {
      && (forall i, j :: 0 <= i < j < |users| ==> users[i].email != users[j].email)
      && (forall k :: 0 <= k < |wallets| ==> wallets[k].owner < |users|)
    }

    constructor ()
      ensures users == [] && wallets == [] && Valid()
    {
      users := [];
      wallets := [];
    }

    /** `POST /api/users/create`: a refusal creates nothing; a success adds
        one user at the end and, for the two wallet roles only, one wallet
        owned by it. */
    method Create(req: Request, draw: nat) returns (r: Result<UserRecord, Failure>, status: int)
      requires draw < 900000
      requires Valid()
      modifies this
      ensures Valid()
      ensures r == Decide(old(users), req)
      ensures r.Err? ==> users == old(users) && wallets == old(wallets) && status == 400
      ensures r.Ok? ==> users == old(users) + [r.value] && status == 201
      ensures r.Ok? && GetsWallet(r.value.role) ==> wallets == old(wallets) + [WalletRecord(|old(users)|, WalletNumber(draw))]
      ensures r.Ok? && !GetsWallet(r.value.role) ==> wallets == old(wallets)
    {
      r := Decide(users, req);
      if r.Err? {
        return r, 400;
      }
      var owner := |users|;
      assert forall i :: 0 <= i < |users| ==> users[i].email != r.value.email;
      users := users + [r.value];
      if GetsWallet(r.value.role) {
        wallets := wallets + [WalletRecord(owner, WalletNumber(draw))];
      }
      status := 201;
    }
  }
}
