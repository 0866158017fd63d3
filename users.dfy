/**
  The user service: sign-up with a generated username, the rating refresh, and
  renaming. Each operation is a method on the store object, specified by a function
  on store snapshots whose properties are proved below it.
*/
module Users {
  import opened Wrappers
  import opened Records
  import opened Store
  import opened Reputation

  /** "User-" followed by characters 2 to 7 of the wallet address (its first six hex digits). */
  function DefaultUsername(walletAddress: string): (name: string)
    ensures 5 <= |name| <= 11 && name[..5] == "User-"
    ensures |walletAddress| >= 8 ==> name[5..] == walletAddress[2..8]
  {
    "User-" + Slice(walletAddress, 2, 8)
  }

  /**
    `create`: insert the user (the wallet address is a unique key) with the given
    username when it is non-empty and the generated one otherwise, then return what
    the rating refresh of the new user returns. The insert draws the next value of the
    id sequence before the unique key rejects a taken address, so the sequence advances
    either way, as it does for dreams.
  */
  function CreateUser(s: State, walletAddress: string, username: Option<string>, avatar: Option<string>)
    : (res: (State, Result<Option<User>, Error>))
    ensures res.0.nextUserId == s.nextUserId + 1
    ensures res.1.Err? <==> WalletIndex(s.users, walletAddress).Some?
    ensures res.1.Err? ==> res == (s.(nextUserId := s.nextUserId + 1), Err(UniqueViolation))
  {
    if WalletIndex(s.users, walletAddress).Some? then (s.(nextUserId := s.nextUserId + 1), Err(UniqueViolation))
    else
      var name := OrElse(username, DefaultUsername(walletAddress));
      var s1 := AddUser(s, walletAddress, Some(name), avatar);
      var refreshed := RefreshUser(s1, s.nextUserId);
      (refreshed.0, Ok(refreshed.1))
  }

  /** `updateUsername`: rename the user with that wallet address; a missing user is an error. */
  function SetUsername(s: State, walletAddress: string, username: string): (res: (State, Result<User, Error>))
    ensures WalletIndex(s.users, walletAddress).None? ==> res == (s, Err(RecordNotFound))
  {
    match WalletIndex(s.users, walletAddress)
    case None => (s, Err(RecordNotFound))
    case Some(i) =>
      var u := s.users[i].(username := Some(username));
      (PutUser(s, i, u), Ok(u))
  }

  // ---------------------------------------------------------------------------

  /** For an address of at least 8 characters ("0x" and six digits) the name is "User-" and those six. */
  lemma DefaultUsernameOfAddress(walletAddress: string)
    ensures |walletAddress| >= 8 ==>
              DefaultUsername(walletAddress) == "User-" + walletAddress[2..8]
              && |DefaultUsername(walletAddress)| == 11
    ensures |walletAddress| <= 2 ==> DefaultUsername(walletAddress) == "User-"
  {
    var t := Slice(walletAddress, 2, 8);
    if |walletAddress| >= 8 {
      assert t == walletAddress[2..8];
    }
  }

  /**
    Signing up a fresh wallet address adds exactly one user, with the next id, the
    chosen username, the given avatar and an all-zero record (nothing refers to the new
    id yet, so the refresh leaves it at zero); no dream or donation changes.
  */
  lemma CreateUserFresh(s: State, walletAddress: string, username: Option<string>, avatar: Option<string>)
    requires Valid(s)
    requires WalletIndex(s.users, walletAddress).None?
    ensures var (s', r) := CreateUser(s, walletAddress, username, avatar);
      var u := User(s.nextUserId, walletAddress,
                    Some(if Truthy(username) then username.value else DefaultUsername(walletAddress)),
                    avatar, 0, 0.0, 0.0, 0);
      && r == Ok(Some(u))
      && s' == s.(users := s.users + [u], nextUserId := s.nextUserId + 1)
      && Valid(s')
  {
    var name := OrElse(username, DefaultUsername(walletAddress));
    var s1 := AddUser(s, walletAddress, Some(name), avatar);
    AddUserValid(s, walletAddress, Some(name), avatar);
    FreshUserUnreferenced(s);
    NoDreamsZero(s1.dreams, s.nextUserId);
    NoDonationsZero(s1.donations, s.nextUserId);
    UserIndexUnique(s1, s.nextUserId, |s.users|);
    RefreshUserValid(s1, s.nextUserId);
  }

  /** A taken wallet address consumes an id and nothing else, which keeps the constraints. */
  lemma CreateUserTaken(s: State, walletAddress: string, username: Option<string>, avatar: Option<string>)
    requires Valid(s)
    requires WalletIndex(s.users, walletAddress).Some?
    ensures var (s', r) := CreateUser(s, walletAddress, username, avatar);
      && r == Err(UniqueViolation)
      && s'.users == s.users && s'.dreams == s.dreams && s'.donations == s.donations
      && Valid(s')
  {
  }

  /** Renaming writes the username of that one user and nothing else. */
  lemma SetUsernameFrame(s: State, walletAddress: string, username: string)
    requires Valid(s)
    ensures var (s', r) := SetUsername(s, walletAddress, username);
      && Valid(s')
      && s'.dreams == s.dreams && s'.donations == s.donations
      && |s'.users| == |s.users|
      && (r.Ok? <==> exists k :: 0 <= k < |s.users| && s.users[k].walletAddress == walletAddress)
      && (r.Ok? ==> r.value == s'.users[WalletIndex(s.users, walletAddress).value])
      && forall k :: 0 <= k < |s.users| ==>
           s'.users[k] == (if s.users[k].walletAddress == walletAddress
                           then s.users[k].(username := Some(username))
                           else s.users[k])
  {
    match WalletIndex(s.users, walletAddress)
    case None =>
    case Some(i) =>
      PutUserValid(s, i, s.users[i].(username := Some(username)));
  }

  // ---------------------------------------------------------------------------

  /** `updateRating`, step by step: reload, sum, apply the formula, write three fields. */
  method UpdateRating(db: Db, userId: int) returns (r: Option<User>)
    modifies db
    ensures (db.Snapshot(), r) == RefreshUser(old(db.Snapshot()), userId)
  {
    var found := UserIndex(db.users, userId);
    if found.None? {
      return None;
    }
    var i := found.value;
    var totalReceived := TotalReceivedOf(db.dreams, userId);
    var totalDonated := TotalDonatedOf(db.donations, userId);
    var dreamsCreated := DreamsCreated(db.dreams, userId);
    var rating := RatingOf(totalDonated, totalReceived, dreamsCreated);
    var updated := db.users[i].(rating := rating, totalDonated := totalDonated, totalReceived := totalReceived);
    db.UpdateUser(i, updated);
    r := Some(updated);
  }

  method Create(db: Db, walletAddress: string, username: Option<string>, avatar: Option<string>)
    returns (r: Result<Option<User>, Error>)
    modifies db
    ensures (db.Snapshot(), r) == CreateUser(old(db.Snapshot()), walletAddress, username, avatar)
  {
    if WalletIndex(db.users, walletAddress).Some? {
      db.ConsumeUserId();
      return Err(UniqueViolation);
    }
    var name := OrElse(username, DefaultUsername(walletAddress));
    var id := db.InsertUser(walletAddress, Some(name), avatar);
    var refreshed := UpdateRating(db, id);
    r := Ok(refreshed);
  }

  method UpdateUsername(db: Db, walletAddress: string, username: string) returns (r: Result<User, Error>)
    modifies db
    ensures (db.Snapshot(), r) == SetUsername(old(db.Snapshot()), walletAddress, username)
  {
    var found := WalletIndex(db.users, walletAddress);
    if found.None? {
      return Err(RecordNotFound);
    }
    var u := db.users[found.value].(username := Some(username));
    db.UpdateUser(found.value, u);
    r := Ok(u);
  }
}
