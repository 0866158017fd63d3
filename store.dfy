/**
  The relational store the services talk to: the user, dream and donation tables
  with their autoincrement counters, the unique keys (user id and wallet address,
  dream id, donation id and transaction hash) and the foreign keys (a dream's
  creator, a donation's dream and donor).

  `State` is a snapshot of the whole store as a value; `Db` is the store object
  whose tables the services update in place, one primitive write at a time.
*/
module Store {
  import opened Wrappers
  import opened Records

  datatype State = State(
    users: seq<User>,
    dreams: seq<Dream>,
    donations: seq<Donation>,
    nextUserId: int,
    nextDreamId: int,
    nextDonationId: int)

  /** The store as it is before anything is inserted; every counter starts at 1. */
  const Empty := State([], [], [], 1, 1, 1)

  /** The position of the first element satisfying `p`, if any. */
  function FirstIndex<T>(s: seq<T>, p: T -> bool): (r: Option<nat>)
    ensures r.Some? ==> r.value < |s| && p(s[r.value])
    ensures r.Some? ==> forall j :: 0 <= j < r.value ==> !p(s[j])
    ensures r.None? ==> forall j :: 0 <= j < |s| ==> !p(s[j])
  {
    if s == [] then None
    else if p(s[0]) then Some(0)
    else match FirstIndex(s[1..], p)
      case None => None
      case Some(k) => Some(k + 1)
  }

  /** `findUnique({ where: { id } })` on the user table. */
  function UserIndex(users: seq<User>, id: int): (r: Option<nat>)
    ensures r.Some? ==> r.value < |users| && users[r.value].id == id
    ensures r.None? ==> forall j :: 0 <= j < |users| ==> users[j].id != id
  {
    FirstIndex(users, (u: User) => u.id == id)
  }

  /** `findUnique({ where: { walletAddress } })` on the user table. */
  function WalletIndex(users: seq<User>, wallet: string): (r: Option<nat>)
    ensures r.Some? ==> r.value < |users| && users[r.value].walletAddress == wallet
    ensures r.None? ==> forall j :: 0 <= j < |users| ==> users[j].walletAddress != wallet
  {
    FirstIndex(users, (u: User) => u.walletAddress == wallet)
  }

  /** `findUnique({ where: { id } })` on the dream table. */
  function DreamIndex(dreams: seq<Dream>, id: int): (r: Option<nat>)
    ensures r.Some? ==> r.value < |dreams| && dreams[r.value].id == id
    ensures r.None? ==> forall j :: 0 <= j < |dreams| ==> dreams[j].id != id
  {
    FirstIndex(dreams, (d: Dream) => d.id == id)
  }

  /** `findUnique({ where: { txHash } })` on the donation table. */
  function TxIndex(donations: seq<Donation>, txHash: string): (r: Option<nat>)
    ensures r.Some? ==> r.value < |donations| && donations[r.value].txHash == txHash
    ensures r.None? ==> forall j :: 0 <= j < |donations| ==> donations[j].txHash != txHash
  {
    FirstIndex(donations, (d: Donation) => d.txHash == txHash)
  }

  predicate HasUser(users: seq<User>, id: int) {
    exists k :: 0 <= k < |users| && users[k].id == id
  }

  predicate HasDream(dreams: seq<Dream>, id: int) {
    exists k :: 0 <= k < |dreams| && dreams[k].id == id
  }

  /**
    The store's integrity constraints: unique keys, the user and donation counters ahead of
    their ids, foreign keys. Dream ids may be given explicitly, so `nextDreamId` bounds nothing.
  */
  predicate Valid(s: State) {
    && 1 <= s.nextUserId && 1 <= s.nextDonationId
    && (forall i :: 0 <= i < |s.users| ==> 1 <= s.users[i].id < s.nextUserId)
    && (forall i, j :: 0 <= i < j < |s.users| ==>
          s.users[i].id != s.users[j].id && s.users[i].walletAddress != s.users[j].walletAddress)
    && (forall i, j :: 0 <= i < j < |s.dreams| ==> s.dreams[i].id != s.dreams[j].id)
    && (forall i :: 0 <= i < |s.dreams| ==> HasUser(s.users, s.dreams[i].userId))
    && (forall i :: 0 <= i < |s.donations| ==> 1 <= s.donations[i].id < s.nextDonationId)
    && (forall i, j :: 0 <= i < j < |s.donations| ==>
          s.donations[i].id != s.donations[j].id && s.donations[i].txHash != s.donations[j].txHash)
    && (forall i :: 0 <= i < |s.donations| ==> HasDream(s.dreams, s.donations[i].dreamId))
    && (forall i :: 0 <= i < |s.donations| && s.donations[i].donorId.Some? ==>
          HasUser(s.users, s.donations[i].donorId.value))
  }

  // ---------------------------------------------------------------------------
  // Primitive writes, as functions on snapshots.

  /** `user.create` with the schema defaults: rating, totals and chances all zero. */
  function AddUser(s: State, wallet: string, username: Option<string>, avatar: Option<string>): State {
    var u := User(s.nextUserId, wallet, username, avatar, 0, 0.0, 0.0, 0);
    s.(users := s.users + [u], nextUserId := s.nextUserId + 1)
  }

  function PutUser(s: State, i: nat, u: User): State
    requires i < |s.users|
  {
    s.(users := s.users[i := u])
  }

  function AddDream(s: State, d: Dream): State {
    s.(dreams := s.dreams + [d])
  }

  function PutDream(s: State, i: nat, d: Dream): State
    requires i < |s.dreams|
  {
    s.(dreams := s.dreams[i := d])
  }

  /** `donation.create`: the new row takes the next donation id. */
  function AddDonation(s: State, dreamId: int, donorId: Option<int>, wallet: string,
                       amount: real, currency: string, txHash: string): State {
    var d := Donation(s.nextDonationId, dreamId, donorId, wallet, amount, currency, txHash);
    s.(donations := s.donations + [d], nextDonationId := s.nextDonationId + 1)
  }

  // ---------------------------------------------------------------------------
  // Each primitive keeps the constraints when its caller has checked the keys.

  lemma EmptyValid()
    ensures Valid(Empty)
  {
  }

  /** A user whose id is not taken is not the creator or donor of anything. */
  lemma FreshUserUnreferenced(s: State)
    requires Valid(s)
    ensures forall i :: 0 <= i < |s.dreams| ==> s.dreams[i].userId != s.nextUserId
    ensures forall i :: 0 <= i < |s.donations| ==> s.donations[i].donorId != Some(s.nextUserId)
  {
  }

  lemma AddUserValid(s: State, wallet: string, username: Option<string>, avatar: Option<string>)
    requires Valid(s)
    requires WalletIndex(s.users, wallet).None?
    ensures Valid(AddUser(s, wallet, username, avatar))
  {
    var s' := AddUser(s, wallet, username, avatar);
    forall id | HasUser(s.users, id) ensures HasUser(s'.users, id) {
      var k :| 0 <= k < |s.users| && s.users[k].id == id;
      assert s'.users[k].id == id;
    }
  }

  lemma PutUserValid(s: State, i: nat, u: User)
    requires Valid(s) && i < |s.users|
    requires u.id == s.users[i].id && u.walletAddress == s.users[i].walletAddress
    ensures Valid(PutUser(s, i, u))
  {
    var s' := PutUser(s, i, u);
    forall id | HasUser(s.users, id) ensures HasUser(s'.users, id) {
      var k :| 0 <= k < |s.users| && s.users[k].id == id;
      assert s'.users[k].id == id;
    }
  }

  lemma AddDreamValid(s: State, d: Dream)
    requires Valid(s)
    requires DreamIndex(s.dreams, d.id).None? && HasUser(s.users, d.userId)
    ensures Valid(AddDream(s, d))
  {
    var s' := AddDream(s, d);
    forall id | HasDream(s.dreams, id) ensures HasDream(s'.dreams, id) {
      var k :| 0 <= k < |s.dreams| && s.dreams[k].id == id;
      assert s'.dreams[k].id == id;
    }
  }

  lemma PutDreamValid(s: State, i: nat, d: Dream)
    requires Valid(s) && i < |s.dreams|
    requires d.id == s.dreams[i].id && d.userId == s.dreams[i].userId
    ensures Valid(PutDream(s, i, d))
  {
    var s' := PutDream(s, i, d);
    forall id | HasDream(s.dreams, id) ensures HasDream(s'.dreams, id) {
      var k :| 0 <= k < |s.dreams| && s.dreams[k].id == id;
      assert s'.dreams[k].id == id;
    }
  }

  lemma AddDonationValid(s: State, dreamId: int, donorId: Option<int>, wallet: string,
                         amount: real, currency: string, txHash: string)
    requires Valid(s)
    requires TxIndex(s.donations, txHash).None?
    requires HasDream(s.dreams, dreamId)
    requires donorId.Some? ==> HasUser(s.users, donorId.value)
    ensures Valid(AddDonation(s, dreamId, donorId, wallet, amount, currency, txHash))
  {
  }

  /** A store with the same keys as a consistent one, row by row, is consistent. */
  lemma SameKeysValid(s: State, t: State)
    requires Valid(s)
    requires |t.users| == |s.users| && |t.dreams| == |s.dreams| && t.donations == s.donations
    requires t.nextUserId == s.nextUserId && t.nextDonationId == s.nextDonationId
    requires forall j :: 0 <= j < |s.users| ==>
               t.users[j].id == s.users[j].id && t.users[j].walletAddress == s.users[j].walletAddress
    requires forall j :: 0 <= j < |s.dreams| ==>
               t.dreams[j].id == s.dreams[j].id && t.dreams[j].userId == s.dreams[j].userId
    ensures Valid(t)
  {
    forall id | HasUser(s.users, id) ensures HasUser(t.users, id) {
      var k :| 0 <= k < |s.users| && s.users[k].id == id;
      assert t.users[k].id == id;
    }
    forall id | HasDream(s.dreams, id) ensures HasDream(t.dreams, id) {
      var k :| 0 <= k < |s.dreams| && s.dreams[k].id == id;
      assert t.dreams[k].id == id;
    }
  }

  /** Under the unique key on user ids, the found index is the only one with that id. */
  lemma UserIndexUnique(s: State, id: int, k: nat)
    requires Valid(s) && k < |s.users| && s.users[k].id == id
    ensures UserIndex(s.users, id) == Some(k)
  {
  }

  /** The id is found at its first row. */
  lemma UserIndexFirst(users: seq<User>, id: int)
    ensures UserIndex(users, id).Some? ==> forall j :: 0 <= j < UserIndex(users, id).value ==> users[j].id != id
  {
  }

  /** Two user tables holding the same ids, position by position, find an id at the same position. */
  lemma UserIndexSameIds(a: seq<User>, b: seq<User>, id: int)
    requires |a| == |b| && forall j :: 0 <= j < |a| ==> a[j].id == b[j].id
    ensures UserIndex(a, id) == UserIndex(b, id)
  {
    var ra, rb := UserIndex(a, id), UserIndex(b, id);
    if ra.Some? {
      assert b[ra.value].id == id;
    }
    if rb.Some? {
      assert a[rb.value].id == id;
    }
  }

  // ---------------------------------------------------------------------------

  /** The store object: its tables are replaced by one primitive write at a time. */
  class Db {
    var users: seq<User>
    var dreams: seq<Dream>
    var donations: seq<Donation>
    var nextUserId: int
    var nextDreamId: int
    var nextDonationId: int

    function Snapshot(): State
      reads this
    {
      State(users, dreams, donations, nextUserId, nextDreamId, nextDonationId)
    }

    constructor ()
      ensures Snapshot() == Empty
    {
      users, dreams, donations := [], [], [];
      nextUserId, nextDreamId, nextDonationId := 1, 1, 1;
    }

    method InsertUser(wallet: string, username: Option<string>, avatar: Option<string>) returns (id: int)
      modifies this
      ensures id == old(nextUserId)
      ensures Snapshot() == AddUser(old(Snapshot()), wallet, username, avatar)
    {
      id := nextUserId;
      users := users + [User(id, wallet, username, avatar, 0, 0.0, 0.0, 0)];
      nextUserId := nextUserId + 1;
    }

    /** An insert the unique key rejects still draws a value of the id sequence. */
    method ConsumeUserId()
      modifies this
      ensures Snapshot() == old(Snapshot()).(nextUserId := old(nextUserId) + 1)
    {
      nextUserId := nextUserId + 1;
    }

    method UpdateUser(i: nat, u: User)
      requires i < |users|
      modifies this
      ensures Snapshot() == PutUser(old(Snapshot()), i, u)
    {
      users := users[i := u];
    }

    /** `nextval` on the dream id sequence. */
    method NextDreamId() returns (id: int)
      modifies this
      ensures id == old(nextDreamId)
      ensures Snapshot() == old(Snapshot()).(nextDreamId := id + 1)
    {
      id := nextDreamId;
      nextDreamId := nextDreamId + 1;
    }

    method InsertDream(d: Dream)
      modifies this
      ensures Snapshot() == AddDream(old(Snapshot()), d)
    {
      dreams := dreams + [d];
    }

    method UpdateDream(i: nat, d: Dream)
      requires i < |dreams|
      modifies this
      ensures Snapshot() == PutDream(old(Snapshot()), i, d)
    {
      dreams := dreams[i := d];
    }

    method InsertDonation(dreamId: int, donorId: Option<int>, wallet: string,
                          amount: real, currency: string, txHash: string) returns (d: Donation)
      modifies this
      ensures d == Donation(old(nextDonationId), dreamId, donorId, wallet, amount, currency, txHash)
      ensures Snapshot() == AddDonation(old(Snapshot()), dreamId, donorId, wallet, amount, currency, txHash)
    {
      d := Donation(nextDonationId, dreamId, donorId, wallet, amount, currency, txHash);
      donations := donations + [d];
      nextDonationId := nextDonationId + 1;
    }
  }
}
