/**
  The rating recomputation of the user service: a user's totals are reloaded from
  the store (the sum of `totalDonations` over the dreams they created, the sum of
  `amount` over the donations they made, and the number of their dreams) and the
  rating is the floor of 0.5, 0.3 and 0.2 times those three.
*/
module Reputation {
  import opened Wrappers
  import opened Records
  import opened Store

  /** `user.dreams.reduce((sum, d) => sum + d.totalDonations, 0)`. */
  function TotalReceivedOf(dreams: seq<Dream>, userId: int): real {
    if dreams == [] then 0.0
    else (if dreams[0].userId == userId then dreams[0].totalDonations else 0.0)
         + TotalReceivedOf(dreams[1..], userId)
  }

  /** `user.donations.reduce((sum, d) => sum + d.amount, 0)`. */
  function TotalDonatedOf(donations: seq<Donation>, userId: int): real {
    if donations == [] then 0.0
    else (if donations[0].donorId == Some(userId) then donations[0].amount else 0.0)
         + TotalDonatedOf(donations[1..], userId)
  }

  /** `user.dreams.length`. */
  function DreamsCreated(dreams: seq<Dream>, userId: int): (n: nat)
    ensures n <= |dreams|
  {
    if dreams == [] then 0
    else (if dreams[0].userId == userId then 1 else 0) + DreamsCreated(dreams[1..], userId)
  }

  function Weighted(totalDonated: real, totalReceived: real, dreamsCreated: nat): real {
    0.5 * totalDonated + 0.3 * totalReceived + 0.2 * dreamsCreated as real
  }

  /** `Math.floor(totalDonated * 0.5 + totalReceived * 0.3 + dreamsCreated * 0.2)`. */
  function RatingOf(totalDonated: real, totalReceived: real, dreamsCreated: nat): (rating: int)
    ensures rating as real <= Weighted(totalDonated, totalReceived, dreamsCreated) < rating as real + 1.0
  {
    Weighted(totalDonated, totalReceived, dreamsCreated).Floor
  }

  /** The user with rating and both totals recomputed from the store; nothing else differs. */
  function Recomputed(u: User, dreams: seq<Dream>, donations: seq<Donation>): (r: User)
    ensures r == u.(rating := r.rating, totalDonated := r.totalDonated, totalReceived := r.totalReceived)
  {
    var received := TotalReceivedOf(dreams, u.id);
    var donated := TotalDonatedOf(donations, u.id);
    u.(rating := RatingOf(donated, received, DreamsCreated(dreams, u.id)),
       totalDonated := donated,
       totalReceived := received)
  }

  /** `updateRating(userId)`: the new store and the updated user, or no change and null. */
  function RefreshUser(s: State, userId: int): (res: (State, Option<User>))
    ensures UserIndex(s.users, userId).None? ==> res == (s, None)
    ensures UserIndex(s.users, userId).Some? ==>
              var i := UserIndex(s.users, userId).value;
              res.1.Some? && res.1.value.id == userId && res.0 == PutUser(s, i, res.1.value)
  {
    match UserIndex(s.users, userId)
    case None => (s, None)
    case Some(i) =>
      var u := Recomputed(s.users[i], s.dreams, s.donations);
      (PutUser(s, i, u), Some(u))
  }

  // ---------------------------------------------------------------------------
  // The folds under the store's writes.

  /** A new donation adds its amount to its donor's total and to no one else's. */
  lemma {:induction false} TotalDonatedAppend(donations: seq<Donation>, d: Donation, userId: int)
    ensures TotalDonatedOf(donations + [d], userId)
         == TotalDonatedOf(donations, userId) + (if d.donorId == Some(userId) then d.amount else 0.0)
  {
    if donations == [] {
      assert [d][1..] == [];
    } else {
      assert (donations + [d])[1..] == donations[1..] + [d];
      TotalDonatedAppend(donations[1..], d, userId);
    }
  }

  /** A new dream adds its total and one dream to its creator's figures only. */
  lemma {:induction false} DreamTotalsAppend(dreams: seq<Dream>, d: Dream, userId: int)
    ensures TotalReceivedOf(dreams + [d], userId)
         == TotalReceivedOf(dreams, userId) + (if d.userId == userId then d.totalDonations else 0.0)
    ensures DreamsCreated(dreams + [d], userId)
         == DreamsCreated(dreams, userId) + (if d.userId == userId then 1 else 0)
  {
    if dreams == [] {
      assert [d][1..] == [];
    } else {
      assert (dreams + [d])[1..] == dreams[1..] + [d];
      DreamTotalsAppend(dreams[1..], d, userId);
    }
  }

  /**
    Rewriting one dream without changing its creator moves its creator's received
    total by the change in `totalDonations` and leaves every dream count alone.
  */
  lemma {:induction false} DreamTotalsPut(dreams: seq<Dream>, i: nat, d: Dream, userId: int)
    requires i < |dreams| && d.userId == dreams[i].userId
    ensures TotalReceivedOf(dreams[i := d], userId)
         == TotalReceivedOf(dreams, userId)
            + (if d.userId == userId then d.totalDonations - dreams[i].totalDonations else 0.0)
    ensures DreamsCreated(dreams[i := d], userId) == DreamsCreated(dreams, userId)
  {
    if i > 0 {
      assert dreams[i := d][1..] == dreams[1..][i - 1 := d];
      DreamTotalsPut(dreams[1..], i - 1, d, userId);
    } else {
      assert dreams[i := d][1..] == dreams[1..];
    }
  }

  /** A user's received total is non-negative when their dreams' totals are. */
  lemma {:induction false} TotalReceivedNonNegative(dreams: seq<Dream>, userId: int)
    requires forall i :: 0 <= i < |dreams| && dreams[i].userId == userId ==> dreams[i].totalDonations >= 0.0
    ensures TotalReceivedOf(dreams, userId) >= 0.0
  {
    if dreams != [] {
      assert forall i :: 0 <= i < |dreams[1..]| ==> dreams[1..][i] == dreams[i + 1];
      TotalReceivedNonNegative(dreams[1..], userId);
    }
  }

  /** A user's donated total is non-negative when their donations' amounts are. */
  lemma {:induction false} TotalDonatedNonNegative(donations: seq<Donation>, userId: int)
    requires forall i :: 0 <= i < |donations| && donations[i].donorId == Some(userId) ==> donations[i].amount >= 0.0
    ensures TotalDonatedOf(donations, userId) >= 0.0
  {
    if donations != [] {
      assert forall i :: 0 <= i < |donations[1..]| ==> donations[1..][i] == donations[i + 1];
      TotalDonatedNonNegative(donations[1..], userId);
    }
  }

  /** The received total and dream count of a user who created no dream are zero. */
  lemma {:induction false} NoDreamsZero(dreams: seq<Dream>, userId: int)
    requires forall i :: 0 <= i < |dreams| ==> dreams[i].userId != userId
    ensures TotalReceivedOf(dreams, userId) == 0.0 && DreamsCreated(dreams, userId) == 0
  {
    if dreams != [] {
      NoDreamsZero(dreams[1..], userId);
    }
  }

  /** The donated total of a user who made no donation is zero. */
  lemma {:induction false} NoDonationsZero(donations: seq<Donation>, userId: int)
    requires forall i :: 0 <= i < |donations| ==> donations[i].donorId != Some(userId)
    ensures TotalDonatedOf(donations, userId) == 0.0
  {
    if donations != [] {
      NoDonationsZero(donations[1..], userId);
    }
  }

  /** Giving or receiving more never lowers the rating. */
  lemma RatingMonotone(d1: real, r1: real, n1: nat, d2: real, r2: real, n2: nat)
    requires d1 <= d2 && r1 <= r2 && n1 <= n2
    ensures RatingOf(d1, r1, n1) <= RatingOf(d2, r2, n2)
  {
  }

  /** A user with no history has rating 0 (the 0.2 weight of one dream also rounds down to 0). */
  lemma RatingSmallValues()
    ensures RatingOf(0.0, 0.0, 0) == 0
    ensures RatingOf(0.0, 0.0, 1) == 0
    ensures RatingOf(0.0, 0.0, 5) == 1
    ensures RatingOf(10.0, 100.0, 2) == 35
  {
  }

  // ---------------------------------------------------------------------------
  // Properties of `updateRating`.

  /** On success the returned user holds the sums over the store and the formula's rating. */
  lemma RefreshUserValues(s: State, userId: int)
    requires UserIndex(s.users, userId).Some?
    ensures var (s', u) := RefreshUser(s, userId);
      && u.Some? && u.value.id == userId
      && u.value.totalReceived == TotalReceivedOf(s.dreams, userId)
      && u.value.totalDonated == TotalDonatedOf(s.donations, userId)
      && u.value.rating == RatingOf(u.value.totalDonated, u.value.totalReceived, DreamsCreated(s.dreams, userId))
  {
  }

  /**
    Only the user's rating and two totals are written: the dream and donation tables,
    the counters, every other user and the user's chances, username, avatar and wallet
    address are as before.
  */
  lemma RefreshUserFrame(s: State, userId: int)
    ensures var s' := RefreshUser(s, userId).0;
      && s'.dreams == s.dreams && s'.donations == s.donations
      && s'.nextUserId == s.nextUserId && s'.nextDonationId == s.nextDonationId && s'.nextDreamId == s.nextDreamId
      && |s'.users| == |s.users|
      && forall k :: 0 <= k < |s.users| ==>
           if s.users[k].id == userId && UserIndex(s.users, userId) == Some(k)
           then s'.users[k] == s.users[k].(rating := s'.users[k].rating,
                                           totalDonated := s'.users[k].totalDonated,
                                           totalReceived := s'.users[k].totalReceived)
           else s'.users[k] == s.users[k]
  {
  }

  /** A second refresh with no store change in between changes nothing and returns the same user. */
  lemma RefreshUserIdempotent(s: State, userId: int)
    ensures var first := RefreshUser(s, userId);
      RefreshUser(first.0, userId) == first
  {
    var first := RefreshUser(s, userId);
    if UserIndex(s.users, userId).Some? {
      var i := UserIndex(s.users, userId).value;
      var s' := first.0;
      assert forall j :: 0 <= j < |s'.users| ==> s'.users[j].id == s.users[j].id;
      assert UserIndex(s'.users, userId) == Some(i) by {
        assert forall j :: 0 <= j < i ==> s'.users[j].id != userId;
      }
      assert s'.users[i := Recomputed(s'.users[i], s'.dreams, s'.donations)] == s'.users;
    }
  }

  lemma RefreshUserValid(s: State, userId: int)
    requires Valid(s)
    ensures Valid(RefreshUser(s, userId).0)
  {
    if UserIndex(s.users, userId).Some? {
      var i := UserIndex(s.users, userId).value;
      PutUserValid(s, i, Recomputed(s.users[i], s.dreams, s.donations));
    }
  }
}
