/**
  The dream service: creating a dream (then refreshing its creator), adding to a dream's
  total, withdrawing (then refreshing the creator and every distinct donor), the
  platform-wide statistics and the random pick.
*/
module Dreams {
  import opened Wrappers
  import opened Records
  import opened Store
  import opened Reputation
  import Users
  import Donations

  /** JavaScript truthiness of an optional id: absent and 0 are falsy. */
  predicate IdTruthy(id: Option<int>) {
    id.Some? && id.value != 0
  }

  /** `donations.filter(d => d.donorId).map(d => d.donorId)`. */
  function DonorIds(donations: seq<Donation>): (ids: seq<int>)
    ensures forall x :: x in ids <==> exists k :: 0 <= k < |donations| && IdTruthy(donations[k].donorId) && donations[k].donorId.value == x
  {
    if donations == [] then []
    else (if IdTruthy(donations[0].donorId) then [donations[0].donorId.value] else [])
         + DonorIds(donations[1..])
  }

  /**
    `[...new Set(xs)]`: each value of `xs` once. The body keeps first occurrences in order;
    the contract states only membership and the absence of repeats, which is what the
    refresh loop over the donors relies on.
  */
  function Distinct(xs: seq<int>): (r: seq<int>)
    ensures forall x :: x in r <==> x in xs
    ensures forall i, j :: 0 <= i < j < |r| ==> r[i] != r[j]
  {
    if xs == [] then []
    else
      var r := Distinct(xs[..|xs| - 1]);
      var x := xs[|xs| - 1];
      assert xs == xs[..|xs| - 1] + [x];
      if x in r then r else r + [x]
  }

  /** `findByDreamId`: the donations made to that dream, in table order. */
  function DonationsTo(donations: seq<Donation>, dreamId: int): (r: seq<Donation>)
    ensures |r| <= |donations|
    ensures forall d :: d in r <==> d in donations && d.dreamId == dreamId
  {
    if donations == [] then []
    else (if donations[0].dreamId == dreamId then [donations[0]] else []) + DonationsTo(donations[1..], dreamId)
  }

  /** The rating refresh of each id in turn, skipping falsy ones, as the `for` loop does. */
  function RefreshEach(s: State, ids: seq<int>): (r: State)
    ensures r.dreams == s.dreams && r.donations == s.donations
    ensures r.nextUserId == s.nextUserId && r.nextDreamId == s.nextDreamId && r.nextDonationId == s.nextDonationId
    ensures |r.users| == |s.users| && forall k :: 0 <= k < |s.users| ==> r.users[k].id == s.users[k].id
    ensures forall k :: 0 <= k < |s.users| && s.users[k].id !in ids ==> r.users[k] == s.users[k]
  {
    if ids == [] then s
    else
      var t := RefreshEach(s, ids[..|ids| - 1]);
      var x := ids[|ids| - 1];
      if x != 0 then RefreshUser(t, x).0 else t
  }

  // ---------------------------------------------------------------------------
  // Specifications of the operations.

  /**
    `create`: the row takes the given id or the next value of the id sequence (which
    advances either way); a taken id or an unknown creator fails; on success the
    creator's rating is refreshed when `userId` is truthy.
  */
  function CreateDream(s: State, id: Option<int>, userId: int, title: string, description: string,
                       imageUrl: Option<string>, goal: real, category: Option<string>)
    : (res: (State, Result<Dream, Error>))
    ensures res.0.nextDreamId == if id.Some? then s.nextDreamId else s.nextDreamId + 1
    ensures res.0.donations == s.donations && res.0.nextUserId == s.nextUserId
    ensures res.1.Err? ==> res.0.users == s.users && res.0.dreams == s.dreams
    ensures res.1.Ok? ==>
              && res.0.dreams == s.dreams + [res.1.value]
              && res.1.value.userId == userId && res.1.value.goal == goal
              && res.1.value.totalDonations == 0.0 && res.1.value.status == Active && !res.1.value.isWithdrawn
  {
    var s0 := if id.Some? then s else s.(nextDreamId := s.nextDreamId + 1);
    var newId := if id.Some? then id.value else s.nextDreamId;
    if DreamIndex(s0.dreams, newId).Some? then (s0, Err(UniqueViolation))
    else if UserIndex(s0.users, userId).None? then (s0, Err(ForeignKeyViolation))
    else
      var d := Dream(newId, userId, title, description, imageUrl, category, goal, 0.0, 0, Active, false);
      var s1 := AddDream(s0, d);
      (if userId != 0 then RefreshUser(s1, userId).0 else s1, Ok(d))
  }

  /** `updateTotalDonations`: add `amount` to that dream's total; a missing dream is an error. */
  function AddToTotal(s: State, dreamId: int, amount: real): (res: (State, Result<Dream, Error>))
    ensures res.1.Ok? <==> DreamIndex(s.dreams, dreamId).Some?
    ensures res.1.Err? ==> res == (s, Err(RecordNotFound))
    ensures res.0.users == s.users && res.0.donations == s.donations && |res.0.dreams| == |s.dreams|
    ensures res.1.Ok? ==>
              && res.1.value.id == dreamId && res.0.dreams[DreamIndex(s.dreams, dreamId).value] == res.1.value
              && res.1.value.totalDonations == s.dreams[DreamIndex(s.dreams, dreamId).value].totalDonations + amount
  {
    match DreamIndex(s.dreams, dreamId)
    case None => (s, Err(RecordNotFound))
    case Some(i) =>
      var d := s.dreams[i].(totalDonations := s.dreams[i].totalDonations + amount);
      (PutDream(s, i, d), Ok(d))
  }

  /**
    `withdrawFunds`: flag the dream as withdrawn, refresh its creator, then refresh each
    distinct truthy donor id among the dream's donations once.
  */
  function Withdraw(s: State, dreamId: int): (res: (State, Result<Dream, Error>))
    ensures res.1.Ok? <==> DreamIndex(s.dreams, dreamId).Some?
    ensures res.1.Err? ==> res == (s, Err(RecordNotFound))
    ensures res.0.donations == s.donations && |res.0.dreams| == |s.dreams| && |res.0.users| == |s.users|
    ensures res.1.Ok? ==>
              && res.1.value.id == dreamId && res.1.value.isWithdrawn
              && res.0.dreams[DreamIndex(s.dreams, dreamId).value] == res.1.value
  {
    match DreamIndex(s.dreams, dreamId)
    case None => (s, Err(RecordNotFound))
    case Some(i) =>
      var d := s.dreams[i].(isWithdrawn := true);
      var s1 := PutDream(s, i, d);
      var s2 := if d.userId != 0 then RefreshUser(s1, d.userId).0 else s1;
      (RefreshEach(s2, Distinct(DonorIds(DonationsTo(s1.donations, dreamId)))), Ok(d))
  }

  datatype Stats = Stats(totalDreams: int, totalRaised: real, activeDonors: int, completedDreams: int)

  /** The `_sum` of `totalDonations`, which the store reports as null over no rows. */
  function SumOfTotals(dreams: seq<Dream>): real {
    if dreams == [] then 0.0 else dreams[0].totalDonations + SumOfTotals(dreams[1..])
  }

  function AggregateSum(dreams: seq<Dream>): (r: Option<real>)
    ensures r.None? <==> dreams == []
  {
    if dreams == [] then None else Some(SumOfTotals(dreams))
  }

  function CountCompleted(dreams: seq<Dream>): (n: nat)
    ensures n <= |dreams|
  {
    if dreams == [] then 0
    else (if dreams[0].status == Completed then 1 else 0) + CountCompleted(dreams[1..])
  }

  /** The distinct `fromWallet` values: the groups of `groupBy(['fromWallet'])`. */
  function Wallets(donations: seq<Donation>): set<string> {
    set k | 0 <= k < |donations| :: donations[k].fromWallet
  }

  /** `getStats`. */
  function GetStats(s: State): (st: Stats)
    ensures st.totalDreams == |s.dreams|
    ensures 0 <= st.completedDreams <= st.totalDreams
    ensures st.totalRaised == if s.dreams == [] then 0.0 else SumOfTotals(s.dreams)
    ensures st.completedDreams == CountCompleted(s.dreams)
    ensures st.activeDonors == |Wallets(s.donations)|
    ensures 0 <= st.activeDonors <= |s.donations|
    ensures st.activeDonors == 0 <==> s.donations == []
  {
    WalletsBound(s.donations);
    var raised := match AggregateSum(s.dreams) case None => 0.0 case Some(x) => x;
    Stats(|s.dreams|, raised, |Wallets(s.donations)|, CountCompleted(s.dreams))
  }

  /**
    `findRandom` with the random number passed in: null over an empty table, otherwise
    the dream at `Math.floor(rnd * dreams.length)`.
  */
  function FindRandom(s: State, rnd: real): (r: Option<Dream>)
    requires 0.0 <= rnd < 1.0
    ensures r.None? <==> s.dreams == []
    ensures r.Some? ==> r.value in s.dreams
  {
    if |s.dreams| == 0 then None
    else
      var n := |s.dreams|;
      ScaledIndex(rnd, n);
      Some(s.dreams[(rnd * n as real).Floor])
  }

  // ---------------------------------------------------------------------------

  lemma ScaledIndex(rnd: real, n: nat)
    requires 0.0 <= rnd < 1.0 && n > 0
    ensures 0 <= (rnd * n as real).Floor < n
  {
    assert 0.0 <= rnd * n as real < n as real;
  }

  lemma {:induction false} WalletsBound(donations: seq<Donation>)
    ensures |Wallets(donations)| <= |donations|
    ensures |Wallets(donations)| == 0 <==> donations == []
  {
    if donations != [] {
      assert donations[0].fromWallet in Wallets(donations);
      WalletsBound(donations[1..]);
      assert Wallets(donations) == {donations[0].fromWallet} + Wallets(donations[1..]) by {
        forall w | w in Wallets(donations) ensures w in {donations[0].fromWallet} + Wallets(donations[1..]) {
          var k :| 0 <= k < |donations| && donations[k].fromWallet == w;
          if k > 0 {
            assert donations[1..][k - 1].fromWallet == w;
          }
        }
        forall w | w in Wallets(donations[1..]) ensures w in Wallets(donations) {
          var k :| 0 <= k < |donations[1..]| && donations[1..][k].fromWallet == w;
          assert donations[k + 1].fromWallet == w;
        }
      }
    }
  }

  /** Refreshing twice is refreshing once: the recomputation reads only the dream and donation tables. */
  lemma RecomputedIdempotent(u: User, dreams: seq<Dream>, donations: seq<Donation>)
    ensures Recomputed(Recomputed(u, dreams, donations), dreams, donations) == Recomputed(u, dreams, donations)
  {
  }

  /**
    Refreshing a list of ids recomputes exactly the users whose id is a truthy member of
    the list, whatever the order and however often an id occurs, and writes nothing else.
  */
  lemma {:induction false} RefreshEachEffect(s: State, ids: seq<int>)
    requires Valid(s)
    ensures var s' := RefreshEach(s, ids);
      && Valid(s')
      && s'.dreams == s.dreams && s'.donations == s.donations
      && s'.nextUserId == s.nextUserId && s'.nextDreamId == s.nextDreamId && s'.nextDonationId == s.nextDonationId
      && |s'.users| == |s.users|
      && forall k :: 0 <= k < |s.users| ==>
           s'.users[k] == if s.users[k].id in ids && s.users[k].id != 0
                          then Recomputed(s.users[k], s.dreams, s.donations)
                          else s.users[k]
  {
    if ids != [] {
      var init := ids[..|ids| - 1];
      var x := ids[|ids| - 1];
      assert ids == init + [x];
      RefreshEachEffect(s, init);
      var t := RefreshEach(s, init);
      if x != 0 {
        RefreshUserValid(t, x);
        var t' := RefreshUser(t, x).0;
        match UserIndex(t.users, x)
        case None =>
        case Some(i) =>
          forall k | 0 <= k < |s.users|
            ensures t'.users[k] == if s.users[k].id in ids && s.users[k].id != 0
                                   then Recomputed(s.users[k], s.dreams, s.donations)
                                   else s.users[k]
          {
            if k == i {
              RecomputedIdempotent(s.users[k], s.dreams, s.donations);
            } else {
              assert t.users[k].id != x;
            }
          }
      }
    }
  }

  /**
    A new dream is appended with zero totals, ACTIVE and not withdrawn, and its creator's
    dream count rises by one; a taken id or unknown creator changes at most the id sequence.
  */
  lemma CreateDreamEffect(s: State, id: Option<int>, userId: int, title: string, description: string,
                          imageUrl: Option<string>, goal: real, category: Option<string>)
    requires Valid(s)
    ensures var (s', r) := CreateDream(s, id, userId, title, description, imageUrl, goal, category);
      var newId := if id.Some? then id.value else s.nextDreamId;
      var s0 := s.(nextDreamId := if id.Some? then s.nextDreamId else s.nextDreamId + 1);
      && (DreamIndex(s.dreams, newId).Some? ==> s' == s0 && r == Err(UniqueViolation))
      && (DreamIndex(s.dreams, newId).None? && !HasUser(s.users, userId) ==>
            s' == s0 && r == Err(ForeignKeyViolation))
      && (DreamIndex(s.dreams, newId).None? && HasUser(s.users, userId) ==>
            && r == Ok(Dream(newId, userId, title, description, imageUrl, category, goal, 0.0, 0, Active, false))
            && s'.dreams == s.dreams + [r.value] && s'.donations == s.donations
            && DreamsCreated(s'.dreams, userId) == DreamsCreated(s.dreams, userId) + 1
            && TotalReceivedOf(s'.dreams, userId) == TotalReceivedOf(s.dreams, userId)
            && |s'.users| == |s.users|
            && forall k :: 0 <= k < |s.users| ==>
                 s'.users[k] == if s.users[k].id == userId
                                then Recomputed(s.users[k], s'.dreams, s'.donations)
                                else s.users[k])
  {
    var newId := if id.Some? then id.value else s.nextDreamId;
    var s0 := if id.Some? then s else s.(nextDreamId := s.nextDreamId + 1);
    if DreamIndex(s0.dreams, newId).None? && UserIndex(s0.users, userId).Some? {
      var d := Dream(newId, userId, title, description, imageUrl, category, goal, 0.0, 0, Active, false);
      var k := UserIndex(s0.users, userId).value;
      DreamTotalsAppend(s.dreams, d, userId);
      forall j | 0 <= j < |s.users| && j != k ensures s.users[j].id != userId { }
    }
  }

  lemma CreateDreamValid(s: State, id: Option<int>, userId: int, title: string, description: string,
                         imageUrl: Option<string>, goal: real, category: Option<string>)
    requires Valid(s)
    ensures Valid(CreateDream(s, id, userId, title, description, imageUrl, goal, category).0)
  {
    var newId := if id.Some? then id.value else s.nextDreamId;
    var s0 := s.(nextDreamId := if id.Some? then s.nextDreamId else s.nextDreamId + 1);
    var s' := CreateDream(s, id, userId, title, description, imageUrl, goal, category).0;
    assert Valid(s0) by {
      assert s0.users == s.users && s0.dreams == s.dreams && s0.donations == s.donations;
      assert s0.nextUserId == s.nextUserId && s0.nextDonationId == s.nextDonationId;
    }
    if DreamIndex(s0.dreams, newId).None? && UserIndex(s0.users, userId).Some? {
      var d := Dream(newId, userId, title, description, imageUrl, category, goal, 0.0, 0, Active, false);
      AddDreamValid(s0, d);
      var s1 := AddDream(s0, d);
      RefreshUserValid(s1, userId);
      assert s' == if userId != 0 then RefreshUser(s1, userId).0 else s1;
    } else {
      assert s' == s0;
    }
  }

  /** Adding to a dream's total writes that one field of that one dream; the platform total moves by the amount. */
  lemma AddToTotalEffect(s: State, dreamId: int, amount: real)
    requires Valid(s)
    ensures var (s', r) := AddToTotal(s, dreamId, amount);
      && (r.Ok? <==> HasDream(s.dreams, dreamId))
      && (r.Err? ==> s' == s && r.error == RecordNotFound)
      && s'.users == s.users && s'.donations == s.donations && |s'.dreams| == |s.dreams|
      && (forall k :: 0 <= k < |s.dreams| ==>
            s'.dreams[k] == if s.dreams[k].id == dreamId
                            then s.dreams[k].(totalDonations := s.dreams[k].totalDonations + amount)
                            else s.dreams[k])
      && (r.Ok? ==> SumOfTotals(s'.dreams) == SumOfTotals(s.dreams) + amount)
  {
    match DreamIndex(s.dreams, dreamId)
    case None =>
    case Some(i) =>
      var d := s.dreams[i].(totalDonations := s.dreams[i].totalDonations + amount);
      SumOfTotalsPut(s.dreams, i, d);
  }

  lemma AddToTotalValid(s: State, dreamId: int, amount: real)
    requires Valid(s)
    ensures Valid(AddToTotal(s, dreamId, amount).0)
  {
    match DreamIndex(s.dreams, dreamId)
    case None =>
    case Some(i) =>
      var d := s.dreams[i].(totalDonations := s.dreams[i].totalDonations + amount);
      assert AddToTotal(s, dreamId, amount).0 == PutDream(s, i, d);
      PutDreamValid(s, i, d);
  }

  /** A new donation adds its wallet to the set of donor wallets. */
  lemma WalletsAppend(donations: seq<Donation>, d: Donation)
    ensures Wallets(donations + [d]) == Wallets(donations) + {d.fromWallet}
  {
    var t := donations + [d];
    forall w | w in Wallets(t) ensures w in Wallets(donations) + {d.fromWallet} {
      var k :| 0 <= k < |t| && t[k].fromWallet == w;
      if k < |donations| {
        assert donations[k].fromWallet == w;
      }
    }
    forall w | w in Wallets(donations) ensures w in Wallets(t) {
      var k :| 0 <= k < |donations| && donations[k].fromWallet == w;
      assert t[k].fromWallet == w;
    }
    assert t[|donations|].fromWallet == d.fromWallet;
  }

  /** The platform total is non-negative when every dream's total is. */
  lemma {:induction false} SumOfTotalsNonNegative(dreams: seq<Dream>)
    requires forall k :: 0 <= k < |dreams| ==> dreams[k].totalDonations >= 0.0
    ensures SumOfTotals(dreams) >= 0.0
  {
    if dreams != [] {
      assert forall k :: 0 <= k < |dreams[1..]| ==> dreams[1..][k] == dreams[k + 1];
      SumOfTotalsNonNegative(dreams[1..]);
    }
  }

  lemma {:induction false} SumOfTotalsPut(dreams: seq<Dream>, i: nat, d: Dream)
    requires i < |dreams|
    ensures SumOfTotals(dreams[i := d]) == SumOfTotals(dreams) + d.totalDonations - dreams[i].totalDonations
    ensures CountCompleted(dreams[i := d])
         == CountCompleted(dreams) + (if d.status == Completed then 1 else 0)
            - (if dreams[i].status == Completed then 1 else 0)
  {
    if i > 0 {
      assert dreams[i := d][1..] == dreams[1..][i - 1 := d];
      SumOfTotalsPut(dreams[1..], i - 1, d);
    } else {
      assert dreams[i := d][1..] == dreams[1..];
    }
  }

  /**
    Withdrawing flags that one dream and nothing else on it, and refreshes exactly the
    creator and the users that donated to it (each distinct donor once); a missing dream
    is an error that changes nothing.
  */
  lemma WithdrawEffect(s: State, dreamId: int)
    requires Valid(s)
    ensures var (s', r) := Withdraw(s, dreamId);
      && (r.Ok? <==> HasDream(s.dreams, dreamId))
      && (r.Err? ==> s' == s && r.error == RecordNotFound)
      && (r.Ok? ==>
            var i := DreamIndex(s.dreams, dreamId).value;
            && r.value == s.dreams[i].(isWithdrawn := true)
            && s'.dreams == s.dreams[i := r.value] && s'.donations == s.donations
            && |s'.users| == |s.users|
            && forall k :: 0 <= k < |s.users| ==>
                 s'.users[k] == if s.users[k].id == s.dreams[i].userId || DonatedTo(s.donations, dreamId, s.users[k].id)
                                then Recomputed(s.users[k], s'.dreams, s'.donations)
                                else s.users[k])
  {
    match DreamIndex(s.dreams, dreamId)
    case None =>
    case Some(i) =>
      var d := s.dreams[i].(isWithdrawn := true);
      PutDreamValid(s, i, d);
      var s1 := PutDream(s, i, d);
      RefreshUserValid(s1, d.userId);
      var s2 := if d.userId != 0 then RefreshUser(s1, d.userId).0 else s1;
      var ids := Distinct(DonorIds(DonationsTo(s1.donations, dreamId)));
      RefreshEachEffect(s2, ids);
      var s' := RefreshEach(s2, ids);
      assert Withdraw(s, dreamId) == (s', Ok(d));
      var c :| 0 <= c < |s.users| && s.users[c].id == d.userId;
      UserIndexUnique(s1, d.userId, c);
      assert s2 == PutUser(s1, c, Recomputed(s1.users[c], s1.dreams, s1.donations));
      forall k | 0 <= k < |s.users|
        ensures s'.users[k] == if s.users[k].id == d.userId || DonatedTo(s.donations, dreamId, s.users[k].id)
                               then Recomputed(s.users[k], s'.dreams, s'.donations)
                               else s.users[k]
      {
        DonatedToIds(s.donations, dreamId, s.users[k].id);
        if k == c {
          RecomputedIdempotent(s.users[k], s1.dreams, s1.donations);
        } else {
          assert s.users[k].id != d.userId;
        }
      }
  }

  lemma WithdrawValid(s: State, dreamId: int)
    requires Valid(s)
    ensures Valid(Withdraw(s, dreamId).0)
  {
    match DreamIndex(s.dreams, dreamId)
    case None =>
    case Some(i) =>
      var d := s.dreams[i].(isWithdrawn := true);
      PutDreamValid(s, i, d);
      var s1 := PutDream(s, i, d);
      RefreshUserValid(s1, d.userId);
      var s2 := if d.userId != 0 then RefreshUser(s1, d.userId).0 else s1;
      var ids := Distinct(DonorIds(DonationsTo(s1.donations, dreamId)));
      RefreshEachEffect(s2, ids);
      assert Withdraw(s, dreamId).0 == RefreshEach(s2, ids);
  }

  /** The ids the withdrawal refreshes after the creator: no id twice, and exactly the dream's donors. */
  lemma WithdrawRefreshesEachDonorOnce(s: State, dreamId: int)
    ensures var ids := Distinct(DonorIds(DonationsTo(s.donations, dreamId)));
      && (forall a, b :: 0 <= a < b < |ids| ==> ids[a] != ids[b])
      && forall id :: id != 0 ==> (id in ids <==> DonatedTo(s.donations, dreamId, id))
  {
    forall id | id != 0 ensures id in Distinct(DonorIds(DonationsTo(s.donations, dreamId))) <==> DonatedTo(s.donations, dreamId, id) {
      DonatedToIds(s.donations, dreamId, id);
    }
  }

  /**
    A recorded blockchain donation raises the platform total by its amount, completes at
    most the one dream, keeps the dream count and adds at most one active donor wallet.
  */
  lemma StatsAfterDonation(s: State, dreamId: int, amount: Option<real>, txHash: string, donor: string,
                           currency: Option<string>, di: nat)
    requires Donations.Admits(s, dreamId, amount, txHash, di)
    ensures var before := GetStats(s);
      var after := GetStats(Donations.Record(s, dreamId, amount, txHash, donor, currency).0);
      && after.totalDreams == before.totalDreams
      && after.totalRaised == before.totalRaised + amount.value
      && after.completedDreams
         == before.completedDreams + (if Donations.Reaches(s.dreams[di], amount.value) then 1 else 0)
      && after.activeDonors == before.activeDonors + (if donor in Wallets(s.donations) then 0 else 1)
  {
    var s' := Donations.Record(s, dreamId, amount, txHash, donor, currency).0;
    Donations.RecordDream(s, dreamId, amount, txHash, donor, currency, di);
    Donations.RecordDonation(s, dreamId, amount, txHash, donor, currency, di);
    SumOfTotalsPut(s.dreams, di, s'.dreams[di]);
    var d := s'.donations[|s.donations|];
    assert s'.donations == s.donations + [d];
    WalletsAppend(s.donations, d);
    if donor !in Wallets(s.donations) {
      assert |Wallets(s.donations) + {donor}| == |Wallets(s.donations)| + 1;
    } else {
      assert Wallets(s.donations) + {donor} == Wallets(s.donations);
    }
    assert s'.dreams == s.dreams[di := s'.dreams[di]];
  }

  /** Some donation to the dream has `id` as its donor. */
  predicate DonatedTo(donations: seq<Donation>, dreamId: int, id: int) {
    exists k :: 0 <= k < |donations| && donations[k].dreamId == dreamId && donations[k].donorId == Some(id)
  }

  lemma DonatedToIds(donations: seq<Donation>, dreamId: int, id: int)
    ensures id in Distinct(DonorIds(DonationsTo(donations, dreamId))) && id != 0
        <==> DonatedTo(donations, dreamId, id) && id != 0
  {
    var to := DonationsTo(donations, dreamId);
    if DonatedTo(donations, dreamId, id) && id != 0 {
      var k :| 0 <= k < |donations| && donations[k].dreamId == dreamId && donations[k].donorId == Some(id);
      assert donations[k] in to;
    }
    if id in DonorIds(to) {
      var k :| 0 <= k < |to| && IdTruthy(to[k].donorId) && to[k].donorId.value == id;
      assert to[k] in donations;
    }
  }

  // ---------------------------------------------------------------------------

  method Create(db: Db, id: Option<int>, userId: int, title: string, description: string,
                imageUrl: Option<string>, goal: real, category: Option<string>)
    returns (r: Result<Dream, Error>)
    modifies db
    ensures (db.Snapshot(), r) == CreateDream(old(db.Snapshot()), id, userId, title, description, imageUrl, goal, category)
  {
    var newId: int;
    if id.Some? {
      newId := id.value;
    } else {
      newId := db.NextDreamId();
    }
    if DreamIndex(db.dreams, newId).Some? {
      return Err(UniqueViolation);
    }
    if UserIndex(db.users, userId).None? {
      return Err(ForeignKeyViolation);
    }
    var d := Dream(newId, userId, title, description, imageUrl, category, goal, 0.0, 0, Active, false);
    db.InsertDream(d);
    if userId != 0 {
      var _ := Users.UpdateRating(db, userId);
    }
    r := Ok(d);
  }

  method UpdateTotalDonations(db: Db, dreamId: int, amount: real) returns (r: Result<Dream, Error>)
    modifies db
    ensures (db.Snapshot(), r) == AddToTotal(old(db.Snapshot()), dreamId, amount)
  {
    var found := DreamIndex(db.dreams, dreamId);
    if found.None? {
      return Err(RecordNotFound);
    }
    var d := db.dreams[found.value].(totalDonations := db.dreams[found.value].totalDonations + amount);
    db.UpdateDream(found.value, d);
    r := Ok(d);
  }

  method WithdrawFunds(db: Db, dreamId: int) returns (r: Result<Dream, Error>)
    modifies db
    ensures (db.Snapshot(), r) == Withdraw(old(db.Snapshot()), dreamId)
  {
    var found := DreamIndex(db.dreams, dreamId);
    if found.None? {
      return Err(RecordNotFound);
    }
    var d := db.dreams[found.value].(isWithdrawn := true);
    db.UpdateDream(found.value, d);
    ghost var s1 := db.Snapshot();
    if d.userId != 0 {
      var _ := Users.UpdateRating(db, d.userId);
    }
    ghost var s2 := db.Snapshot();
    var uniqueDonorIds := Distinct(DonorIds(DonationsTo(db.donations, dreamId)));
    assert uniqueDonorIds == Distinct(DonorIds(DonationsTo(s1.donations, dreamId)));
    var j := 0;
    while j < |uniqueDonorIds|
      invariant 0 <= j <= |uniqueDonorIds|
      invariant db.Snapshot() == RefreshEach(s2, uniqueDonorIds[..j])
    {
      var donorId := uniqueDonorIds[j];
      assert uniqueDonorIds[..j + 1][..j] == uniqueDonorIds[..j];
      if donorId != 0 {
        var _ := Users.UpdateRating(db, donorId);
      }
      j := j + 1;
    }
    assert uniqueDonorIds[..j] == uniqueDonorIds;
    r := Ok(d);
  }
}
