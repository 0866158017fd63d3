/**
  The donation service's recording of a blockchain donation: validate the amount,
  short-circuit on a known transaction hash, reject a missing dream, a dream without its
  creator row and a completed dream, find or create the donor, insert the donation, add
  the amount and the stars to the dream, add the amount and the chances to the donor,
  refresh the donor's rating and, when the goal is reached, complete the dream, credit
  its creator and refresh the creator's rating.
*/
module Donations {
  import opened Wrappers
  import opened Records
  import opened Store
  import opened Reputation
  import opened Pricing
  import Users

  /** `findByTxHash`. */
  function FindByTxHash(donations: seq<Donation>, txHash: string): (r: Option<Donation>)
    ensures r.Some? ==> r.value in donations && r.value.txHash == txHash
    ensures r.None? <==> forall d :: d in donations ==> d.txHash != txHash
  {
    match TxIndex(donations, txHash)
    case None => None
    case Some(i) => Some(donations[i])
  }

  /** Where the checks that precede every write leave a request. */
  datatype Admission =
    | Rejected(error: Error)
    | Duplicate(existing: Donation)
    | Admitted(amount: real, dreamIndex: nat)

  predicate ValidAmount(amount: Option<real>) {
    amount.Some? && amount.value > 0.0
  }

  /**
    The guards that precede every write: the amount, the idempotency guard on `txHash`,
    the dream's existence, its creator (whose wallet address the service logs, so a dream
    without a creator row throws there) and its status.
  */
  function Admit(s: State, dreamId: int, amount: Option<real>, txHash: string): (a: Admission)
    ensures a == Rejected(InvalidAmount) <==> !ValidAmount(amount)
    ensures a.Duplicate? <==> ValidAmount(amount) && FindByTxHash(s.donations, txHash).Some?
    ensures a.Duplicate? ==> a.existing in s.donations && a.existing.txHash == txHash
    ensures a == Rejected(DreamNotFound(dreamId))
        <==> ValidAmount(amount) && FindByTxHash(s.donations, txHash).None? && !HasDream(s.dreams, dreamId)
    ensures a == Rejected(CreatorMissing(dreamId))
        <==> ValidAmount(amount) && FindByTxHash(s.donations, txHash).None? && DreamIndex(s.dreams, dreamId).Some?
             && UserIndex(s.users, s.dreams[DreamIndex(s.dreams, dreamId).value].userId).None?
    ensures a == Rejected(DreamCompleted(dreamId))
        <==> ValidAmount(amount) && FindByTxHash(s.donations, txHash).None? && DreamIndex(s.dreams, dreamId).Some?
             && UserIndex(s.users, s.dreams[DreamIndex(s.dreams, dreamId).value].userId).Some?
             && s.dreams[DreamIndex(s.dreams, dreamId).value].status == Completed
    ensures a.Admitted? ==> Admits(s, dreamId, amount, txHash, a.dreamIndex) && a.amount == amount.value
  {
    if !ValidAmount(amount) then Rejected(InvalidAmount)
    else match FindByTxHash(s.donations, txHash)
      case Some(d) => Duplicate(d)
      case None =>
        match DreamIndex(s.dreams, dreamId)
        case None => Rejected(DreamNotFound(dreamId))
        case Some(i) =>
          if UserIndex(s.users, s.dreams[i].userId).None? then Rejected(CreatorMissing(dreamId))
          else if s.dreams[i].status == Completed then Rejected(DreamCompleted(dreamId))
          else Admitted(amount.value, i)
  }

  /**
    A request that passes every guard, on the dream at row `di`: a positive amount, an
    unknown hash, the dream found with its creator, and not completed.
  */
  predicate Admits(s: State, dreamId: int, amount: Option<real>, txHash: string, di: nat) {
    && ValidAmount(amount) && FindByTxHash(s.donations, txHash).None?
    && DreamIndex(s.dreams, dreamId) == Some(di)
    && UserIndex(s.users, s.dreams[di].userId).Some?
    && s.dreams[di].status != Completed
  }

  /** The store after the donor lookup, the donor's position in it, and the donor's total before this donation. */
  datatype DonorFound = DonorFound(s: State, index: nat, previous: real)

  /** The donor lookup: the donor by wallet address, created with rating and chances zero when absent. */
  function FindOrCreateDonor(s: State, wallet: string): (r: DonorFound)
    ensures r.index < |r.s.users| && r.s.users[r.index].walletAddress == wallet
    ensures WalletIndex(s.users, wallet).Some? ==>
              r == DonorFound(s, WalletIndex(s.users, wallet).value, s.users[WalletIndex(s.users, wallet).value].totalDonated)
    ensures WalletIndex(s.users, wallet).None? ==>
              r == DonorFound(AddUser(s, wallet, None, None), |s.users|, 0.0)
  {
    match WalletIndex(s.users, wallet)
    case Some(i) => DonorFound(s, i, s.users[i].totalDonated)
    case None => DonorFound(AddUser(s, wallet, None, None), |s.users|, 0.0)
  }

  /** Whether the donation reaches the dream's goal, judged on the dream as it was read. */
  predicate Reaches(dream: Dream, amount: real) {
    dream.totalDonations + amount >= dream.goal
  }

  /** The contribution: look up or create the donor, insert the donation, add the amount and the stars to the dream, add the
      amount and the chances to the donor, and refresh the donor's rating. */
  function Contribute(s: State, dreamId: int, amount: real, di: nat, txHash: string, donor: string,
                      currency: Option<string>): (res: (State, Donation))
    requires di < |s.dreams|
    ensures |res.0.dreams| == |s.dreams|
  {
    var found := FindOrCreateDonor(s, donor);
    var donorId := found.s.users[found.index].id;
    var donation := Donation(found.s.nextDonationId, dreamId, Some(donorId), donor, amount,
                             OrElse(currency, "USDC"), txHash);
    var s1 := AddDonation(found.s, dreamId, Some(donorId), donor, amount, OrElse(currency, "USDC"), txHash);
    var gain := ChancesGain(amount, found.previous);
    var dream := s.dreams[di];
    var s2 := PutDream(s1, di, dream.(totalDonations := dream.totalDonations + amount,
                                      rating := dream.rating + StarsFor(amount)));
    var u := s2.users[found.index];
    var s3 := PutUser(s2, found.index, u.(totalDonated := u.totalDonated + amount, chances := u.chances + gain));
    (RefreshUser(s3, donorId).0, donation)
  }

  /** The completion, once the goal is reached: complete the dream, credit its creator with the goal and
      refresh the creator's rating; `RecordNotFound` when the creator's row is missing. */
  function Complete(s: State, di: nat, dream: Dream): (res: (State, Option<Error>))
    requires di < |s.dreams|
    ensures res.0.donations == s.donations && |res.0.dreams| == |s.dreams| && |res.0.users| == |s.users|
    ensures res.0.dreams[di].status == Completed
    ensures res.1.Some? <==> UserIndex(s.users, dream.userId).None?
    ensures res.1.Some? ==> res.1 == Some(RecordNotFound)
  {
    var s5 := PutDream(s, di, s.dreams[di].(status := Completed));
    match UserIndex(s5.users, dream.userId)
    case None => (s5, Some(RecordNotFound))
    case Some(c) =>
      var s6 := PutUser(s5, c, s5.users[c].(totalReceived := s5.users[c].totalReceived + dream.goal));
      (RefreshUser(s6, dream.userId).0, None)
  }

  /** The contribution, then the completion when the goal is reached, for an admitted request. */
  function Apply(s: State, dreamId: int, amount: real, di: nat, txHash: string, donor: string,
                 currency: Option<string>): (res: (State, Result<Donation, Error>))
    requires di < |s.dreams|
    ensures |res.0.dreams| == |s.dreams|
    ensures res.1.Err? ==> res.1.error == RecordNotFound
    ensures res.1.Ok? ==> res.1.value.dreamId == dreamId && res.1.value.amount == amount && res.1.value.txHash == txHash
  {
    var c := Contribute(s, dreamId, amount, di, txHash, donor, currency);
    var dream := s.dreams[di];
    if !Reaches(dream, amount) then (c.0, Ok(c.1))
    else
      var f := Complete(c.0, di, dream);
      if f.1.Some? then (f.0, Err(f.1.value)) else (f.0, Ok(c.1))
  }

  /** `recordBlockchainDonation` on a store snapshot: the new store and what the call returns or throws. */
  function Record(s: State, dreamId: int, amount: Option<real>, txHash: string, donor: string,
                  currency: Option<string>): (res: (State, Result<Donation, Error>))
    ensures !ValidAmount(amount) ==> res == (s, Err(InvalidAmount))
    ensures ValidAmount(amount) && FindByTxHash(s.donations, txHash).Some? ==>
              res == (s, Ok(FindByTxHash(s.donations, txHash).value))
    ensures ValidAmount(amount) && FindByTxHash(s.donations, txHash).None? && !HasDream(s.dreams, dreamId) ==>
              res == (s, Err(DreamNotFound(dreamId)))
    ensures ValidAmount(amount) && FindByTxHash(s.donations, txHash).None? && DreamIndex(s.dreams, dreamId).Some?
            && UserIndex(s.users, s.dreams[DreamIndex(s.dreams, dreamId).value].userId).None? ==>
              res == (s, Err(CreatorMissing(dreamId)))
    ensures ValidAmount(amount) && FindByTxHash(s.donations, txHash).None? && DreamIndex(s.dreams, dreamId).Some?
            && UserIndex(s.users, s.dreams[DreamIndex(s.dreams, dreamId).value].userId).Some?
            && s.dreams[DreamIndex(s.dreams, dreamId).value].status == Completed ==>
              res == (s, Err(DreamCompleted(dreamId)))
    ensures res.1.Err? ==> res.0 == s
  {
    match Admit(s, dreamId, amount, txHash)
    case Rejected(e) => (s, Err(e))
    case Duplicate(d) => (s, Ok(d))
    case Admitted(a, di) =>
      ApplySucceeds(s, dreamId, a, di, txHash, donor, currency);
      Apply(s, dreamId, a, di, txHash, donor, currency)
  }

  // ---------------------------------------------------------------------------
  // What the writes after the guards do.

  /** The donor lookup keeps the constraints. */
  lemma FindOrCreateDonorValid(s: State, wallet: string)
    requires Valid(s)
    ensures Valid(FindOrCreateDonor(s, wallet).s)
  {
    if WalletIndex(s.users, wallet).None? {
      AddUserValid(s, wallet, None, None);
    }
  }

  /** The donor lookup leaves everything but the new donor row alone, and the donor's id is found at its row. */
  lemma FindOrCreateDonorEffect(s: State, wallet: string)
    requires Valid(s)
    ensures DonorLocated(s, wallet)
    ensures var f := FindOrCreateDonor(s, wallet);
      && f.s.dreams == s.dreams && f.s.donations == s.donations
      && f.s.nextDonationId == s.nextDonationId && f.s.nextDreamId == s.nextDreamId
      && |s.users| <= |f.s.users| && (forall j :: 0 <= j < |s.users| ==> f.s.users[j] == s.users[j])
      && (f.index == |s.users| ==>
            f.s.users[f.index] == User(s.nextUserId, wallet, None, None, 0, 0.0, 0.0, 0) && f.previous == 0.0
            && TotalDonatedOf(s.donations, s.nextUserId) == 0.0)
      && (f.index < |s.users| ==> f.s.users == s.users && f.previous == s.users[f.index].totalDonated)
  {
    var f := FindOrCreateDonor(s, wallet);
    FindOrCreateDonorValid(s, wallet);
    if WalletIndex(s.users, wallet).None? {
      FreshUserUnreferenced(s);
      NoDonationsZero(s.donations, s.nextUserId);
    }
    UserIndexUnique(f.s, f.s.users[f.index].id, f.index);
  }

  /** The contribution appends one donation with the next id and increment one dream. */
  lemma ContributeRows(s: State, dreamId: int, amount: real, di: nat, txHash: string, donor: string,
                       currency: Option<string>)
    requires di < |s.dreams|
    ensures var f := FindOrCreateDonor(s, donor);
      var c := Contribute(s, dreamId, amount, di, txHash, donor, currency);
      && c.1 == Donation(s.nextDonationId, dreamId, Some(f.s.users[f.index].id), donor, amount,
                         OrElse(currency, "USDC"), txHash)
      && c.0.donations == s.donations + [c.1]
      && c.0.dreams == s.dreams[di := s.dreams[di].(totalDonations := s.dreams[di].totalDonations + amount,
                                                    rating := s.dreams[di].rating + StarsFor(amount))]
      && c.0.nextUserId == f.s.nextUserId && c.0.nextDreamId == s.nextDreamId
      && c.0.nextDonationId == s.nextDonationId + 1
  {
  }

  /** The donor's id is found at the donor's row once the donor lookup is done. */
  predicate DonorLocated(s: State, donor: string) {
    var f := FindOrCreateDonor(s, donor);
    UserIndex(f.s.users, f.s.users[f.index].id) == Some(f.index)
  }

  /**
    The contribution changes one user row, the donor's: its chances rise by the gain on the
    total captured before the donation, and its rating and totals are recomputed.
  */
  lemma ContributeDonor(s: State, dreamId: int, amount: real, di: nat, txHash: string, donor: string,
                        currency: Option<string>)
    requires di < |s.dreams| && DonorLocated(s, donor)
    ensures var f := FindOrCreateDonor(s, donor);
      var c := Contribute(s, dreamId, amount, di, txHash, donor, currency);
      var u := f.s.users[f.index];
      && |c.0.users| == |f.s.users|
      && (forall j :: 0 <= j < |f.s.users| && j != f.index ==> c.0.users[j] == f.s.users[j])
      && c.0.users[f.index] == Recomputed(u.(chances := u.chances + ChancesGain(amount, f.previous)),
                                          c.0.dreams, c.0.donations)
  {
    var f := FindOrCreateDonor(s, donor);
    var u := f.s.users[f.index];
    var s1 := AddDonation(f.s, dreamId, Some(u.id), donor, amount, OrElse(currency, "USDC"), txHash);
    var dream := s.dreams[di];
    var s2 := PutDream(s1, di, dream.(totalDonations := dream.totalDonations + amount,
                                      rating := dream.rating + StarsFor(amount)));
    var s3 := PutUser(s2, f.index, u.(totalDonated := u.totalDonated + amount,
                                      chances := u.chances + ChancesGain(amount, f.previous)));
    UserIndexSameIds(s3.users, f.s.users, u.id);
    assert UserIndex(s3.users, u.id) == Some(f.index);
    var s4 := PutUser(s3, f.index, Recomputed(s3.users[f.index], s3.dreams, s3.donations));
    assert RefreshUser(s3, u.id).0 == s4;
    var d := Donation(s.nextDonationId, dreamId, Some(u.id), donor, amount, OrElse(currency, "USDC"), txHash);
    assert Contribute(s, dreamId, amount, di, txHash, donor, currency) == (s4, d);
  }

  /**
    The completion completes the dream and recomputes its creator from the store; the credit of
    `goal` written just before the refresh leaves no trace in the creator's row. On a store
    without the creator row the credit would throw after the status is written; the guards
    of `Admit` rule that store out before `Record` gets here.
  */
  lemma CompleteEffect(s: State, di: nat, dream: Dream)
    requires di < |s.dreams|
    ensures var r := Complete(s, di, dream);
      && r.0.dreams == s.dreams[di := s.dreams[di].(status := Completed)]
      && r.0.donations == s.donations
      && r.0.nextUserId == s.nextUserId && r.0.nextDreamId == s.nextDreamId
      && r.0.nextDonationId == s.nextDonationId
      && |r.0.users| == |s.users|
      && (r.1.Some? <==> UserIndex(s.users, dream.userId).None?)
      && (r.1.Some? ==> r.1.value == RecordNotFound && r.0.users == s.users)
      && (r.1.None? ==>
            var c := UserIndex(s.users, dream.userId).value;
            && (forall j :: 0 <= j < |s.users| && j != c ==> r.0.users[j] == s.users[j])
            && r.0.users[c] == Recomputed(s.users[c], r.0.dreams, r.0.donations))
  {
    var s5 := PutDream(s, di, s.dreams[di].(status := Completed));
    if UserIndex(s.users, dream.userId).Some? {
      var c := UserIndex(s.users, dream.userId).value;
      var s6 := PutUser(s5, c, s5.users[c].(totalReceived := s5.users[c].totalReceived + dream.goal));
      UserIndexSameIds(s6.users, s.users, dream.userId);
      assert UserIndex(s6.users, dream.userId) == Some(c);
    }
  }

  /** The contribution writes keep every existing user's id at its row. */
  lemma ContributeKeepsId(s: State, dreamId: int, amount: real, di: nat, txHash: string, donor: string,
                          currency: Option<string>, k: nat)
    requires di < |s.dreams| && k < |s.users|
    ensures var c := Contribute(s, dreamId, amount, di, txHash, donor, currency);
      k < |c.0.users| && c.0.users[k].id == s.users[k].id
  {
    var found := FindOrCreateDonor(s, donor);
    var donorId := found.s.users[found.index].id;
    var s1 := AddDonation(found.s, dreamId, Some(donorId), donor, amount, OrElse(currency, "USDC"), txHash);
    var dream := s.dreams[di];
    var s2 := PutDream(s1, di, dream.(totalDonations := dream.totalDonations + amount,
                                      rating := dream.rating + StarsFor(amount)));
    var u := s2.users[found.index];
    var s3 := PutUser(s2, found.index, u.(totalDonated := u.totalDonated + amount,
                                          chances := u.chances + ChancesGain(amount, found.previous)));
    assert s3.users[k].id == s.users[k].id;
    var s4 := if UserIndex(s3.users, donorId).None? then s3
              else var i := UserIndex(s3.users, donorId).value;
                   PutUser(s3, i, Recomputed(s3.users[i], s3.dreams, s3.donations));
    assert RefreshUser(s3, donorId).0 == s4;
    var d := Donation(found.s.nextDonationId, dreamId, Some(donorId), donor, amount, OrElse(currency, "USDC"), txHash);
    assert Contribute(s, dreamId, amount, di, txHash, donor, currency) == (s4, d);
  }

  /** Once the guards have found the dream's creator, the creator's update cannot fail. */
  lemma ApplySucceeds(s: State, dreamId: int, amount: real, di: nat, txHash: string, donor: string,
                      currency: Option<string>)
    requires di < |s.dreams| && UserIndex(s.users, s.dreams[di].userId).Some?
    ensures Apply(s, dreamId, amount, di, txHash, donor, currency).1.Ok?
  {
    var uid := s.dreams[di].userId;
    var k := UserIndex(s.users, uid).value;
    var c := Contribute(s, dreamId, amount, di, txHash, donor, currency);
    ContributeKeepsId(s, dreamId, amount, di, txHash, donor, currency, k);
    assert UserIndex(c.0.users, uid).Some?;
    CompleteEffect(c.0, di, s.dreams[di]);
  }

  /** On a consistent store every dream has its creator, so the creator guard never rejects. */
  lemma CreatorPresent(s: State, dreamId: int, amount: Option<real>, txHash: string)
    requires Valid(s)
    ensures Admit(s, dreamId, amount, txHash) != Rejected(CreatorMissing(dreamId))
  {
    if ValidAmount(amount) && FindByTxHash(s.donations, txHash).None? && DreamIndex(s.dreams, dreamId).Some? {
      var di := DreamIndex(s.dreams, dreamId).value;
      assert HasUser(s.users, s.dreams[di].userId);
    }
  }

  /** A creator present before the contribution writes is found at the same row after them. */
  lemma CreatorFound(s: State, dreamId: int, amount: real, di: nat, txHash: string, donor: string,
                     currency: Option<string>)
    requires di < |s.dreams| && UserIndex(s.users, s.dreams[di].userId).Some?
    ensures UserIndex(Contribute(s, dreamId, amount, di, txHash, donor, currency).0.users, s.dreams[di].userId)
         == UserIndex(s.users, s.dreams[di].userId)
  {
    var uid := s.dreams[di].userId;
    var k := UserIndex(s.users, uid).value;
    var c := Contribute(s, dreamId, amount, di, txHash, donor, currency);
    forall j | 0 <= j <= k ensures c.0.users[j].id == s.users[j].id {
      ContributeKeepsId(s, dreamId, amount, di, txHash, donor, currency, j);
    }
    UserIndexFirst(s.users, uid);
    UserIndexFirst(c.0.users, uid);
  }

  /** The last of a table's donations is the one its hash finds when no earlier one carries that hash. */
  lemma LastTxFound(donations: seq<Donation>, d: Donation)
    requires forall e :: e in donations ==> e.txHash != d.txHash
    ensures FindByTxHash(donations + [d], d.txHash) == Some(d)
  {
    var r := TxIndex(donations + [d], d.txHash);
    assert (donations + [d])[|donations|] == d;
    assert forall j :: 0 <= j < |donations| ==> (donations + [d])[j] in donations;
  }

  /** An admitted request, as `Record` runs it. */
  lemma RecordAdmitted(s: State, dreamId: int, amount: Option<real>, txHash: string, donor: string,
                       currency: Option<string>, di: nat)
    requires Admits(s, dreamId, amount, txHash, di)
    ensures Admit(s, dreamId, amount, txHash) == Admitted(amount.value, di)
    ensures Record(s, dreamId, amount, txHash, donor, currency)
         == Apply(s, dreamId, amount.value, di, txHash, donor, currency)
  {
  }

  // ---------------------------------------------------------------------------
  // Properties of `recordBlockchainDonation`.

  /**
    A second submission of the same request leaves the store as the first left it and
    returns what the first returned: recording twice is recording once.
  */
  lemma RecordIdempotent(s: State, dreamId: int, amount: Option<real>, txHash: string, donor: string,
                         currency: Option<string>)
    ensures var first := Record(s, dreamId, amount, txHash, donor, currency);
      Record(first.0, dreamId, amount, txHash, donor, currency) == first
  {
    var first := Record(s, dreamId, amount, txHash, donor, currency);
    match Admit(s, dreamId, amount, txHash)
    case Rejected(_) =>
    case Duplicate(_) =>
    case Admitted(a, di) =>
      var c := Contribute(s, dreamId, a, di, txHash, donor, currency);
      ContributeRows(s, dreamId, a, di, txHash, donor, currency);
      if Reaches(s.dreams[di], a) {
        CompleteEffect(c.0, di, s.dreams[di]);
      }
      assert first.0.donations == s.donations + [c.1];
      assert first.1 == Ok(c.1);
      LastTxFound(s.donations, c.1);
  }

  /** An admitted request always succeeds: the guards have found the dream's creator. */
  lemma RecordSucceeds(s: State, dreamId: int, amount: Option<real>, txHash: string, donor: string,
                       currency: Option<string>, di: nat)
    requires Admits(s, dreamId, amount, txHash, di)
    ensures Record(s, dreamId, amount, txHash, donor, currency).1.Ok?
  {
    RecordAdmitted(s, dreamId, amount, txHash, donor, currency, di);
    ApplySucceeds(s, dreamId, amount.value, di, txHash, donor, currency);
  }

  /**
    An admitted request appends one donation, with the next donation id, the donor's id,
    the amount, the currency (`USDC` by default) and the hash, and returns it.
  */
  lemma RecordDonation(s: State, dreamId: int, amount: Option<real>, txHash: string, donor: string,
                       currency: Option<string>, di: nat)
    requires Admits(s, dreamId, amount, txHash, di)
    ensures var r := Record(s, dreamId, amount, txHash, donor, currency);
      var f := FindOrCreateDonor(s, donor);
      var d := Donation(s.nextDonationId, dreamId, Some(f.s.users[f.index].id), donor, amount.value,
                        OrElse(currency, "USDC"), txHash);
      && r.0.donations == s.donations + [d]
      && r.0.nextDonationId == s.nextDonationId + 1 && r.0.nextDreamId == s.nextDreamId
      && r.0.nextUserId == f.s.nextUserId
      && r.1 == Ok(d)
  {
    RecordAdmitted(s, dreamId, amount, txHash, donor, currency, di);
    ApplySucceeds(s, dreamId, amount.value, di, txHash, donor, currency);
    var a := amount.value;
    var c := Contribute(s, dreamId, a, di, txHash, donor, currency);
    ContributeRows(s, dreamId, a, di, txHash, donor, currency);
    CompleteEffect(c.0, di, s.dreams[di]);
  }

  /**
    An admitted request adds the amount to the dream's `totalDonations` and the amount's
    stars to its `rating`, and completes it when the total it was read with plus the amount
    reaches the goal; every other dream is unchanged.
  */
  lemma RecordDream(s: State, dreamId: int, amount: Option<real>, txHash: string, donor: string,
                    currency: Option<string>, di: nat)
    requires Admits(s, dreamId, amount, txHash, di)
    ensures var r := Record(s, dreamId, amount, txHash, donor, currency);
      var dream := s.dreams[di];
      r.0.dreams == s.dreams[di := dream.(totalDonations := dream.totalDonations + amount.value,
                                          rating := dream.rating + StarsFor(amount.value),
                                          status := if Reaches(dream, amount.value) then Completed else dream.status)]
  {
    RecordAdmitted(s, dreamId, amount, txHash, donor, currency, di);
    ApplyDream(s, dreamId, amount.value, di, txHash, donor, currency);
  }

  lemma ApplyDream(s: State, dreamId: int, a: real, di: nat, txHash: string, donor: string,
                   currency: Option<string>)
    requires di < |s.dreams|
    ensures var dream := s.dreams[di];
      Apply(s, dreamId, a, di, txHash, donor, currency).0.dreams
        == s.dreams[di := dream.(totalDonations := dream.totalDonations + a, rating := dream.rating + StarsFor(a),
                                 status := if Reaches(dream, a) then Completed else dream.status)]
  {
    var dream := s.dreams[di];
    var c := Contribute(s, dreamId, a, di, txHash, donor, currency);
    ContributeRows(s, dreamId, a, di, txHash, donor, currency);
    if Reaches(dream, a) {
      CompleteEffect(c.0, di, dream);
    }
  }

  /**
    On a consistent store an admitted request leaves the donor's row as recomputed from the
    new store, with `chances` raised by the gain on the total the donor had before, and
    the donor's `totalDonated` is then the sum of their earlier donations plus the amount.
  */
  lemma RecordDonor(s: State, dreamId: int, amount: Option<real>, txHash: string, donor: string,
                    currency: Option<string>, di: nat)
    requires Valid(s)
    requires Admits(s, dreamId, amount, txHash, di)
    ensures var r := Record(s, dreamId, amount, txHash, donor, currency);
      var f := FindOrCreateDonor(s, donor);
      var u := f.s.users[f.index];
      && f.index < |r.0.users|
      && r.0.users[f.index] == Recomputed(u.(chances := u.chances + ChancesGain(amount.value, f.previous)),
                                          r.0.dreams, r.0.donations)
      && r.0.users[f.index].totalDonated == TotalDonatedOf(s.donations, u.id) + amount.value
  {
    RecordAdmitted(s, dreamId, amount, txHash, donor, currency, di);
    var a := amount.value;
    var f := FindOrCreateDonor(s, donor);
    var u := f.s.users[f.index];
    var c := Contribute(s, dreamId, a, di, txHash, donor, currency);
    ContributeRows(s, dreamId, a, di, txHash, donor, currency);
    FindOrCreateDonorEffect(s, donor);
    ContributeDonor(s, dreamId, a, di, txHash, donor, currency);
    TotalDonatedAppend(s.donations, c.1, u.id);
    var dream := s.dreams[di];
    if Reaches(dream, a) {
      CreatorFound(s, dreamId, a, di, txHash, donor, currency);
      CompleteEffect(c.0, di, dream);
      DreamTotalsPut(c.0.dreams, di, c.0.dreams[di].(status := Completed), u.id);
    }
  }

  /**
    A donor seen for the first time is the last row, with the next user id, no username or
    avatar, nothing received, the amount as `totalDonated`, the gain on a previous total of 0
    as `chances`, and the rating of that amount alone.
  */
  lemma RecordNewDonor(s: State, dreamId: int, amount: Option<real>, txHash: string, donor: string,
                       currency: Option<string>, di: nat)
    requires Valid(s)
    requires Admits(s, dreamId, amount, txHash, di)
    requires WalletIndex(s.users, donor).None?
    ensures var r := Record(s, dreamId, amount, txHash, donor, currency);
      && |r.0.users| == |s.users| + 1
      && r.0.users[|s.users|] == User(s.nextUserId, donor, None, None, RatingOf(amount.value, 0.0, 0),
                                      amount.value, 0.0, ChancesGain(amount.value, 0.0))
  {
    var r := Record(s, dreamId, amount, txHash, donor, currency);
    RecordAdmitted(s, dreamId, amount, txHash, donor, currency, di);
    RecordDonor(s, dreamId, amount, txHash, donor, currency, di);
    RecordDream(s, dreamId, amount, txHash, donor, currency, di);
    FindOrCreateDonorEffect(s, donor);
    ContributeDonor(s, dreamId, amount.value, di, txHash, donor, currency);
    FreshUserUnreferenced(s);
    NoDreamsZero(r.0.dreams, s.nextUserId);
    CompleteEffect(Contribute(s, dreamId, amount.value, di, txHash, donor, currency).0, di, s.dreams[di]);
  }

  /**
    When the donation reaches the goal, the creator's row is recomputed from the new store:
    their `totalReceived` becomes the sum over their dreams before the donation plus the
    amount, overage included, and not their stored value plus `goal`.
  */
  lemma RecordCreator(s: State, dreamId: int, amount: Option<real>, txHash: string, donor: string,
                      currency: Option<string>, di: nat)
    requires Valid(s)
    requires Admits(s, dreamId, amount, txHash, di)
    requires Reaches(s.dreams[di], amount.value)
    ensures var r := Record(s, dreamId, amount, txHash, donor, currency);
      var uid := s.dreams[di].userId;
      && UserIndex(s.users, uid).Some?
      && var ci := UserIndex(s.users, uid).value;
      && ci < |r.0.users| && r.0.users[ci].id == uid
      && r.0.users[ci].totalReceived == TotalReceivedOf(s.dreams, uid) + amount.value
      && (ci != FindOrCreateDonor(s, donor).index ==>
            r.0.users[ci] == Recomputed(s.users[ci], r.0.dreams, r.0.donations))
  {
    RecordAdmitted(s, dreamId, amount, txHash, donor, currency, di);
    var a := amount.value;
    var dream := s.dreams[di];
    var c := Contribute(s, dreamId, a, di, txHash, donor, currency);
    ContributeRows(s, dreamId, a, di, txHash, donor, currency);
    CreatorFound(s, dreamId, a, di, txHash, donor, currency);
    FindOrCreateDonorEffect(s, donor);
    ContributeDonor(s, dreamId, a, di, txHash, donor, currency);
    CompleteEffect(c.0, di, dream);
    DreamTotalsPut(s.dreams, di, c.0.dreams[di], dream.userId);
    DreamTotalsPut(c.0.dreams, di, c.0.dreams[di].(status := Completed), dream.userId);
  }

  /**
    No user row other than the donor's, and the creator's when the goal is reached, changes;
    in particular a creator whose dream stays below its goal keeps the stored totals.
  */
  lemma RecordOthersUnchanged(s: State, dreamId: int, amount: Option<real>, txHash: string, donor: string,
                              currency: Option<string>, di: nat)
    requires Valid(s)
    requires Admits(s, dreamId, amount, txHash, di)
    ensures var r := Record(s, dreamId, amount, txHash, donor, currency);
      var f := FindOrCreateDonor(s, donor);
      && |r.0.users| == |f.s.users|
      && forall j :: 0 <= j < |s.users| && j != f.index
                     && !(Reaches(s.dreams[di], amount.value) && s.users[j].id == s.dreams[di].userId) ==>
           r.0.users[j] == s.users[j]
  {
    RecordAdmitted(s, dreamId, amount, txHash, donor, currency, di);
    var a := amount.value;
    var dream := s.dreams[di];
    var c := Contribute(s, dreamId, a, di, txHash, donor, currency);
    FindOrCreateDonorEffect(s, donor);
    ContributeDonor(s, dreamId, a, di, txHash, donor, currency);
    if Reaches(dream, a) {
      CreatorFound(s, dreamId, a, di, txHash, donor, currency);
      CompleteEffect(c.0, di, dream);
    }
  }

  /**
    A dream with goal 100 holding 90 that receives 15 from another user ends with its
    creator at a `totalReceived` of 105, the dream's new total, rather than the 90 + 100
    that crediting exactly `goal` would give.
  */
  lemma CreatorCreditExample()
    ensures var creator := User(1, "0xc0ffee", None, None, 27, 0.0, 90.0, 0);
      var dream := Dream(1, 1, "Dream", "", None, None, 100.0, 90.0, 3, Active, false);
      var s := State([creator], [dream], [], 2, 2, 1);
      var r := Record(s, 1, Some(15.0), "0xhash", "0xd0d0", None);
      |r.0.users| == 2 && r.0.users[0].totalReceived == 105.0 && r.1.Ok?
  {
    var creator := User(1, "0xc0ffee", None, None, 27, 0.0, 90.0, 0);
    var dream := Dream(1, 1, "Dream", "", None, None, 100.0, 90.0, 3, Active, false);
    var s := State([creator], [dream], [], 2, 2, 1);
    assert HasUser(s.users, 1) by { assert s.users[0].id == 1; }
    assert Valid(s);
    assert FindByTxHash(s.donations, "0xhash").None?;
    assert DreamIndex(s.dreams, 1) == Some(0);
    assert UserIndex(s.users, 1).Some? by { assert s.users[0].id == 1; }
    assert Admits(s, 1, Some(15.0), "0xhash", 0);
    RecordCreator(s, 1, Some(15.0), "0xhash", "0xd0d0", None, 0);
    RecordSucceeds(s, 1, Some(15.0), "0xhash", "0xd0d0", None, 0);
    assert WalletIndex(s.users, "0xd0d0").None? by { assert s.users[0].walletAddress != "0xd0d0"; }
    RecordNewDonor(s, 1, Some(15.0), "0xhash", "0xd0d0", None, 0);
    assert TotalReceivedOf(s.dreams, 1) == 90.0;
  }

  /** The donor lookup and the insertion of the donation keep the store's constraints. */
  lemma InsertDonationValid(s: State, dreamId: int, amount: real, di: nat, txHash: string, donor: string,
                            currency: string)
    requires Valid(s) && di < |s.dreams| && s.dreams[di].id == dreamId
    requires TxIndex(s.donations, txHash).None?
    ensures var f := FindOrCreateDonor(s, donor);
      Valid(AddDonation(f.s, dreamId, Some(f.s.users[f.index].id), donor, amount, currency, txHash))
  {
    FindOrCreateDonorValid(s, donor);
    FindOrCreateDonorEffect(s, donor);
    var f := FindOrCreateDonor(s, donor);
    assert HasDream(f.s.dreams, dreamId) by { assert f.s.dreams[di].id == dreamId; }
    assert HasUser(f.s.users, f.s.users[f.index].id);
    AddDonationValid(f.s, dreamId, Some(f.s.users[f.index].id), donor, amount, currency, txHash);
  }

  /** The contribution keeps the store's constraints. */
  lemma ContributeValid(s: State, dreamId: int, amount: real, di: nat, txHash: string, donor: string,
                        currency: Option<string>)
    requires Valid(s) && di < |s.dreams| && s.dreams[di].id == dreamId
    requires TxIndex(s.donations, txHash).None?
    ensures Valid(Contribute(s, dreamId, amount, di, txHash, donor, currency).0)
  {
    var f := FindOrCreateDonor(s, donor);
    var s1 := AddDonation(f.s, dreamId, Some(f.s.users[f.index].id), donor, amount, OrElse(currency, "USDC"), txHash);
    InsertDonationValid(s, dreamId, amount, di, txHash, donor, OrElse(currency, "USDC"));
    FindOrCreateDonorEffect(s, donor);
    ContributeRows(s, dreamId, amount, di, txHash, donor, currency);
    ContributeDonor(s, dreamId, amount, di, txHash, donor, currency);
    SameKeysValid(s1, Contribute(s, dreamId, amount, di, txHash, donor, currency).0);
  }

  /** The completion keeps the store's constraints. */
  lemma CompleteValid(s: State, di: nat, dream: Dream)
    requires Valid(s) && di < |s.dreams|
    ensures Valid(Complete(s, di, dream).0)
  {
    CompleteEffect(s, di, dream);
    SameKeysValid(s, Complete(s, di, dream).0);
  }

  /** Recording a donation keeps the store's constraints. */
  lemma RecordValid(s: State, dreamId: int, amount: Option<real>, txHash: string, donor: string,
                    currency: Option<string>)
    requires Valid(s)
    ensures Valid(Record(s, dreamId, amount, txHash, donor, currency).0)
  {
    match Admit(s, dreamId, amount, txHash)
    case Rejected(_) =>
    case Duplicate(_) =>
    case Admitted(a, di) =>
      ContributeValid(s, dreamId, a, di, txHash, donor, currency);
      var c := Contribute(s, dreamId, a, di, txHash, donor, currency);
      if Reaches(s.dreams[di], a) {
        CompleteValid(c.0, di, s.dreams[di]);
      }
  }

  // ---------------------------------------------------------------------------

  method RecordBlockchainDonation(db: Db, dreamId: int, amount: Option<real>, txHash: string,
                                  donor: string, currency: Option<string>)
    returns (r: Result<Donation, Error>)
    modifies db
    ensures (db.Snapshot(), r) == Record(old(db.Snapshot()), dreamId, amount, txHash, donor, currency)
  {
    if amount.None? || amount.value <= 0.0 {
      return Err(InvalidAmount);
    }
    var amountNum := amount.value;
    var existingDonation := FindByTxHash(db.donations, txHash);
    if existingDonation.Some? {
      return Ok(existingDonation.value);
    }
    var found := DreamIndex(db.dreams, dreamId);
    if found.None? {
      return Err(DreamNotFound(dreamId));
    }
    var di := found.value;
    var dream := db.dreams[di];
    if UserIndex(db.users, dream.userId).None? {
      return Err(CreatorMissing(dreamId));
    }
    if dream.status == Completed {
      return Err(DreamCompleted(dreamId));
    }
    ghost var s := db.Snapshot();
    assert Admit(s, dreamId, amount, txHash) == Admitted(amountNum, di);
    r := ApplySteps(db, dreamId, amountNum, di, txHash, donor, currency);
  }

  /** The contribution and the completion, as the service performs them. */
  method ApplySteps(db: Db, dreamId: int, amountNum: real, di: nat, txHash: string, donor: string,
                    currency: Option<string>)
    returns (r: Result<Donation, Error>)
    requires di < |db.dreams|
    modifies db
    ensures (db.Snapshot(), r) == Apply(old(db.Snapshot()), dreamId, amountNum, di, txHash, donor, currency)
  {
    var dream := db.dreams[di];
    var donation := ContributeSteps(db, dreamId, amountNum, di, txHash, donor, currency);
    if dream.totalDonations + amountNum >= dream.goal {
      var failure := CompleteSteps(db, di, dream);
      if failure.Some? {
        return Err(failure.value);
      }
    }
    r := Ok(donation);
  }

  /** The contribution, as the service performs it. */
  method ContributeSteps(db: Db, dreamId: int, amountNum: real, di: nat, txHash: string, donor: string,
                         currency: Option<string>)
    returns (donation: Donation)
    requires di < |db.dreams|
    modifies db
    ensures (db.Snapshot(), donation) == Contribute(old(db.Snapshot()), dreamId, amountNum, di, txHash, donor, currency)
  {
    ghost var s := db.Snapshot();
    var dream := db.dreams[di];
    var k, previousTotalDonated := FindOrCreateDonorStep(db, donor);
    ghost var found := FindOrCreateDonor(s, donor);
    ghost var s0 := db.Snapshot();
    assert s0 == found.s;
    var donorId := db.users[k].id;
    donation := db.InsertDonation(dreamId, Some(donorId), donor, amountNum, OrElse(currency, "USDC"), txHash);
    var chancesGain := ChancesGain(amountNum, previousTotalDonated);
    var ratingIncrement := StarsFor(amountNum);
    db.UpdateDream(di, dream.(totalDonations := dream.totalDonations + amountNum,
                              rating := dream.rating + ratingIncrement));
    var u := db.users[k];
    db.UpdateUser(k, u.(totalDonated := u.totalDonated + amountNum, chances := u.chances + chancesGain));
    ghost var s3 := db.Snapshot();
    assert s3 == PutUser(PutDream(AddDonation(s0, dreamId, Some(donorId), donor, amountNum, OrElse(currency, "USDC"), txHash),
                                  di, dream.(totalDonations := dream.totalDonations + amountNum,
                                             rating := dream.rating + ratingIncrement)),
                         k, u.(totalDonated := u.totalDonated + amountNum, chances := u.chances + chancesGain));
    var _ := Users.UpdateRating(db, donorId);
  }

  /** The donor lookup, as the service performs it. */
  method FindOrCreateDonorStep(db: Db, donor: string) returns (k: nat, previousTotalDonated: real)
    modifies db
    ensures FindOrCreateDonor(old(db.Snapshot()), donor) == DonorFound(db.Snapshot(), k, previousTotalDonated)
  {
    var donorUser := WalletIndex(db.users, donor);
    if donorUser.None? {
      var _ := db.InsertUser(donor, None, None);
      k := |db.users| - 1;
      previousTotalDonated := 0.0;
    } else {
      k := donorUser.value;
      previousTotalDonated := db.users[k].totalDonated;
    }
  }

  /** The completion, as the service performs it; the error, if any, that the creator's update throws. */
  method CompleteSteps(db: Db, di: nat, dream: Dream) returns (failure: Option<Error>)
    requires di < |db.dreams|
    modifies db
    ensures (db.Snapshot(), failure) == Complete(old(db.Snapshot()), di, dream)
  {
    db.UpdateDream(di, db.dreams[di].(status := Completed));
    var creator := UserIndex(db.users, dream.userId);
    if creator.None? {
      return Some(RecordNotFound);
    }
    var c := creator.value;
    db.UpdateUser(c, db.users[c].(totalReceived := db.users[c].totalReceived + dream.goal));
    var _ := Users.UpdateRating(db, dream.userId);
    failure := None;
  }
}
