# Dreamchain donations and reputation, in Dafny

A model of the engine of the dreamchain service: the part that records donations made on
chain, prices them in stars and "chances", and keeps every user's reputation in step with
the store. It covers three services, all sharing one store of users, dreams and donations:

- the **donation service**:
  - the star table (`calculateRatingFromAmount`);
  - the threshold rule for chances (`calculateChancesGain`);
  - the orchestrator `recordBlockchainDonation`;
  - the store lookups `findByTxHash` and `findByDreamId`.
- the **user service**:
  - the rating refresh `updateRating`;
  - sign-up with a generated username (`create`);
  - `updateUsername`.
- the **dream service**:
  - `create`, which inserts a dream then refreshes its creator;
  - `updateTotalDonations`;
  - `withdrawFunds`, which sets the withdrawn flag and then refreshes the creator and each distinct donor;
  - `getStats`;
  - `findRandom`.

Layout, one module per file:

- `Wrappers` holds `Option` and `Result`.
- `Records` holds the rows `User`, `Dream` and `Donation`, the error kinds, and JavaScript's `||`-default and `slice`.
- `Store` holds the store:
  - `State` is a snapshot value: the three tables in insertion order plus the autoincrement counters;
  - `Valid` gives the integrity constraints: unique ids, wallet addresses and transaction hashes; the user and donation counters ahead of their ids (dream ids may be given explicitly, so the dream counter bounds nothing); foreign keys from a dream to its creator and from a donation to its dream and donor;
  - a pure function for each primitive write, with lemmas that each one keeps `Valid`;
  - `Db`, the store object the services update in place, one primitive write per method.
- `Pricing` holds stars and chances.
- `Reputation` holds the sums, the rating formula and `updateRating` as a function on snapshots.
- `Users`, `Dreams` and `Donations` hold the services.

Each service method takes the store object `db` and changes it in place, as the service
does through Prisma. Its postcondition ties `(db.Snapshot(), result)` to a pure function
of the snapshot before the call (`Record`, `CreateDream`, `Withdraw`, …). The properties
the code promises are lemmas about those functions.

Amounts are exact reals, and `Math.floor` is `.Floor`. A thrown exception is an `Err`, and
the store keeps every write made before the throw. `parseFloat(amount)` is abstracted:
`amount` arrives as `Option<real>`, with `None` standing for `NaN`.

Three behaviours of the code as written are worth knowing. The model follows the code in each.

- **The creator's credit is overwritten.** When a donation reaches the goal, the creator's
  `totalReceived` is first incremented by `goal` (lines 239-246 of
  `src/donations/donations.service.ts`). The very next call, `updateRating`, recomputes
  `totalReceived` as the sum of `totalDonations` over the creator's dreams, which
  overwrites that credit. So the creator ends with the sum over all their dreams, this
  dream's new total (overage included) among them, not the stored value plus `goal`.
  - `Donations.CompleteEffect` and `Donations.RecordCreator` state this.
  - `Donations.CreatorCreditExample` works it through: the goal is 100, the dream holds 90 and 15 is donated, so `totalReceived` ends at 105, not 190.
- **A creator's stored totals can go stale.** When a donation does not reach the goal, the
  creator is not refreshed. Their stored `totalReceived` stays behind the sum over their
  dreams until some later refresh (`Donations.RecordOthersUnchanged`).
- **A dream without a creator row is rejected before any write.** The dream is read
  with its creator, and the log line that follows (lines 137-139 of
  `src/donations/donations.service.ts`) reads the creator's wallet address, which throws
  when the creator row is missing. That happens after the dream lookup and before the
  status check and any write, and the model reports it as the `CreatorMissing` error
  (`Donations.Admit`, `Donations.Record`). As a consequence an admitted request always
  succeeds (`Donations.RecordSucceeds`), and the creator's update when the goal is
  reached cannot fail.

## Model

| member | source | states |
|---|---|---|
| Pricing.StarsFor | src/donations/donations.service.ts:24-30 | the star count is an integer from 1 to 5 |
| Pricing.StarsAreBucketRank | src/donations/donations.service.ts:24-30 | stars = 1 + the number of the bounds 25, 50, 100 and 200 that the amount exceeds |
| Pricing.StarsMonotone | src/donations/donations.service.ts:25-29 | a larger amount never earns fewer stars |
| Pricing.StarsBoundaries | src/donations/donations.service.ts:25-29 | 25→1, 26→2, 50→2, 100→3, 200→4, 201→5 |
| Pricing.ChancesGain | src/donations/donations.service.ts:42-76 | the gain is 0 or 1, however many thresholds one donation crosses |
| Pricing.FloorStep | src/donations/donations.service.ts:65-67 | floor(x/15) ≥ k exactly when x ≥ 15k |
| Pricing.Step15Crossing | src/donations/donations.service.ts:62-72 | the 15-rule fires exactly when some multiple 15k (k ≥ 1) lies in (previous, new] |
| Pricing.ChancesGainCrossing | src/donations/donations.service.ts:46-75 | gain is 1 exactly when previous < 1 ≤ new, or previous < 5 ≤ new, or some 15k ≤ new exceeds previous; otherwise 0 |
| Pricing.ChancesExamples | src/donations/donations.service.ts:49-75 | 0→1 gives 1; 0→20 (several thresholds) gives 1; 6→8 gives 0; 14→15 and 29→30 give 1 |
| Pricing.NoDonationNoChance | src/donations/donations.service.ts:42-76 | a zero amount never earns a chance |
| Records.Slice | src/users/users.service.ts:11 | JavaScript `slice`: the clamped bounds, the length and each character |
| Reputation.DreamsCreated | src/users/users.service.ts:145 | the user's dream count is at most the number of dreams |
| Reputation.RatingOf | src/users/users.service.ts:147-149 | the greatest integer not above 0.5·donated + 0.3·received + 0.2·dreams |
| Reputation.Recomputed | src/users/users.service.ts:151-157 | the refreshed user differs from the stored one only in rating, totalDonated and totalReceived |
| Reputation.RefreshUser | src/users/users.service.ts:120-157 | an unknown id gives null and leaves the store unchanged; otherwise only that user's row is written, and it is returned |
| Reputation.TotalDonatedAppend | src/users/users.service.ts:144 | a new donation adds its amount to its donor's sum and to no one else's |
| Reputation.DreamTotalsAppend | src/users/users.service.ts:140-145 | a new dream adds its total and one dream to its creator's figures only |
| Reputation.DreamTotalsPut | src/users/users.service.ts:140-145 | rewriting a dream moves its creator's received sum by the change in totalDonations, and no dream count |
| Reputation.NoDreamsZero | src/users/users.service.ts:140-145 | both sums start from 0: a user with no dreams has received 0 over 0 dreams |
| Reputation.NoDonationsZero | src/users/users.service.ts:144 | a user with no donations has donated 0 |
| Reputation.TotalReceivedNonNegative | src/users/users.service.ts:140-143 | the received sum over a user's dreams is non-negative when their dreams' totals are |
| Reputation.TotalDonatedNonNegative | src/users/users.service.ts:144 | the donated sum over a user's donations is non-negative when their amounts are |
| Reputation.RatingMonotone | src/users/users.service.ts:147-149 | giving, receiving or creating more never lowers the rating |
| Reputation.RatingSmallValues | src/users/users.service.ts:147-149 | concrete values: no history gives 0, one dream still gives 0, five dreams give 1 |
| Reputation.RefreshUserValues | src/users/users.service.ts:140-149 | totalReceived is the sum over the user's dreams, totalDonated the sum over their donations, and rating follows the formula |
| Reputation.RefreshUserFrame | src/users/users.service.ts:151-157 | only rating and the two totals of that user change; chances, username, avatar, wallet, other users and other tables do not |
| Reputation.RefreshUserIdempotent | src/users/users.service.ts:120-157 | a second refresh with no store change in between changes nothing and returns the same user |
| Reputation.RefreshUserValid | src/users/users.service.ts:151-157 | a refresh keeps the store's constraints |
| Users.DefaultUsername | src/users/users.service.ts:11 | the generated name starts with "User-" and has at most 11 characters; for an address of at least 8 characters the rest is characters 2 to 7 of the address |
| Users.CreateUser | src/users/users.service.ts:9-43 | the insert fails with a unique-key violation exactly when the wallet address is taken, and then changes nothing but consuming one value of the id sequence; the sequence advances by one either way |
| Users.CreateUserTaken | src/users/users.service.ts:9-43 | a taken address leaves every table as it was and keeps the store's constraints |
| Users.DefaultUsernameOfAddress | src/users/users.service.ts:11 | the generated name is "User-" followed by characters 2 to 7 of the address (11 characters); an address of at most 2 characters gives "User-" alone |
| Users.CreateUserFresh | src/users/users.service.ts:9-43 | a fresh address adds exactly one row: next id, the given username or the generated one, the avatar, all-zero figures; the refreshed row is returned and the constraints are kept |
| Users.SetUsername | src/users/users.service.ts:230-234 | an unknown wallet address fails with record-not-found and changes nothing |
| Users.SetUsernameFrame | src/users/users.service.ts:230-256 | only the username of the user with that address changes; success exactly when the address exists, and then the call returns the updated row |
| Users.UpdateRating | src/users/users.service.ts:120-157 | the method's new store and result are those of `RefreshUser` |
| Users.Create | src/users/users.service.ts:9-43 | the method's new store and result are those of `CreateUser` |
| Users.UpdateUsername | src/users/users.service.ts:230-234 | the method's new store and result are those of `SetUsername` |
| Dreams.DonorIds | src/dreams/dreams.service.ts:185-187 | exactly the truthy donor ids of the given donations |
| Dreams.Distinct | src/dreams/dreams.service.ts:183-189 | the same values, each once |
| Dreams.DonationsTo | src/donations/donations.service.ts:272-279 | exactly the donations made to that dream |
| Dreams.RefreshEach | src/dreams/dreams.service.ts:190-194 | refreshing a list of ids changes only user rows: the dreams, donations, counters, row count and every id stay, and a user whose id is not in the list is unchanged |
| Dreams.CreateDream | src/dreams/dreams.service.ts:13-28 | the id sequence advances exactly when no id is given; a failure leaves the tables as they were; success appends the returned dream, with the given creator and goal, zero totals, ACTIVE and not withdrawn; donations never change |
| Dreams.AddToTotal | src/dreams/dreams.service.ts:134-143 | success exactly when the dream exists; otherwise record-not-found and the store unchanged; the returned dream is the stored one, its total raised by the amount; users, donations and the dream count never change |
| Dreams.Withdraw | src/dreams/dreams.service.ts:161-197 | success exactly when the dream exists; otherwise record-not-found and the store unchanged; the returned dream is the stored one and is withdrawn; the table sizes and the donations never change |
| Dreams.AggregateSum | src/dreams/dreams.service.ts:74-77 | the `_sum` is null exactly when there are no dreams |
| Dreams.SumOfTotalsNonNegative | src/dreams/dreams.service.ts:74-77 | the platform sum is non-negative when every dream's total is |
| Dreams.WalletsAppend | src/dreams/dreams.service.ts:78-80 | a new donation adds its wallet to the donor wallets and nothing else |
| Dreams.CountCompleted | src/dreams/dreams.service.ts:81-83 | the completed count is at most the number of dreams |
| Dreams.CreateDreamEffect | src/dreams/dreams.service.ts:13-28 | a taken id or an unknown creator fails, changing at most the id sequence; otherwise the dream is appended with zero totals, ACTIVE and not withdrawn, the creator's dream count rises by one, and only the creator is recomputed |
| Dreams.CreateDreamValid | src/dreams/dreams.service.ts:13-28 | dream creation keeps the store's constraints |
| Dreams.AddToTotalEffect | src/dreams/dreams.service.ts:134-143 | only that dream's totalDonations changes, by the amount; the platform sum moves by the amount; a missing dream is an error that changes nothing |
| Dreams.AddToTotalValid | src/dreams/dreams.service.ts:134-143 | the increment keeps the store's constraints |
| Dreams.SumOfTotalsPut | src/dreams/dreams.service.ts:74-83 | rewriting one dream moves the platform sum by its change, and the completed count by its change of status |
| Dreams.RecomputedIdempotent | src/dreams/dreams.service.ts:178-194 | refreshing a user twice (a creator who also donated) equals refreshing once |
| Dreams.RefreshEachEffect | src/dreams/dreams.service.ts:190-194 | the loop recomputes exactly the users whose id is a truthy member of the list, and writes nothing else |
| Dreams.WithdrawEffect | src/dreams/dreams.service.ts:161-197 | only isWithdrawn of that dream changes; exactly the creator and the dream's donors are recomputed; a missing dream is an error that changes nothing |
| Dreams.WithdrawValid | src/dreams/dreams.service.ts:161-197 | withdrawal keeps the store's constraints |
| Dreams.WithdrawRefreshesEachDonorOnce | src/dreams/dreams.service.ts:183-194 | the loop's id list has no repeats and holds exactly the nonzero ids of the dream's donors |
| Dreams.DonatedToIds | src/dreams/dreams.service.ts:183-189 | a nonzero id is in the list exactly when some donation to the dream has it as its donor |
| Dreams.WalletsBound | src/dreams/dreams.service.ts:78-80 | there are no more donor wallets than donations, and none exactly when there are no donations |
| Dreams.GetStats | src/dreams/dreams.service.ts:71-92 | totalDreams is the dream count; totalRaised is the sum over dreams, or 0 when there are none; activeDonors is the number of distinct wallets (0 exactly when there are no donations); completedDreams is the COMPLETED count |
| Dreams.StatsAfterDonation | src/dreams/dreams.service.ts:71-92 | a recorded donation raises totalRaised by its amount, completedDreams by 1 exactly when it reaches the goal, and activeDonors by 1 exactly for a new wallet; totalDreams is unchanged |
| Dreams.ScaledIndex | src/dreams/dreams.service.ts:131 | floor(rnd·n) is an index for 0 ≤ rnd < 1 |
| Dreams.FindRandom | src/dreams/dreams.service.ts:120-132 | null exactly when there are no dreams; otherwise one of the dreams |
| Dreams.Create | src/dreams/dreams.service.ts:13-28 | the method's new store and result are those of `CreateDream` |
| Dreams.UpdateTotalDonations | src/dreams/dreams.service.ts:134-143 | the method's new store and result are those of `AddToTotal` |
| Dreams.WithdrawFunds | src/dreams/dreams.service.ts:161-197 | the method, whose loop refreshes the donors in turn, gives the new store and result of `Withdraw` |
| Donations.FindByTxHash | src/donations/donations.service.ts:290-294 | a found donation is in the table with that hash; nothing is found exactly when no donation has it |
| Donations.Admit | src/donations/donations.service.ts:104-145 | each rejection exactly when its check fails, in order: invalid amount, then known hash (the stored donation), then missing dream, then missing creator row, then completed dream; an admitted request passes every check on the dream's row |
| Donations.FindOrCreateDonor | src/donations/donations.service.ts:147-168 | a known wallet gives its row and its total as the previous total; an unknown one adds a zero row and a previous total of 0 |
| Donations.FindOrCreateDonorValid | src/donations/donations.service.ts:156-165 | creating the donor keeps the store's constraints |
| Donations.FindOrCreateDonorEffect | src/donations/donations.service.ts:147-168 | only a new donor row can be added; the donor's id is found at its row; a new donor has the next id and no donations |
| Donations.Contribute | src/donations/donations.service.ts:170-226 | the dream table keeps its size |
| Donations.Complete | src/donations/donations.service.ts:228-250 | the dream at that row becomes COMPLETED; donations and table sizes stay; it fails, with record-not-found, exactly when the creator row is missing |
| Donations.Apply | src/donations/donations.service.ts:147-250 | the dream table keeps its size; the only possible failure is record-not-found; a success returns a donation to that dream with that amount and hash |
| Donations.ContributeRows | src/donations/donations.service.ts:170-208 | one donation is appended (next id, donor id, amount, currency defaulting to USDC, hash); the dream gains the amount and the stars |
| Donations.ContributeDonor | src/donations/donations.service.ts:188-226 | only the donor's row changes: chances rise by the gain on the previous total, and the rest is recomputed |
| Donations.ContributeKeepsId | src/donations/donations.service.ts:147-226 | every existing user keeps its id at its row through the contribution's writes |
| Donations.CreatorPresent | src/donations/donations.service.ts:127-139 | on a consistent store the creator guard never rejects: `Admit` never returns `CreatorMissing` |
| Donations.CreatorFound | src/donations/donations.service.ts:239-246 | a creator present before the contribution's writes is found at the same row after them |
| Donations.ApplySucceeds | src/donations/donations.service.ts:137-139 | once the creator has been found, the writes after the guards cannot fail |
| Donations.ApplyDream | src/donations/donations.service.ts:195-238 | the writes after the guards add the amount and the stars to that dream, complete it exactly when the goal is reached, and change no other dream |
| Donations.CompleteEffect | src/donations/donations.service.ts:228-250 | the dream becomes COMPLETED; on a store without the creator row the credit would throw record-not-found after that write (the guards rule this out for `Record`); otherwise the creator is recomputed from the store and the `goal` credit leaves no trace |
| Donations.LastTxFound | src/donations/donations.service.ts:110-124 | a newly appended donation is what its hash finds |
| Donations.RecordAdmitted | src/donations/donations.service.ts:104-145 | a request that passes all checks is admitted on that dream's row and runs the writes after the guards there |
| Donations.Record | src/donations/donations.service.ts:91-260 | an invalid amount, a missing dream, a missing creator row and a completed dream each raise their error, and a known hash returns the stored donation, all with the store unchanged; every failure leaves the store unchanged |
| Donations.RecordIdempotent | src/donations/donations.service.ts:110-124 | a repeated submission leaves the store as the first left it and returns what the first returned: recording twice is recording once |
| Donations.RecordSucceeds | src/donations/donations.service.ts:127-250 | an admitted request succeeds |
| Donations.RecordDonation | src/donations/donations.service.ts:170-186 | exactly one donation is appended, with the next id, the donor's id, the amount, the currency and the hash, and the call returns it |
| Donations.RecordDream | src/donations/donations.service.ts:195-238 | the dream gains the amount and StarsFor(amount) stars, and is COMPLETED exactly when the total it was read with plus the amount reaches the goal; no other dream changes |
| Donations.RecordDonor | src/donations/donations.service.ts:147-226 | the donor's chances rise by ChancesGain(amount, previous total); their totalDonated becomes their earlier sum plus the amount; rating and totals are recomputed |
| Donations.RecordNewDonor | src/donations/donations.service.ts:154-165 | a first-time donor is a new last row with the next id: totalDonated = amount, received 0, chances = ChancesGain(amount, 0), rating floor(0.5·amount) |
| Donations.RecordCreator | src/donations/donations.service.ts:228-250 | reaching the goal sets the creator's totalReceived to their received sum before the donation plus the amount, overage included; a creator who is not the donor is recomputed, nothing else |
| Donations.RecordOthersUnchanged | src/donations/donations.service.ts:147-250 | no user other than the donor, and the creator when the goal is reached, changes |
| Donations.CreatorCreditExample | src/donations/donations.service.ts:239-249 | goal 100, total 90, donation 15 from a new wallet: success, and the creator's totalReceived is 105 |
| Donations.InsertDonationValid | src/donations/donations.service.ts:147-186 | creating the donor and inserting the donation keep the constraints |
| Donations.ContributeValid | src/donations/donations.service.ts:170-226 | the contribution's writes keep the store's constraints |
| Donations.CompleteValid | src/donations/donations.service.ts:228-250 | the completion's writes keep the store's constraints |
| Donations.RecordValid | src/donations/donations.service.ts:91-260 | recording a donation keeps the store's constraints |
| Donations.RecordBlockchainDonation | src/donations/donations.service.ts:91-260 | the method's new store and result are those of `Record` |
| Donations.ApplySteps | src/donations/donations.service.ts:147-250 | the admitted part of the method gives the new store and result of `Apply` |
| Donations.ContributeSteps | src/donations/donations.service.ts:147-226 | the contribution's writes, as the service performs them, give the store of `Contribute` |
| Donations.FindOrCreateDonorStep | src/donations/donations.service.ts:147-168 | the donor lookup or insert gives the row and snapshot of `FindOrCreateDonor` |
| Donations.CompleteSteps | src/donations/donations.service.ts:228-250 | the completion's writes, as the service performs them, give the store and failure of `Complete` |

## Left out

- Controllers, modules, bootstrap, DTO validation, JWT and the ethers provider: these are wiring and foreign libraries.
- Console logging: it writes nothing to the store. The one log line that can throw, the creator's wallet address at lines 137-139 of `src/donations/donations.service.ts`, is modelled as the `CreatorMissing` rejection.
- `parseFloat` and IEEE-754 arithmetic: amounts are exact reals and `NaN` is `None`. Floating-point rounding of sums and weights, infinities and negative zero are not modelled.
- `parseInt(dreamId)`: the dream id arrives as an integer. A non-numeric id, which the database would reject, is not modelled.
- Relation payloads (`include`, `select`): each operation returns the bare row, without the related user, dream or donations, and without `_count`.
- `createdAt` and `updatedAt` timestamps: they carry no logic here.
- Concurrency: each service call is one atomic, sequential step. `Promise.all` in `getStats` and interleaved `recordBlockchainDonation` calls are not modelled.
- The Prisma schema is not part of this model. The assumed defaults are:
  - users: rating, totals and chances 0, no username or avatar;
  - dreams: status ACTIVE, not withdrawn.
- `getNextId`, the raw SQL sequence read: the sequence is the store's `nextDreamId` counter, which `create` advances when no id is given.
- Id sequences: the model consumes a value of the user or dream id sequence on every insert that draws one, including an insert the unique or foreign key then rejects, as a PostgreSQL serial column does. Gaps in the sequence are therefore possible; nothing depends on their absence.
- `Math.random` in `findRandom`: the random number is a parameter.
- `DonationsService.create`: a plain insert of a DTO, outside this engine.
- `findById`, `findByWallet`, `findAll`, `findTop`, `findNew`, `findCompleted`, `findByUserId` and the other user lookups: these are paginated or ordered queries with no logic of their own.
- Dreams.CreateDream: the inserted row takes only the fields `create` is given. Any other column a DTO could set directly is not modelled.
- Dreams.CreateDream: `goal` is always given. The dream DTO lets it be omitted (`src/dreams/dto/create-dream.dto.ts:21-23`); what the store then does (a schema default or a rejected insert) depends on the Prisma schema, which is not part of this model.
