/** What each event leaves in the tables, told from the event and the tables alone. */
module EventEffects {
  import opened Domain
  import opened EventLog
  import opened Tables
  import opened Handlers
  import opened DonationStats
  import opened RoundRoles
  import opened ApplicationStatus

  /** The round is one of the strategy that emitted the event. */
  predicate IsRoundOf(t: Tables, e: Event, round: nat) {
    round in t.rounds && t.rounds[round].strategy == e.srcAddress
  }

  /** The application is one of that round with that anchor. */
  predicate IsApplicationOf(t: Tables, round: nat, anchor: Address, k: ApplicationKey) {
    k in t.applications && k.round == round && t.applications[k].anchor == anchor
  }

  // ---------------------------------------------------------------- donations

  /** One donation more of `units`, and the donors now counted. */
  ghost predicate Raised(was: Stats, now: Stats, units: Units, donors: set<Address>) {
    now.count == was.count + 1 && now.usd == was.usd + units && now.donors == |donors|
  }

  ghost predicate RoundRaised(t: Tables, u: Tables, round: nat, units: Units) {
    && round in t.rounds && round in u.rounds
    && Raised(t.rounds[round].stats, u.rounds[round].stats, units,
              set d | d in u.donations && d.round == round :: d.donor)
    && u.rounds == t.rounds[round := t.rounds[round].(stats := u.rounds[round].stats)]
  }

  ghost predicate ApplicationRaised(t: Tables, u: Tables, k: ApplicationKey, units: Units) {
    && k in t.applications && k in u.applications
    && Raised(t.applications[k].stats, u.applications[k].stats, units,
              set d | d in u.donations && d.round == k.round && d.application == Some(k.id) :: d.donor)
    && u.applications == t.applications[k := t.applications[k].(stats := u.applications[k].stats)]
  }

  ghost predicate SameRoleTables(t: Tables, u: Tables) {
    u.roundRoles == t.roundRoles && u.pending == t.pending && u.nextPending == t.nextPending
  }

  /** The donation is stored once, as a row of its own donor. */
  ghost predicate Recorded(t: Tables, u: Tables, row: DonationRow) {
    u.donations == t.donations + if exists d :: d in t.donations && d.id == row.id then [] else [row]
  }

  lemma DonationTables(t: Tables, id: string, round: nat, application: Option<ApplicationId>, donor: Address, usd: Usd)
    requires round in t.rounds
    requires application.Some? ==> ApplicationKey(round, application.value) in t.applications
    requires ApplyAll(t, DonationChanges(id, round, application, donor, usd)).Ok?
    ensures var u := ApplyAll(t, DonationChanges(id, round, application, donor, usd)).value;
            && Recorded(t, u, DonationRow(id, round, application, donor, ToUnits(usd)))
            && RoundRaised(t, u, round, ToUnits(usd))
            && (application.None? ==> u.applications == t.applications)
            && (application.Some? ==> ApplicationRaised(t, u, ApplicationKey(round, application.value), ToUnits(usd)))
  {
    DonationLands(t, id, round, application, donor, usd);
    var u := ApplyAll(t, DonationChanges(id, round, application, donor, usd)).value;
    assert DonorsIn(u.donations, OfRound(round)) == set d | d in u.donations && d.round == round :: d.donor;
    if application.Some? {
      var k := ApplicationKey(round, application.value);
      assert DonorsIn(u.donations, OfApplication(k))
          == set d | d in u.donations && d.round == k.round && d.application == Some(k.id) :: d.donor;
    }
  }

  lemma {:induction false} DonationLeavesRoles(t: Tables, changes: seq<Change>)
    requires (forall c :: c in changes ==> Counts(c)) && ApplyAll(t, changes).Ok?
    ensures SameRoleTables(t, ApplyAll(t, changes).value)
    decreases |changes|
  {
    if changes != [] {
      assert changes[0] in changes;
      DonationLeavesRoles(Apply(t, changes[0]).value, changes[1..]);
    }
  }

  /** An allocation that commits is recorded for its own donor, with an application of its anchor in a
      round of its strategy; exactly that round and that application have their statistics raised. */
  lemma AllocatedEffect(t: Tables, e: Event, q: Quote) returns (round: nat, k: ApplicationKey)
    requires e.payload.Allocated? && Process(t, e, q).Ok?
    ensures IsRoundOf(t, e, round) && IsApplicationOf(t, round, e.payload.anchor, k)
    ensures var u := Process(t, e, q).value;
            && Recorded(t, u, DonationRow(DonationId(e.pos), round, Some(k.id), e.payload.donor, ToUnits(q.usd)))
            && RoundRaised(t, u, round, ToUnits(q.usd))
            && ApplicationRaised(t, u, k, ToUnits(q.usd))
            && SameRoleTables(t, u)
  {
    round := FindRound(t, e.srcAddress).value;
    k := FindApplication(t, round, e.payload.anchor).value;
    var id, donor := DonationId(e.pos), e.payload.donor;
    assert k == ApplicationKey(round, k.id);
    assert Handle(t, e, q).value == DonationChanges(id, round, Some(k.id), donor, q.usd);
    DonationTables(t, id, round, Some(k.id), donor, q.usd);
    DonationLeavesRoles(t, DonationChanges(id, round, Some(k.id), donor, q.usd));
  }

  /** A direct allocation likewise, with no application. */
  lemma DirectAllocatedEffect(t: Tables, e: Event, q: Quote) returns (round: nat)
    requires e.payload.DirectAllocated? && Process(t, e, q).Ok?
    ensures IsRoundOf(t, e, round)
    ensures var u := Process(t, e, q).value;
            && Recorded(t, u, DonationRow(DonationId(e.pos), round, None, e.payload.donor, ToUnits(q.usd)))
            && RoundRaised(t, u, round, ToUnits(q.usd))
            && u.applications == t.applications && SameRoleTables(t, u)
  {
    round := FindRound(t, e.srcAddress).value;
    var id, donor := DonationId(e.pos), e.payload.donor;
    assert Handle(t, e, q).value == DonationChanges(id, round, None, donor, q.usd);
    DonationTables(t, id, round, None, donor, q.usd);
    DonationLeavesRoles(t, DonationChanges(id, round, None, donor, q.usd));
  }

  /** A column of eighteen digits, five of them decimals. */
  predicate Fits(units: nat) {
    units < 1_000_000_000_000_000_000
  }

  /** Which donations commit: where the strategy has one round, and the round one application of that
      anchor, exactly those whose amount and totals fit their columns. */
  lemma AllocatedCommitsIff(t: Tables, e: Event, q: Quote, round: nat, k: ApplicationKey)
    requires e.payload.Allocated?
    requires IsRoundOf(t, e, round) && forall r :: IsRoundOf(t, e, r) ==> r == round
    requires IsApplicationOf(t, round, e.payload.anchor, k)
    requires forall a :: IsApplicationOf(t, round, e.payload.anchor, a) ==> a == k
    ensures Process(t, e, q).Ok? <==>
              var units := ToUnits(q.usd);
              Fits(units) && Fits(t.rounds[round].stats.usd + units) && Fits(t.applications[k].stats.usd + units)
  {
    assert FindRound(t, e.srcAddress) == Some(round) by {
      assert FindRound(t, e.srcAddress).Some? ==> IsRoundOf(t, e, FindRound(t, e.srcAddress).value);
    }
    assert FindApplication(t, round, e.payload.anchor) == Some(k) by {
      assert FindApplication(t, round, e.payload.anchor).Some? ==>
               IsApplicationOf(t, round, e.payload.anchor, FindApplication(t, round, e.payload.anchor).value);
    }
    var donor := e.payload.donor;
    ApplyThree(t, InsertDonation(DonationId(e.pos), round, Some(k.id), donor, q.usd),
               IncrementRoundStats(round, q.usd), IncrementApplicationStats(k, q.usd));
    RunningTotalIsExact(t.rounds[round].stats.usd, q.usd);
    RunningTotalIsExact(t.applications[k].stats.usd, q.usd);
  }

  lemma DirectAllocatedCommitsIff(t: Tables, e: Event, q: Quote, round: nat)
    requires e.payload.DirectAllocated?
    requires IsRoundOf(t, e, round) && forall r :: IsRoundOf(t, e, r) ==> r == round
    ensures Process(t, e, q).Ok? <==> Fits(ToUnits(q.usd)) && Fits(t.rounds[round].stats.usd + ToUnits(q.usd))
  {
    assert FindRound(t, e.srcAddress) == Some(round) by {
      assert FindRound(t, e.srcAddress).Some? ==> IsRoundOf(t, e, FindRound(t, e.srcAddress).value);
    }
    ApplyTwo(t, InsertDonation(DonationId(e.pos), round, None, e.payload.donor, q.usd),
             IncrementRoundStats(round, q.usd));
    RunningTotalIsExact(t.rounds[round].stats.usd, q.usd);
  }

  // ---------------------------------------------------------------- pools and roles

  /** A pool creation that commits stores the round with the strategy the event names and no statistics,
      and turns the pending rows of its two roles into round roles with the blocks of their grants. */
  lemma PoolCreatedEffect(t: Tables, e: Event, q: Quote)
    requires e.payload.PoolCreated? && Process(t, e, q).Ok?
    requires forall id :: id in t.pending ==> id < t.nextPending
    ensures var u, round := Process(t, e, q).value, e.payload.roundId;
            && round !in t.rounds
            && u.rounds == t.rounds[round := RoundRow(e.payload.strategy, Stats(0, 0, 0))]
            && u.applications == t.applications && u.donations == t.donations && u.nextPending == t.nextPending
            && (forall id :: id in u.pending <==>
                  id in t.pending && t.pending[id].role != AdminOf(round) && t.pending[id].role != ManagerOf(round))
            && (forall id :: id in u.pending ==> u.pending[id] == t.pending[id])
            && (forall key :: key in u.roundRoles <==>
                  key in t.roundRoles || (key.round == round && HasPending(t, RoundRole(round, key.name), key.account)))
            && (forall key :: key in t.roundRoles ==> u.roundRoles[key] == t.roundRoles[key])
            && (forall key :: key in u.roundRoles && key !in t.roundRoles ==>
                  exists id :: id in t.pending && t.pending[id].role == RoundRole(round, key.name)
                            && t.pending[id].account == key.account && u.roundRoles[key] == t.pending[id].block)
  {
    var round, strategy := e.payload.roundId, e.payload.strategy;
    var effect := PoolCreationEffect(t, round, strategy);
    PoolCreationRows(t, round, strategy);
  }

  /** The rows of the rounds and of the round roles after a pool creation. */
  lemma PoolCreationRows(t: Tables, round: nat, strategy: Address)
    requires ApplyAll(t, [InsertRound(round, strategy)] + PendingRoleChanges(t, round)).Ok?
    ensures var u := ApplyAll(t, [InsertRound(round, strategy)] + PendingRoleChanges(t, round)).value;
            && u.rounds == t.rounds[round := RoundRow(strategy, Stats(0, 0, 0))]
            && u.applications == t.applications && u.donations == t.donations
            && RolesFrom(t, t, u, round)
  {
    var admins := PendingIds(t, AdminOf(round), t.nextPending);
    var managers := PendingIds(t, ManagerOf(round), t.nextPending);
    PoolCreationSteps(t, round, strategy, admins, managers);
    var t1 := Apply(t, InsertRound(round, strategy)).value;
    var t2 := ApplyAll(t1, RoleInserts(t, round, Admin, admins)).value;
    var t3 := ApplyAll(t2, RoleInserts(t, round, Manager, managers)).value;
    RoleInsertsRows(t, t1, round, Admin, admins);
    RoleInsertsRows(t, t2, round, Manager, managers);
    CleanUpRows(t, t1, t2, t3, round, admins, managers);
  }

  lemma CleanUpRows(t: Tables, t1: Tables, t2: Tables, t3: Tables, round: nat, admins: seq<nat>, managers: seq<nat>)
    requires t2 == t1.(roundRoles := t2.roundRoles) && t3 == t2.(roundRoles := t3.roundRoles)
    requires t1.roundRoles == t.roundRoles
    requires RolesFrom(t, t1, t2, round) && RolesFrom(t, t2, t3, round)
    ensures var u := ApplyAll(t3, CleanUp(admins, managers));
            && u.Ok? && u.value == t1.(roundRoles := u.value.roundRoles, pending := u.value.pending)
            && RolesFrom(t, t, u.value, round)
  {
    CleanUpEffect(t3, admins, managers);
    RolesFromTwice(t, t1, t2, t3, round);
    SameRolesFrom(t, t1, t3, t, ApplyAll(t3, CleanUp(admins, managers)).value, round);
  }

  lemma SameRolesFrom(source: Tables, t: Tables, u: Tables, t2: Tables, u2: Tables, round: nat)
    requires RolesFrom(source, t, u, round) && t2.roundRoles == t.roundRoles && u2.roundRoles == u.roundRoles
    ensures RolesFrom(source, t2, u2, round)
  {
    forall key | key in u2.roundRoles && key !in t2.roundRoles ensures FromPending(source, u2, round, key) {
      assert FromPending(source, u, round, key);
    }
  }

  ghost predicate Ascending(ids: seq<nat>) {
    forall i, j :: 0 <= i < j < |ids| ==> ids[i] < ids[j]
  }

  lemma {:induction false} PendingIdsAscend(t: Tables, role: RoleHash, n: nat)
    ensures Ascending(PendingIds(t, role, n))
  {
    if n > 0 {
      PendingIdsAscend(t, role, n - 1);
      var front, ids := PendingIds(t, role, n - 1), PendingIds(t, role, n);
      forall i, j | 0 <= i < j < |ids| ensures ids[i] < ids[j] {
        assert front[i] in front && ids[i] == front[i];
        if j < |front| {
          assert ids[j] == front[j];
        } else {
          assert ids[j] == n - 1;
        }
      }
    }
  }

  /** No account is pending twice for the role. */
  ghost predicate PendingOnce(t: Tables, role: RoleHash) {
    forall a, b :: IsPending(t, role, a) && IsPending(t, role, b) && a < b ==>
      t.pending[a].account != t.pending[b].account
  }

  predicate IsPending(t: Tables, role: RoleHash, id: nat) {
    id in t.pending && t.pending[id].role == role
  }

  lemma DistinctIsOnce(t: Tables, role: RoleHash)
    requires forall id :: id in t.pending ==> id < t.nextPending
    ensures Distinct(t, PendingIds(t, role, t.nextPending)) <==> PendingOnce(t, role)
  {
    var ids := PendingIds(t, role, t.nextPending);
    PendingIdsAscend(t, role, t.nextPending);
    assert forall i :: 0 <= i < |ids| ==> ids[i] in ids;
    assert forall id :: id in ids <==> IsPending(t, role, id);
    if Distinct(t, ids) {
      forall a, b | IsPending(t, role, a) && IsPending(t, role, b) && a < b
        ensures t.pending[a].account != t.pending[b].account
      {
        ListedApart(ids, a, b);
      }
    }
  }

  lemma ListedApart(ids: seq<nat>, a: nat, b: nat)
    requires Ascending(ids) && a in ids && b in ids && a < b
    ensures exists i, j :: 0 <= i < j < |ids| && ids[i] == a && ids[j] == b
  {
    var i :| 0 <= i < |ids| && ids[i] == a;
    var j :| 0 <= j < |ids| && ids[j] == b;
    assert i < j;
  }

  /** Which pool creations commit: exactly those of a new round for whose roles no account is pending
      twice. */
  lemma PoolCreatedCommitsIff(t: Tables, e: Event, q: Quote)
    requires e.payload.PoolCreated?
    requires forall id :: id in t.pending ==> id < t.nextPending
    requires forall key :: key in t.roundRoles ==> key.round in t.rounds
    ensures var round := e.payload.roundId;
            Process(t, e, q).Ok? <==>
              round !in t.rounds && PendingOnce(t, AdminOf(round)) && PendingOnce(t, ManagerOf(round))
  {
    var round := e.payload.roundId;
    PoolCreationCommitsIff(t, round, e.payload.strategy);
    DistinctIsOnce(t, AdminOf(round));
    DistinctIsOnce(t, ManagerOf(round));
  }

  /** Roles are only added, each with the block of a pending row of `source` for that role and account. */
  ghost predicate RolesFrom(source: Tables, t: Tables, u: Tables, round: nat) {
    && (forall key :: key in t.roundRoles ==> key in u.roundRoles && u.roundRoles[key] == t.roundRoles[key])
    && (forall key :: key in u.roundRoles && key !in t.roundRoles ==> FromPending(source, u, round, key))
  }

  ghost predicate FromPending(source: Tables, u: Tables, round: nat, key: RoleKey)
    requires key in u.roundRoles
  {
    exists id :: id in source.pending && source.pending[id].role == RoundRole(round, key.name)
              && source.pending[id].account == key.account && u.roundRoles[key] == source.pending[id].block
  }

  lemma RolesFromTwice(source: Tables, t: Tables, u: Tables, v: Tables, round: nat)
    requires RolesFrom(source, t, u, round) && RolesFrom(source, u, v, round)
    ensures RolesFrom(source, t, v, round)
  {
    forall key | key in v.roundRoles && key !in t.roundRoles ensures FromPending(source, v, round, key) {
      if key in u.roundRoles {
        assert FromPending(source, u, round, key);
      }
    }
  }

  lemma {:induction false} RoleInsertsRows(source: Tables, t: Tables, round: nat, name: RoleName, ids: seq<nat>)
    requires forall id :: id in ids ==> id in source.pending && source.pending[id].role == RoundRole(round, name)
    requires ApplyAll(t, RoleInserts(source, round, name, ids)).Ok?
    ensures var u := ApplyAll(t, RoleInserts(source, round, name, ids)).value;
            && u == t.(roundRoles := u.roundRoles)
            && RolesFrom(source, t, u, round)
    decreases |ids|
  {
    if ids != [] {
      var change := RoleInserts(source, round, name, ids)[0];
      assert ids[0] in ids;
      var t1 := Apply(t, change).value;
      RoleInsertsRows(source, t1, round, name, ids[1..]);
      var u := ApplyAll(t1, RoleInserts(source, round, name, ids[1..])).value;
      assert RolesFrom(source, t, t1, round) by {
        assert forall key :: key in t1.roundRoles && key !in t.roundRoles ==> FromPending(source, t1, round, key);
      }
      RolesFromTwice(source, t, t1, u, round);
    }
  }

  /** The key of the round role that a role and an account stand for, if the round exists. */
  predicate IsLive(t: Tables, role: RoleHash, account: Address, key: RoleKey) {
    key.account == account && key.round in t.rounds && role == RoundRole(key.round, key.name)
  }

  function WithPending(t: Tables, row: PendingRow): Tables {
    t.(pending := t.pending[t.nextPending := row], nextPending := t.nextPending + 1)
  }

  /** A grant of a role of an existing round is stored with its block, or rejected as a duplicate; any
      other grant is stored as pending. Nothing else changes. */
  lemma RoleGrantedEffect(t: Tables, e: Event, q: Quote)
    requires e.payload.RoleGranted?
    ensures var role, account := e.payload.role, e.payload.account;
            && (forall key :: IsLive(t, role, account, key) ==>
                  Process(t, e, q) == if key in t.roundRoles then Err(DuplicateKey)
                                      else Ok(t.(roundRoles := t.roundRoles[key := e.pos.block])))
            && ((forall key :: !IsLive(t, role, account, key)) ==>
                  Process(t, e, q) == Ok(WithPending(t, PendingRow(role, account, e.pos.block))))
  {
    LiveKey(t, e.payload.role, e.payload.account);
    var c := Handle(t, e, q).value[0];
    assert Handle(t, e, q).value == [c];
    ApplyOne(t, c);
  }

  /** A revocation deletes the role of an existing round, and otherwise does nothing. */
  lemma RoleRevokedEffect(t: Tables, e: Event, q: Quote)
    requires e.payload.RoleRevoked?
    ensures var role, account := e.payload.role, e.payload.account;
            && (forall key :: IsLive(t, role, account, key) ==>
                  Process(t, e, q) == Ok(t.(roundRoles := t.roundRoles - {key})))
            && ((forall key :: !IsLive(t, role, account, key)) ==> Process(t, e, q) == Ok(t))
  {
    LiveKey(t, e.payload.role, e.payload.account);
    if FindRole(t, e.payload.role, e.payload.account).Some? {
      ApplyOne(t, DeleteRoundRoles(FindRole(t, e.payload.role, e.payload.account).value));
    }
  }

  lemma LiveKey(t: Tables, role: RoleHash, account: Address)
    ensures forall key :: IsLive(t, role, account, key) <==> FindRole(t, role, account) == Some(key)
    ensures FindRole(t, role, account).None? ==> forall key :: !IsLive(t, role, account, key)
    ensures FindRole(t, role, account).Some? ==> IsLive(t, role, account, FindRole(t, role, account).value)
  {
  }

  // ---------------------------------------------------------------- applications

  /** A registration that commits adds exactly one application, to a round of its strategy: with the
      event's anchor, pending since the event's block, one snapshot of that, and no statistics. */
  lemma RegisteredEffect(t: Tables, e: Event, q: Quote) returns (round: nat)
    requires e.payload.Registered? && Process(t, e, q).Ok?
    ensures var u, k, block := Process(t, e, q).value, ApplicationKey(round, e.payload.id), e.pos.block;
            && IsRoundOf(t, e, round) && k !in t.applications
            && u == t.(applications := t.applications[k :=
                         ApplicationRow(e.payload.anchor, Pending, block, [Snapshot(Pending, block)], Stats(0, 0, 0))])
  {
    round := FindRound(t, e.srcAddress).value;
    var c := Handle(t, e, q).value[0];
    assert Handle(t, e, q).value == [c];
    ApplyOne(t, c);
  }

  lemma RegisteredCommitsIff(t: Tables, e: Event, q: Quote, round: nat)
    requires e.payload.Registered?
    requires IsRoundOf(t, e, round) && forall r :: IsRoundOf(t, e, r) ==> r == round
    ensures Process(t, e, q).Ok? <==> ApplicationKey(round, e.payload.id) !in t.applications
  {
    assert FindRound(t, e.srcAddress) == Some(round) by {
      assert FindRound(t, e.srcAddress).Some? ==> IsRoundOf(t, e, FindRound(t, e.srcAddress).value);
    }
    var c := Handle(t, e, q).value[0];
    assert Handle(t, e, q).value == [c];
    ApplyOne(t, c);
  }

  /** An updated registration with a status code sets that status on an application of its anchor in a
      round of its strategy, and nothing else. */
  lemma UpdatedRegistrationEffect(t: Tables, e: Event, q: Quote) returns (round: nat, k: ApplicationKey)
    requires e.payload.UpdatedRegistration? && Process(t, e, q).Ok? && 1 <= e.payload.code <= 5
    ensures IsRoundOf(t, e, round) && IsApplicationOf(t, round, e.payload.anchor, k)
    ensures var u := Process(t, e, q).value;
            && k in u.applications
            && u == t.(applications := t.applications[k := u.applications[k]])
            && StatusSet(t.applications[k], u.applications[k], e.payload.code, e.pos.block)
  {
    round := FindRound(t, e.srcAddress).value;
    k := FindApplication(t, round, e.payload.anchor).value;
    var c := Handle(t, e, q).value[0];
    assert Handle(t, e, q).value == [c];
    ApplyOne(t, c);
  }

  /** With any other code it does nothing, whatever the tables hold. */
  lemma OtherCodeEffect(t: Tables, e: Event, q: Quote)
    requires e.payload.UpdatedRegistration? && !(1 <= e.payload.code <= 5)
    ensures Process(t, e, q) == Ok(t)
  {
  }

  /** It commits whenever its application can be found. */
  lemma UpdatedRegistrationCommits(t: Tables, e: Event, q: Quote, round: nat, k: ApplicationKey)
    requires e.payload.UpdatedRegistration?
    requires IsRoundOf(t, e, round) && forall r :: IsRoundOf(t, e, r) ==> r == round
    requires IsApplicationOf(t, round, e.payload.anchor, k)
    ensures Process(t, e, q).Ok?
  {
    assert FindRound(t, e.srcAddress) == Some(round) by {
      assert FindRound(t, e.srcAddress).Some? ==> IsRoundOf(t, e, FindRound(t, e.srcAddress).value);
    }
    if 1 <= e.payload.code <= 5 {
      var c := Handle(t, e, q).value[0];
      assert Handle(t, e, q).value == [c];
      ApplyOne(t, c);
    }
  }

  // ---------------------------------------------------------------- errors and the rest

  /** Of the events of a strategy none is handled without a round of it, except an updated registration
      whose code is no status. */
  lemma NoRoundNoEffect(t: Tables, e: Event, q: Quote)
    requires forall r :: !IsRoundOf(t, e, r)
    requires e.payload.Allocated? || e.payload.DirectAllocated? || e.payload.Registered? || e.payload.StatusRow?
          || e.payload.TimestampsUpdated? || (e.payload.UpdatedRegistration? && 1 <= e.payload.code <= 5)
    ensures Process(t, e, q) == Err(NotFound)
  {
    assert FindRound(t, e.srcAddress).Some? ==> IsRoundOf(t, e, FindRound(t, e.srcAddress).value);
  }

  /** Nor an allocation or an updated registration without an application of its anchor. */
  lemma NoApplicationNoEffect(t: Tables, e: Event, q: Quote)
    requires e.payload.Allocated? || (e.payload.UpdatedRegistration? && 1 <= e.payload.code <= 5)
    requires forall r, k :: IsRoundOf(t, e, r) ==> !IsApplicationOf(t, r, e.payload.anchor, k)
    ensures Process(t, e, q) == Err(NotFound)
  {
    var found := FindRound(t, e.srcAddress);
    if found.Some? {
      assert IsRoundOf(t, e, found.value);
      var app := FindApplication(t, found.value, e.payload.anchor);
      assert app.Some? ==> IsApplicationOf(t, found.value, e.payload.anchor, app.value);
    }
  }

  /** Timestamps, as far as these tables go, and events of other kinds change nothing. */
  lemma OthersChangeNothing(t: Tables, e: Event, q: Quote)
    requires (e.payload.TimestampsUpdated? || e.payload.Unmodelled?) && Process(t, e, q).Ok?
    ensures Process(t, e, q).value == t
  {
  }
}
