/** Pending and real round roles against the history of grants, revocations and pool creations. */
module RoundRoles {
  import opened Domain
  import opened EventLog
  import opened Tables
  import opened Handlers
  import DonationStats

  // ---------------------------------------------------------------- what the history says

  /** One of the first `n` events of the history created the round. */
  ghost predicate Created(h: seq<Event>, n: nat, round: nat) {
    exists k :: 0 <= k < n && k < |h| && h[k].payload.PoolCreated? && h[k].payload.roundId == round
  }

  /** The role belongs to a round that one of the first `n` events created. */
  ghost predicate Live(h: seq<Event>, n: nat, role: RoleHash) {
    !role.ProfileRole? && Created(h, n, role.roundId)
  }

  predicate IsGrant(e: Event, role: RoleHash, account: Address) {
    e.payload == RoleGranted(role, account)
  }

  predicate IsRevoke(e: Event, role: RoleHash, account: Address) {
    e.payload == RoleRevoked(role, account)
  }

  ghost predicate Granted(h: seq<Event>, role: RoleHash, account: Address) {
    exists i :: 0 <= i < |h| && IsGrant(h[i], role, account)
  }

  /** Granted, and not revoked since at a time when the round existed. */
  ghost predicate Held(h: seq<Event>, role: RoleHash, account: Address) {
    exists i :: 0 <= i < |h| && IsGrant(h[i], role, account) && Unrevoked(h, i, role, account)
  }

  ghost predicate Unrevoked(h: seq<Event>, i: int, role: RoleHash, account: Address) {
    forall j: nat :: i < j < |h| && IsRevoke(h[j], role, account) ==> !Live(h, j, role)
  }

  // ---------------------------------------------------------------- what the tables say

  ghost predicate HasPending(t: Tables, role: RoleHash, account: Address) {
    exists id :: id in t.pending && t.pending[id].role == role && t.pending[id].account == account
  }

  /** The role tables say exactly what the history of committed events says. */
  ghost predicate RolesMatch(t: Tables, h: seq<Event>) {
    && (forall r: nat :: r in t.rounds <==> Created(h, |h|, r))
    && (forall id :: id in t.pending ==> id < t.nextPending)
    && (forall role, account :: RowsMatch(t, h, role, account))
    && (forall key :: KeyMatches(t, h, key))
  }

  /** Pending rows: granted, and no round with the role created yet. */
  ghost predicate RowsMatch(t: Tables, h: seq<Event>, role: RoleHash, account: Address) {
    HasPending(t, role, account) <==> Granted(h, role, account) && !Live(h, |h|, role)
  }

  /** Round roles: the round created, the role granted at any time, and not revoked since its creation. */
  ghost predicate KeyMatches(t: Tables, h: seq<Event>, key: RoleKey) {
    key in t.roundRoles <==> Created(h, |h|, key.round) && Held(h, RoundRole(key.round, key.name), key.account)
  }

  // ---------------------------------------------------------------- histories grow

  lemma CreatedSnoc(h: seq<Event>, e: Event, round: nat)
    ensures Created(h + [e], |h| + 1, round) <==>
              Created(h, |h|, round) || (e.payload.PoolCreated? && e.payload.roundId == round)
    ensures forall n: nat :: n <= |h| ==> (Created(h + [e], n, round) <==> Created(h, n, round))
  {
    var g := h + [e];
    assert g[|h|] == e && forall k :: 0 <= k < |h| ==> g[k] == h[k];
  }

  lemma GrantedSnoc(h: seq<Event>, e: Event, role: RoleHash, account: Address)
    ensures Granted(h + [e], role, account) <==> Granted(h, role, account) || IsGrant(e, role, account)
  {
    var g := h + [e];
    assert g[|h|] == e && forall k :: 0 <= k < |h| ==> g[k] == h[k];
  }

  lemma LiveSnoc(h: seq<Event>, e: Event, role: RoleHash)
    ensures forall n: nat :: n <= |h| ==> (Live(h + [e], n, role) <==> Live(h, n, role))
  {
    if !role.ProfileRole? {
      CreatedSnoc(h, e, role.roundId);
    }
  }

  lemma HeldSnoc(h: seq<Event>, e: Event, role: RoleHash, account: Address)
    ensures Held(h + [e], role, account) <==>
              || IsGrant(e, role, account)
              || (Held(h, role, account) && !(IsRevoke(e, role, account) && Live(h, |h|, role)))
  {
    var g := h + [e];
    assert g[|h|] == e && forall k :: 0 <= k < |h| ==> g[k] == h[k];
    LiveSnoc(h, e, role);
    if IsGrant(e, role, account) {
      assert Unrevoked(g, |h|, role, account);
    } else if Held(h, role, account) && !(IsRevoke(e, role, account) && Live(h, |h|, role)) {
      var i :| 0 <= i < |h| && IsGrant(h[i], role, account) && Unrevoked(h, i, role, account);
      assert Unrevoked(g, i, role, account);
    }
    if Held(g, role, account) && !IsGrant(e, role, account) {
      HeldBack(h, e, role, account);
    }
  }

  lemma HeldBack(h: seq<Event>, e: Event, role: RoleHash, account: Address)
    requires Held(h + [e], role, account) && !IsGrant(e, role, account)
    ensures Held(h, role, account) && !(IsRevoke(e, role, account) && Live(h, |h|, role))
  {
    var g := h + [e];
    assert g[|h|] == e && forall k :: 0 <= k < |h| ==> g[k] == h[k];
    LiveSnoc(h, e, role);
    var i :| 0 <= i < |g| && IsGrant(g[i], role, account) && Unrevoked(g, i, role, account);
    assert Unrevoked(h, i, role, account);
  }

  /** Before the round exists, revocations do not count. */
  lemma HeldBeforeCreation(h: seq<Event>, role: RoleHash, account: Address)
    requires !Live(h, |h|, role)
    ensures Held(h, role, account) <==> Granted(h, role, account)
  {
    if Granted(h, role, account) {
      var i :| 0 <= i < |h| && IsGrant(h[i], role, account);
      assert Unrevoked(h, i, role, account);
    }
  }

  // ---------------------------------------------------------------- what pool creation does

  lemma {:induction false} RoleInsertsEffect(t0: Tables, t: Tables, round: nat, name: RoleName, ids: seq<nat>)
    requires forall id :: id in ids ==> id in t0.pending
    requires ApplyAll(t, RoleInserts(t0, round, name, ids)).Ok?
    ensures var u := ApplyAll(t, RoleInserts(t0, round, name, ids)).value;
            && u == t.(roundRoles := u.roundRoles)
            && forall key :: key in u.roundRoles <==>
                 key in t.roundRoles || exists id :: id in ids && key == RoleKey(round, name, t0.pending[id].account)
    decreases |ids|
  {
    if ids != [] {
      var change := RoleInserts(t0, round, name, ids)[0];
      RoleInsertsEffect(t0, Apply(t, change).value, round, name, ids[1..]);
      assert forall id :: id in ids <==> id == ids[0] || id in ids[1..];
    }
  }

  /** No two ids of the list name the same account. */
  ghost predicate Distinct(t: Tables, ids: seq<nat>)
    requires forall id :: id in ids ==> id in t.pending
  {
    forall i, j :: 0 <= i < j < |ids| ==> t.pending[ids[i]].account != t.pending[ids[j]].account
  }

  lemma {:induction false} RoleInsertsOkIff(t0: Tables, t: Tables, round: nat, name: RoleName, ids: seq<nat>)
    requires forall id :: id in ids ==> id in t0.pending
    requires round in t.rounds
    ensures ApplyAll(t, RoleInserts(t0, round, name, ids)).Ok? <==>
              Distinct(t0, ids) && forall id :: id in ids ==>
                  RoleKey(round, name, t0.pending[id].account) !in t.roundRoles
    decreases |ids|
  {
    if ids != [] {
      var change, rest := RoleInserts(t0, round, name, ids)[0], ids[1..];
      var key := RoleKey(round, name, t0.pending[ids[0]].account);
      assert forall id :: id in ids <==> id == ids[0] || id in rest;
      if key !in t.roundRoles {
        RoleInsertsOkIff(t0, Apply(t, change).value, round, name, rest);
        assert Distinct(t0, ids) <==>
            Distinct(t0, rest) && forall id :: id in rest ==> t0.pending[id].account != t0.pending[ids[0]].account by {
          DistinctCons(t0, ids);
        }
      }
    }
  }

  lemma DistinctCons(t: Tables, ids: seq<nat>)
    requires ids != [] && forall id :: id in ids ==> id in t.pending
    ensures (forall id :: id in ids[1..] ==> id in t.pending)
    ensures Distinct(t, ids) <==>
              Distinct(t, ids[1..]) && forall id :: id in ids[1..] ==>
                  t.pending[id].account != t.pending[ids[0]].account
  {
    var rest := ids[1..];
    assert forall i :: 0 <= i < |rest| ==> rest[i] == ids[i + 1];
    if Distinct(t, rest) && forall id :: id in rest ==> t.pending[id].account != t.pending[ids[0]].account {
      forall i, j | 0 <= i < j < |ids| ensures t.pending[ids[i]].account != t.pending[ids[j]].account {
        assert ids[j] == rest[j - 1];
        assert i > 0 ==> ids[i] == rest[i - 1];
      }
    }
  }

  function CleanUp(admins: seq<nat>, managers: seq<nat>): seq<Change> {
    var ids := (set id | id in admins) + (set id | id in managers);
    if ids == {} then [] else [DeletePendingRoles(ids)]
  }

  /** The transaction of `PoolCreated`, step by step: the round, the admins, the managers, the clean-up. */
  lemma PoolCreationSteps(t: Tables, round: nat, strategy: Address, admins: seq<nat>, managers: seq<nat>)
    requires admins == PendingIds(t, AdminOf(round), t.nextPending)
    requires managers == PendingIds(t, ManagerOf(round), t.nextPending)
    ensures ApplyAll(t, [InsertRound(round, strategy)] + PendingRoleChanges(t, round))
         == Chain(Chain(Chain(Apply(t, InsertRound(round, strategy)),
                              RoleInserts(t, round, Admin, admins)),
                        RoleInserts(t, round, Manager, managers)),
                  CleanUp(admins, managers))
  {
    var start := [InsertRound(round, strategy)];
    var a, b, c :=
        RoleInserts(t, round, Admin, admins), RoleInserts(t, round, Manager, managers), CleanUp(admins, managers);
    assert PendingRoleChanges(t, round) == a + b + c;
    ApplyAllConcat(t, start, a + b + c);
    ApplyOne(t, start[0]);
    ChainConcat(Apply(t, start[0]), a + b, c);
    ChainConcat(Apply(t, start[0]), a, b);
  }

  lemma CleanUpEffect(t: Tables, admins: seq<nat>, managers: seq<nat>)
    ensures var u := ApplyAll(t, CleanUp(admins, managers));
            && u.Ok? && u.value == t.(pending := u.value.pending)
            && (forall id :: id in u.value.pending <==> id in t.pending && id !in admins && id !in managers)
            && (forall id :: id in u.value.pending ==> u.value.pending[id] == t.pending[id])
  {
    var ids := (set id | id in admins) + (set id | id in managers);
    assert forall id :: id in ids <==> id in admins || id in managers;
    if ids != {} {
      ApplyOne(t, DeletePendingRoles(ids));
    }
  }

  lemma PoolCreationTables(t: Tables, round: nat, strategy: Address)
      returns (admins: seq<nat>, managers: seq<nat>, u: Tables)
    requires ApplyAll(t, [InsertRound(round, strategy)] + PendingRoleChanges(t, round)).Ok?
    ensures admins == PendingIds(t, AdminOf(round), t.nextPending)
    ensures managers == PendingIds(t, ManagerOf(round), t.nextPending)
    ensures ApplyAll(t, [InsertRound(round, strategy)] + PendingRoleChanges(t, round)) == Ok(u)
    ensures round !in t.rounds && u.rounds.Keys == t.rounds.Keys + {round} && u.nextPending == t.nextPending
    ensures forall id :: id in u.pending <==> id in t.pending && id !in admins && id !in managers
    ensures forall id :: id in u.pending ==> u.pending[id] == t.pending[id]
    ensures forall key :: key in u.roundRoles <==>
              || key in t.roundRoles
              || (exists id :: id in admins && key == RoleKey(round, Admin, t.pending[id].account))
              || (exists id :: id in managers && key == RoleKey(round, Manager, t.pending[id].account))
  {
    admins, managers := PendingIds(t, AdminOf(round), t.nextPending), PendingIds(t, ManagerOf(round), t.nextPending);
    PoolCreationSteps(t, round, strategy, admins, managers);
    var t1 := Apply(t, InsertRound(round, strategy)).value;
    RoleInsertsEffect(t, t1, round, Admin, admins);
    var t2 := ApplyAll(t1, RoleInserts(t, round, Admin, admins)).value;
    RoleInsertsEffect(t, t2, round, Manager, managers);
    var t3 := ApplyAll(t2, RoleInserts(t, round, Manager, managers)).value;
    CleanUpEffect(t3, admins, managers);
    u := ApplyAll(t3, CleanUp(admins, managers)).value;
  }

  lemma ListedIsPending(t: Tables, round: nat, key: RoleKey)
    requires forall id :: id in t.pending ==> id < t.nextPending
    ensures key.round == round && HasPending(t, RoundRole(round, key.name), key.account) <==>
              || (exists id :: id in PendingIds(t, AdminOf(round), t.nextPending)
                    && key == RoleKey(round, Admin, t.pending[id].account))
              || (exists id :: id in PendingIds(t, ManagerOf(round), t.nextPending)
                    && key == RoleKey(round, Manager, t.pending[id].account))
  {
    if key.round == round && HasPending(t, RoundRole(round, key.name), key.account) {
      var id :| id in t.pending
          && t.pending[id].role == RoundRole(round, key.name) && t.pending[id].account == key.account;
      assert id in PendingIds(t, RoundRole(round, key.name), t.nextPending);
    }
  }

  /** A pool creation that commits turns exactly the pending rows of its two roles into round roles. */
  lemma PoolCreationEffect(t: Tables, round: nat, strategy: Address) returns (u: Tables)
    requires forall id :: id in t.pending ==> id < t.nextPending
    requires ApplyAll(t, [InsertRound(round, strategy)] + PendingRoleChanges(t, round)).Ok?
    ensures ApplyAll(t, [InsertRound(round, strategy)] + PendingRoleChanges(t, round)) == Ok(u)
    ensures round !in t.rounds && u.rounds.Keys == t.rounds.Keys + {round} && u.nextPending == t.nextPending
    ensures forall id :: id in u.pending <==>
              id in t.pending && t.pending[id].role != AdminOf(round) && t.pending[id].role != ManagerOf(round)
    ensures forall id :: id in u.pending ==> u.pending[id] == t.pending[id]
    ensures forall key :: key in u.roundRoles <==>
              key in t.roundRoles || (key.round == round && HasPending(t, RoundRole(round, key.name), key.account))
  {
    var admins, managers;
    admins, managers, u := PoolCreationTables(t, round, strategy);
    forall key ensures key in u.roundRoles <==>
              key in t.roundRoles || (key.round == round && HasPending(t, RoundRole(round, key.name), key.account)) {
      ListedIsPending(t, round, key);
    }
  }

  /** Pool creation commits exactly when the round is new and no account is pending twice for one of its
      roles; granted, revoked and granted again before the pool exists, an account is. */
  lemma PoolCreationCommitsIff(t: Tables, round: nat, strategy: Address)
    requires forall key :: key in t.roundRoles ==> key.round in t.rounds
    ensures ApplyAll(t, [InsertRound(round, strategy)] + PendingRoleChanges(t, round)).Ok? <==>
              && round !in t.rounds
              && Distinct(t, PendingIds(t, AdminOf(round), t.nextPending))
              && Distinct(t, PendingIds(t, ManagerOf(round), t.nextPending))
  {
    var all := [InsertRound(round, strategy)] + PendingRoleChanges(t, round);
    assert all[0] == InsertRound(round, strategy);
    var admins, managers :=
        PendingIds(t, AdminOf(round), t.nextPending), PendingIds(t, ManagerOf(round), t.nextPending);
    PoolCreationSteps(t, round, strategy, admins, managers);
    if round !in t.rounds {
      var t1 := Apply(t, InsertRound(round, strategy)).value;
      RoleInsertsOkIff(t, t1, round, Admin, admins);
      if Distinct(t, admins) {
        RoleInsertsEffect(t, t1, round, Admin, admins);
        var t2 := ApplyAll(t1, RoleInserts(t, round, Admin, admins)).value;
        RoleInsertsOkIff(t, t2, round, Manager, managers);
        if Distinct(t, managers) {
          CleanUpEffect(ApplyAll(t2, RoleInserts(t, round, Manager, managers)).value, admins, managers);
        }
      }
    }
  }

  lemma {:induction false} RoleInsertsSnoc(t: Tables, round: nat, name: RoleName, ids: seq<nat>, id: nat)
    requires id in t.pending && forall i :: i in ids ==> i in t.pending
    ensures forall i :: i in ids + [id] ==> i in t.pending
    ensures RoleInserts(t, round, name, ids + [id])
         == RoleInserts(t, round, name, ids)
             + [InsertRoundRole(RoleKey(round, name, t.pending[id].account), t.pending[id].block)]
  {
    if ids == [] {
      assert [] + [id] == [id] && [id][1..] == [];
    } else {
      RoleInsertsSnoc(t, round, name, ids[1..], id);
      assert (ids + [id])[1..] == ids[1..] + [id];
    }
  }

  /** The handler itself: for the admin and then the manager role, a query for the pending rows and a loop
      that pushes an insertion for each; at the end one deletion of them all. */
  method HandlePendingRoles(t: Tables, round: nat) returns (changes: seq<Change>)
    ensures changes == PendingRoleChanges(t, round)
  {
    var admins := PendingIds(t, AdminOf(round), t.nextPending);
    var pushes := PushAll(t, round, Admin, admins);
    changes := pushes;
    var managers := PendingIds(t, ManagerOf(round), t.nextPending);
    pushes := PushAll(t, round, Manager, managers);
    changes := changes + pushes;
    var ids := (set id | id in admins) + (set id | id in managers);
    if ids != {} {
      changes := changes + [DeletePendingRoles(ids)];
    }
  }

  method PushAll(t: Tables, round: nat, name: RoleName, rows: seq<nat>) returns (pushes: seq<Change>)
    requires forall id :: id in rows ==> id in t.pending
    ensures pushes == RoleInserts(t, round, name, rows)
  {
    pushes := [];
    for k := 0 to |rows|
      invariant pushes == RoleInserts(t, round, name, rows[..k])
    {
      assert rows[k] in rows && forall i :: i in rows[..k] ==> i in rows;
      RoleInsertsSnoc(t, round, name, rows[..k], rows[k]);
      assert rows[..k + 1] == rows[..k] + [rows[k]];
      var row := t.pending[rows[k]];
      pushes := pushes + [InsertRoundRole(RoleKey(round, name, row.account), row.block)];
    }
    assert rows[..|rows|] == rows;
  }

  // ---------------------------------------------------------------- every other event

  predicate TouchesRoles(c: Change) {
    c.InsertRound? || c.InsertRoundRole? || c.DeleteRoundRoles? || c.InsertPendingRole? || c.DeletePendingRoles?
  }

  ghost predicate SameRoles(t: Tables, u: Tables) {
    && u.rounds.Keys == t.rounds.Keys && u.roundRoles == t.roundRoles
    && u.pending == t.pending && u.nextPending == t.nextPending
  }

  lemma OtherKeepsRoles(t: Tables, c: Change)
    requires !TouchesRoles(c) && Apply(t, c).Ok?
    ensures SameRoles(t, Apply(t, c).value)
  {
  }

  lemma {:induction false} OthersKeepRoles(t: Tables, changes: seq<Change>)
    requires (forall c :: c in changes ==> !TouchesRoles(c)) && ApplyAll(t, changes).Ok?
    ensures SameRoles(t, ApplyAll(t, changes).value)
    decreases |changes|
  {
    if changes != [] {
      OtherKeepsRoles(t, changes[0]);
      OthersKeepRoles(Apply(t, changes[0]).value, changes[1..]);
    }
  }

  lemma HandledTouchesNoRoles(t: Tables, e: Event, q: Quote)
    requires Handle(t, e, q).Ok? && !e.payload.PoolCreated? && !e.payload.RoleGranted? && !e.payload.RoleRevoked?
    ensures forall c :: c in Handle(t, e, q).value ==> !TouchesRoles(c)
  {
    if e.payload.StatusRow? {
      DonationStats.RowChangesTame(t, FindRound(t, e.srcAddress).value, e.payload.rowIndex, e.payload.fullRow,
          e.pos.block, ITEMS_PER_ROW);
    }
  }

  // ---------------------------------------------------------------- the theorem

  lemma PendingSnoc(t: Tables, u: Tables, row: PendingRow)
    requires forall id :: id in t.pending ==> id < t.nextPending
    requires u.pending == t.pending[t.nextPending := row]
    ensures forall role, account :: HasPending(u, role, account) <==>
              HasPending(t, role, account) || (row.role == role && row.account == account)
  {
    forall role, account ensures HasPending(u, role, account) <==>
        HasPending(t, role, account) || (row.role == role && row.account == account) {
      if HasPending(t, role, account) {
        var id :| id in t.pending && t.pending[id].role == role && t.pending[id].account == account;
        assert id in u.pending && u.pending[id] == t.pending[id];
      }
      if row.role == role && row.account == account {
        assert t.nextPending in u.pending && u.pending[t.nextPending] == row;
      }
    }
  }

  lemma HistorySnoc(h: seq<Event>, e: Event, role: RoleHash, account: Address)
    ensures Live(h + [e], |h| + 1, role) <==>
              Live(h, |h|, role) || (!role.ProfileRole? && e.payload.PoolCreated? && e.payload.roundId == role.roundId)
    ensures Granted(h + [e], role, account) <==> Granted(h, role, account) || IsGrant(e, role, account)
    ensures Held(h + [e], role, account) <==>
              || IsGrant(e, role, account)
              || (Held(h, role, account) && !(IsRevoke(e, role, account) && Live(h, |h|, role)))
    ensures !Live(h, |h|, role) ==> (Held(h, role, account) <==> Granted(h, role, account))
  {
    if !role.ProfileRole? {
      CreatedSnoc(h, e, role.roundId);
    }
    GrantedSnoc(h, e, role, account);
    HeldSnoc(h, e, role, account);
    if !Live(h, |h|, role) {
      HeldBeforeCreation(h, role, account);
    }
  }

  lemma RoundsSnoc(t: Tables, u: Tables, h: seq<Event>, e: Event)
    requires RolesMatch(t, h)
    requires u.rounds.Keys == if e.payload.PoolCreated? then t.rounds.Keys + {e.payload.roundId} else t.rounds.Keys
    ensures forall r: nat :: r in u.rounds <==> Created(h + [e], |h + [e]|, r)
  {
    forall r: nat ensures r in u.rounds <==> Created(h + [e], |h + [e]|, r) {
      CreatedSnoc(h, e, r);
    }
  }

  lemma PoolCreatedKeeps(t: Tables, h: seq<Event>, e: Event, q: Quote)
    requires RolesMatch(t, h) && Process(t, e, q).Ok? && e.payload.PoolCreated?
    ensures RolesMatch(Process(t, e, q).value, h + [e])
  {
    var round := e.payload.roundId;
    var u := PoolCreationEffect(t, round, e.payload.strategy);
    RoundsSnoc(t, u, h, e);
    forall role, account ensures RowsMatch(u, h + [e], role, account) {
      HistorySnoc(h, e, role, account);
      assert RowsMatch(t, h, role, account);
      if HasPending(t, role, account) && role != AdminOf(round) && role != ManagerOf(round) {
        var id :| id in t.pending && t.pending[id].role == role && t.pending[id].account == account;
        assert id in u.pending && u.pending[id] == t.pending[id];
      }
    }
    forall key: RoleKey ensures KeyMatches(u, h + [e], key) {
      HistorySnoc(h, e, RoundRole(key.round, key.name), key.account);
      assert KeyMatches(t, h, key) && RowsMatch(t, h, RoundRole(key.round, key.name), key.account);
    }
  }

  lemma RoleEventKeeps(t: Tables, h: seq<Event>, e: Event, q: Quote)
    requires RolesMatch(t, h) && Process(t, e, q).Ok? && (e.payload.RoleGranted? || e.payload.RoleRevoked?)
    ensures RolesMatch(Process(t, e, q).value, h + [e])
  {
    var u, changes := Process(t, e, q).value, Handle(t, e, q).value;
    if changes != [] {
      assert changes == [changes[0]];
      ApplyOne(t, changes[0]);
    }
    RoundsSnoc(t, u, h, e);
    if e.payload.RoleGranted? && FindRole(t, e.payload.role, e.payload.account).None? {
      PendingSnoc(t, u, PendingRow(e.payload.role, e.payload.account, e.pos.block));
    }
    forall role, account ensures RowsMatch(u, h + [e], role, account) {
      HistorySnoc(h, e, role, account);
      assert RowsMatch(t, h, role, account);
    }
    forall key: RoleKey ensures KeyMatches(u, h + [e], key) {
      HistorySnoc(h, e, RoundRole(key.round, key.name), key.account);
      assert KeyMatches(t, h, key);
    }
  }

  lemma OtherEventKeeps(t: Tables, h: seq<Event>, e: Event, q: Quote)
    requires RolesMatch(t, h) && Process(t, e, q).Ok?
    requires !e.payload.PoolCreated? && !e.payload.RoleGranted? && !e.payload.RoleRevoked?
    ensures RolesMatch(Process(t, e, q).value, h + [e])
  {
    var u := Process(t, e, q).value;
    HandledTouchesNoRoles(t, e, q);
    OthersKeepRoles(t, Handle(t, e, q).value);
    RoundsSnoc(t, u, h, e);
    forall role, account ensures RowsMatch(u, h + [e], role, account) {
      HistorySnoc(h, e, role, account);
      assert RowsMatch(t, h, role, account);
    }
    forall key: RoleKey ensures KeyMatches(u, h + [e], key) {
      HistorySnoc(h, e, RoundRole(key.round, key.name), key.account);
      assert KeyMatches(t, h, key);
    }
  }

  /** Every event that commits keeps the role tables equal to what the history of commits says. */
  lemma ProcessKeepsRoles(t: Tables, h: seq<Event>, e: Event, q: Quote)
    requires RolesMatch(t, h) && Process(t, e, q).Ok?
    ensures RolesMatch(Process(t, e, q).value, h + [e])
  {
    if e.payload.PoolCreated? {
      PoolCreatedKeeps(t, h, e, q);
    } else if e.payload.RoleGranted? || e.payload.RoleRevoked? {
      RoleEventKeeps(t, h, e, q);
    } else {
      OtherEventKeeps(t, h, e, q);
    }
  }
}
