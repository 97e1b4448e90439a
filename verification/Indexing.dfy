/** The tables that the pipeline's commits build, in every run: the order and at-most-once theorems of
    the pipeline put together with the invariants of the tables. */
module Indexing {
  import opened Domain
  import opened EventLog
  import opened Pipeline
  import opened PipelineSafety
  import opened PipelineTheorems
  import opened Tables
  import opened Handlers
  import opened DonationStats
  import opened RoundRoles
  import opened ApplicationStatus
  import opened DataLoading

  /** The tables after the commits, each event processed against the tables the earlier ones left. */
  ghost function Replay(commits: seq<Commit>): Tables {
    if commits == [] then EMPTY
    else
      var t, last := Replay(commits[..|commits| - 1]), commits[|commits| - 1];
      match Process(t, last.event, last.quote)
      case Ok(u) => u
      case Err(_) => t
  }

  /** The events among the commits that the tables accepted. */
  ghost function Landed(commits: seq<Commit>): seq<Event> {
    if commits == [] then []
    else
      var front, last := commits[..|commits| - 1], commits[|commits| - 1];
      Landed(front) + if Process(Replay(front), last.event, last.quote).Ok? then [last.event] else []
  }

  /** The block of the last commit of an event of that source. */
  function LastBlock(commits: seq<Commit>, source: Address): nat {
    if commits == [] then 0
    else
      var last := commits[|commits| - 1].event;
      if last.srcAddress == source then last.pos.block else LastBlock(commits[..|commits| - 1], source)
  }

  /** Every application's history is in order, up to the last event of the strategy of its round. */
  ghost predicate HistoriesOk(t: Tables, commits: seq<Commit>) {
    forall k :: k in t.applications ==>
      k.round in t.rounds && HistoryOk(t.applications[k], LastBlock(commits, t.rounds[k.round].strategy))
  }

  ghost predicate IdsKnown(t: Tables, commits: seq<Commit>) {
    forall d :: d in t.donations ==> exists c :: c in commits && d.id == DonationId(c.event.pos)
  }

  ghost predicate TablesOk(t: Tables, commits: seq<Commit>) {
    && StatsOk(t)
    && RolesMatch(t, Landed(commits))
    && HistoriesOk(t, commits)
  }

  lemma EmptyOk()
    ensures TablesOk(EMPTY, []) && IdsKnown(EMPTY, [])
  {
    forall role, account ensures RowsMatch(EMPTY, [], role, account) {
    }
    forall key ensures KeyMatches(EMPTY, [], key) {
    }
  }

  // ---------------------------------------------------------------- commits of any origin

  /** How many of the commits store nothing because their donation is stored already. */
  ghost function CountedAgain(commits: seq<Commit>): nat {
    if commits == [] then 0
    else
      var front, last := commits[..|commits| - 1], commits[|commits| - 1];
      CountedAgain(front) + if Again(Replay(front), last.event, last.quote) then 1 else 0
  }

  /** For any commits in any order, those of the orchestrator and those of retroactive passes together:
      the statistics are true if and only if no donation was committed again. */
  lemma {:induction false} StatsTrueIff(commits: seq<Commit>)
    ensures StatsOk(Replay(commits)) <==> CountedAgain(commits) == 0
    ensures CountedAgain(commits) > 0 ==> Overcounted(Replay(commits))
  {
    if commits == [] {
      EmptyOk();
    } else {
      var front, last := commits[..|commits| - 1], commits[|commits| - 1];
      var t := Replay(front);
      StatsTrueIff(front);
      if Process(t, last.event, last.quote).Ok? {
        if CountedAgain(front) > 0 {
          OvercountStays(t, last.event, last.quote);
        } else if Again(t, last.event, last.quote) {
          AgainOvercounts(t, last.event, last.quote);
        } else {
          ProcessKeepsStats(t, last.event, last.quote);
        }
      }
      if Overcounted(Replay(commits)) {
        OvercountIsWrong(Replay(commits));
      }
    }
  }

  lemma NewIdIsFresh(t: Tables, front: seq<Commit>, last: Commit)
    requires IdsKnown(t, front) && forall c :: c in front ==> c.event.pos != last.event.pos
    ensures !HasDonation(t.donations, DonationId(last.event.pos))
  {
    if HasDonation(t.donations, DonationId(last.event.pos)) {
      var d :| d in t.donations && d.id == DonationId(last.event.pos);
      var c :| c in front && d.id == DonationId(c.event.pos);
      DonationIdInjective(c.event.pos, last.event.pos);
      assert false;
    }
  }

  /** Events at pairwise distinct positions, in any order, are never counted again. */
  lemma {:induction false} DistinctAreCountedOnce(commits: seq<Commit>)
    requires forall i, j :: 0 <= i < j < |commits| ==> commits[i].event.pos != commits[j].event.pos
    ensures CountedAgain(commits) == 0 && IdsKnown(Replay(commits), commits)
  {
    if commits != [] {
      var front, last := commits[..|commits| - 1], commits[|commits| - 1];
      var t := Replay(front);
      DistinctAreCountedOnce(front);
      assert commits == front + [last];
      NewIdIsFresh(t, front, last);
      if Process(t, last.event, last.quote).Ok? {
        ProcessStoresOwnId(t, last.event, last.quote);
      }
      assert last in commits && forall c :: c in front ==> c in commits;
    }
  }

  /** For any commits in any order the role tables say what the history of those that landed says. */
  lemma {:induction false} RolesAlwaysMatch(commits: seq<Commit>)
    ensures RolesMatch(Replay(commits), Landed(commits))
  {
    if commits == [] {
      EmptyOk();
    } else {
      var front, last := commits[..|commits| - 1], commits[|commits| - 1];
      RolesAlwaysMatch(front);
      if Process(Replay(front), last.event, last.quote).Ok? {
        ProcessKeepsRoles(Replay(front), Landed(front), last.event, last.quote);
      } else {
        assert Landed(front) + [] == Landed(front);
      }
    }
  }

  /** The events of each source come with blocks that never go back; they may come again. */
  ghost predicate SourcesAscend(commits: seq<Commit>) {
    forall i, j :: 0 <= i < j < |commits| && commits[i].event.srcAddress == commits[j].event.srcAddress ==>
      commits[i].event.pos.block <= commits[j].event.pos.block
  }

  lemma {:induction false} LastBlockIsReached(commits: seq<Commit>, source: Address)
    ensures LastBlock(commits, source) == 0
            || exists i :: 0 <= i < |commits| && commits[i].event.srcAddress == source
                        && commits[i].event.pos.block == LastBlock(commits, source)
  {
    if commits != [] && commits[|commits| - 1].event.srcAddress != source {
      var front := commits[..|commits| - 1];
      LastBlockIsReached(front, source);
      if LastBlock(front, source) != 0 {
        var i :| 0 <= i < |front| && front[i].event.srcAddress == source
              && front[i].event.pos.block == LastBlock(front, source);
        assert commits[i] == front[i];
      }
    }
  }

  lemma LastBlockGrows(commits: seq<Commit>, source: Address)
    requires SourcesAscend(commits) && commits != []
    ensures LastBlock(commits[..|commits| - 1], source) <= LastBlock(commits, source)
  {
    LastBlockIsReached(commits[..|commits| - 1], source);
  }

  lemma HistoryStepOk(t: Tables, u: Tables, e: Event, k: ApplicationKey, was: nat, now: nat)
    requires k in u.applications && HistoryStep(t, u, e, k) && was <= now
    requires IsOfSource(t, e, k) ==> now == e.pos.block
    requires k in t.applications ==> HistoryOk(t.applications[k], was)
    ensures HistoryOk(u.applications[k], now)
  {
    if k in t.applications && u.applications[k] != t.applications[k].(stats := u.applications[k].stats) {
      var status :| u.applications[k]
                 == Patched(t.applications[k], StatusUpdate(t.applications[k], status, e.pos.block));
      UpdateKeepsHistory(t.applications[k], status, was, e.pos.block);
    }
  }

  /** For any commits in which each source's blocks never go back, whatever the order across sources and
      however often an event comes again: every application's history is in order. */
  lemma {:induction false} HistoriesInOrder(commits: seq<Commit>)
    requires SourcesAscend(commits)
    ensures HistoriesOk(Replay(commits), commits)
  {
    if commits != [] {
      var front, last := commits[..|commits| - 1], commits[|commits| - 1];
      var t, u, e := Replay(front), Replay(commits), last.event;
      HistoriesInOrder(front);
      if Process(t, e, last.quote).Ok? {
        ProcessHistorySteps(t, e, last.quote);
        StrategiesStay(t, Handle(t, e, last.quote).value);
      }
      forall k | k in u.applications
        ensures k.round in u.rounds && HistoryOk(u.applications[k], LastBlock(commits, u.rounds[k.round].strategy))
      {
        KeyHistory(commits, t, u, k);
      }
    }
  }

  lemma KeyHistory(commits: seq<Commit>, t: Tables, u: Tables, k: ApplicationKey)
    requires SourcesAscend(commits) && commits != [] && k in u.applications
    requires HistoriesOk(t, commits[..|commits| - 1]) && SameStrategies(t, u)
    requires u == t || HistorySteps(t, u, commits[|commits| - 1].event)
    ensures k.round in u.rounds && HistoryOk(u.applications[k], LastBlock(commits, u.rounds[k.round].strategy))
  {
    var front, e := commits[..|commits| - 1], commits[|commits| - 1].event;
    var source := t.rounds[k.round].strategy;
    LastBlockGrows(commits, source);
    if u != t {
      HistoryStepOk(t, u, e, k, LastBlock(front, source), LastBlock(commits, source));
    }
  }

  // ---------------------------------------------------------------- the commits of a run

  lemma {:induction false} ReplayKeeps(commits: seq<Commit>)
    requires Sorted(Committed(commits))
    ensures TablesOk(Replay(commits), commits) && IdsKnown(Replay(commits), commits)
  {
    var all := Committed(commits);
    assert forall i :: 0 <= i < |commits| ==> all[i] == commits[i].event;
    DistinctAreCountedOnce(commits);
    StatsTrueIff(commits);
    RolesAlwaysMatch(commits);
    HistoriesInOrder(commits);
  }

  /** After every commit of every run of the pipeline, in either wiring and wherever it crashed: each
      round's and application's aggregates equal the count, the exact sum and the distinct donors of the
      stored donations; the role tables say what the history of grants, revocations and creations says;
      and every application's status history is in order. */
  lemma TablesAreRight(c: Config, actions: seq<Action>, s: State)
    requires IsRun(c, actions, s)
    ensures TablesOk(Replay(s.commits), s.commits)
  {
    CommitsAtMostOnceInOrder(c, actions, s);
    ReplayKeeps(s.commits);
  }

  /** No pending row is left for a round that exists. */
  lemma NoPendingForExistingRound(c: Config, actions: seq<Action>, s: State, id: nat)
    requires IsRun(c, actions, s) && id in Replay(s.commits).pending
    ensures var role := Replay(s.commits).pending[id].role;
            role.ProfileRole? || role.roundId !in Replay(s.commits).rounds
  {
    TablesAreRight(c, actions, s);
    var t, h := Replay(s.commits), Landed(s.commits);
    var row := t.pending[id];
    assert RowsMatch(t, h, row.role, row.account) && HasPending(t, row.role, row.account);
  }

  /** No grant gets lost: a committed grant of a round's role is pending as long as the round does not
      exist, and a round role from then on, until it is revoked. */
  lemma GrantsAreConserved(c: Config, actions: seq<Action>, s: State, round: nat, name: RoleName, account: Address,
                           i: nat)
    requires IsRun(c, actions, s)
    requires i < |Landed(s.commits)| && IsGrant(Landed(s.commits)[i], RoundRole(round, name), account)
    ensures var t, h := Replay(s.commits), Landed(s.commits);
            || (round !in t.rounds && HasPending(t, RoundRole(round, name), account))
            || (round in t.rounds && RoleKey(round, name, account) in t.roundRoles)
            || exists j: nat :: i < j < |h| && IsRevoke(h[j], RoundRole(round, name), account) && Created(h, j, round)
  {
    TablesAreRight(c, actions, s);
    var t, h, role := Replay(s.commits), Landed(s.commits), RoundRole(round, name);
    assert RowsMatch(t, h, role, account) && KeyMatches(t, h, RoleKey(round, name, account));
    if Unrevoked(h, i, role, account) {
      assert Held(h, role, account);
    }
  }

  lemma ReplaySnoc(commits: seq<Commit>, i: nat)
    requires i < |commits|
    ensures var t, c := Replay(commits[..i]), commits[i];
            Replay(commits[..i + 1]) == match Process(t, c.event, c.quote) { case Ok(u) => u case Err(_) => t }
  {
    assert commits[..i + 1][..i] == commits[..i];
  }

  /** Exactly the applications the row addresses are updated, and nothing else in the tables changes. */
  ghost predicate RowUpdated(t: Tables, u: Tables, e: Event, round: nat)
    requires e.payload.StatusRow?
  {
    && u == t.(applications := u.applications)
    && u.applications.Keys == t.applications.Keys
    && forall k :: k in t.applications ==>
         StatusSet(t.applications[k], u.applications[k], RowCode(e, round, k), e.pos.block)
  }

  lemma RowEventProcessed(t: Tables, e: Event, q: Quote)
    requires e.payload.StatusRow?
    ensures match FindRound(t, e.srcAddress)
            case None => Process(t, e, q).Err?
            case Some(round) => Process(t, e, q).Ok? && RowUpdated(t, Process(t, e, q).value, e, round)
  {
    if FindRound(t, e.srcAddress).Some? {
      RowEventEffect(t, FindRound(t, e.srcAddress).value, e.payload.rowIndex, e.payload.fullRow, e.pos.block,
          ITEMS_PER_ROW);
    }
  }

  /** A row event of a run updates exactly the existing applications it addresses, in the round of its
      strategy; nothing else in the tables changes, and the updated histories are in order. */
  lemma RowEventInRun(c: Config, actions: seq<Action>, s: State, i: nat)
    requires IsRun(c, actions, s) && i < |s.commits| && s.commits[i].event.payload.StatusRow?
    ensures var e, t, u := s.commits[i].event, Replay(s.commits[..i]), Replay(s.commits[..i + 1]);
            && HistoriesOk(u, s.commits[..i + 1])
            && match FindRound(t, e.srcAddress)
               case None => u == t
               case Some(round) => RowUpdated(t, u, e, round)
  {
    ReplaySnoc(s.commits, i);
    RowEventProcessed(Replay(s.commits[..i]), s.commits[i].event, s.commits[i].quote);
    CommitsAtMostOnceInOrder(c, actions, s);
    PrefixSorted(s.commits, i + 1);
    ReplayKeeps(s.commits[..i + 1]);
  }

  /** The status code that a row event carries for an application. */
  function RowCode(e: Event, round: nat, key: ApplicationKey): nat
    requires e.payload.StatusRow?
  {
    CodeFor(key, round, e.payload.rowIndex, e.payload.fullRow, 64)
  }

  lemma PrefixSorted(commits: seq<Commit>, n: nat)
    requires Sorted(Committed(commits)) && n <= |commits|
    ensures Sorted(Committed(commits[..n]))
  {
    var front, all := Committed(commits[..n]), Committed(commits);
    assert forall i :: 0 <= i < n ==> front[i] == all[i];
  }

  /** The commits processed in place, one transaction each: the tables end up as the replay says, and
      so, for commits in order, with everything right. `handled` is what the handlers answer. */
  method Index(db: Database, commits: seq<Commit>, handled: seq<Result<seq<Change>>>)
    requires db.Contents() == EMPTY && |handled| == |commits|
    requires forall i :: 0 <= i < |commits| ==>
               handled[i] == Handle(Replay(commits[..i]), commits[i].event, commits[i].quote)
    modifies db
    ensures db.Contents() == Replay(commits)
    ensures Sorted(Committed(commits)) ==> TablesOk(db.Contents(), commits)
  {
    for i := 0 to |commits|
      invariant db.Contents() == Replay(commits[..i])
    {
      ReplaySnoc(commits, i);
      match handled[i]
      case Err(_) =>
      case Ok(changes) => var error := db.ApplyChanges(changes);
    }
    assert commits[..|commits|] == commits;
    if Sorted(Committed(commits)) {
      ReplayKeeps(commits);
    }
  }

  // ---------------------------------------------------------------- creations that never commit

  lemma TwicePendingBlocks(t: Tables, round: nat, strategy: Address, name: RoleName, a: nat, b: nat)
    requires forall key :: key in t.roundRoles ==> key.round in t.rounds
    requires a < b < t.nextPending && a in t.pending && b in t.pending
    requires t.pending[a].role == t.pending[b].role == RoundRole(round, name)
              && t.pending[a].account == t.pending[b].account
    ensures ApplyAll(t, [InsertRound(round, strategy)] + PendingRoleChanges(t, round)).Err?
  {
    var ids := PendingIds(t, RoundRole(round, name), t.nextPending);
    assert a in ids && b in ids;
    var i :| 0 <= i < |ids| && ids[i] == a;
    var j :| 0 <= j < |ids| && ids[j] == b;
    assert !Distinct(t, ids);
    PoolCreationCommitsIff(t, round, strategy);
  }

  /** Granting, revoking and granting again before the pool exists leaves two pending rows for one
      account; the transaction of the pool's creation then rolls back, and the pool is never indexed. */
  lemma RegrantBlocksCreation(t: Tables, h: seq<Event>, round: nat, name: RoleName, account: Address,
                              grant: Event, revoke: Event, regrant: Event, creation: Event, q: Quote)
    requires RolesMatch(t, h) && round !in t.rounds
    requires IsGrant(grant, RoundRole(round, name), account) && IsRevoke(revoke, RoundRole(round, name), account)
    requires IsGrant(regrant, RoundRole(round, name), account)
    requires creation.payload.PoolCreated? && creation.payload.roundId == round
    ensures var t1 := Process(t, grant, q);
            t1.Ok? && var t2 := Process(t1.value, revoke, q);
            t2.Ok? && var t3 := Process(t2.value, regrant, q);
            t3.Ok? && Process(t3.value, creation, q).Err?
  {
    var role, n := RoundRole(round, name), t.nextPending;
    ApplyOne(t, InsertPendingRole(PendingRow(role, account, grant.pos.block)));
    var t1 := Process(t, grant, q).value;
    assert Process(t1, revoke, q) == Ok(t1);
    ApplyOne(t1, InsertPendingRole(PendingRow(role, account, regrant.pos.block)));
    var t3 := Process(t1, regrant, q).value;
    forall key | key in t3.roundRoles ensures key.round in t3.rounds {
      assert KeyMatches(t, h, key);
    }
    TwicePendingBlocks(t3, round, creation.payload.strategy, name, n, n + 1);
  }
}
