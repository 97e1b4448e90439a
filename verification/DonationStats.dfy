/** The aggregate columns of rounds and applications against the donations actually stored. */
module DonationStats {
  import opened Domain
  import opened EventLog
  import opened Tables
  import opened Handlers

  function CountIn(rows: seq<DonationRow>, scope: Scope): nat {
    if rows == [] then 0
    else CountIn(rows[..|rows| - 1], scope) + if In(rows[|rows| - 1], scope) then 1 else 0
  }

  function SumIn(rows: seq<DonationRow>, scope: Scope): Units {
    if rows == [] then 0
    else SumIn(rows[..|rows| - 1], scope) + if In(rows[|rows| - 1], scope) then rows[|rows| - 1].usd else 0
  }

  /** What the aggregate columns ought to hold: computed from the donations alone. */
  function Truth(rows: seq<DonationRow>, scope: Scope): Stats {
    Stats(CountIn(rows, scope), SumIn(rows, scope), |DonorsIn(rows, scope)|)
  }

  ghost predicate Referenced(t: Tables) {
    forall d :: d in t.donations ==>
      d.round in t.rounds && (d.application.Some? ==> ApplicationKey(d.round, d.application.value) in t.applications)
  }

  ghost predicate StatsTrue(t: Tables) {
    && (forall r :: r in t.rounds ==> t.rounds[r].stats == Truth(t.donations, OfRound(r)))
    && (forall k :: k in t.applications ==> t.applications[k].stats == Truth(t.donations, OfApplication(k)))
  }

  ghost predicate StatsOk(t: Tables) {
    Referenced(t) && StatsTrue(t)
  }

  lemma TruthOfSnoc(rows: seq<DonationRow>, d: DonationRow, scope: Scope)
    ensures var was, now := Truth(rows, scope), Truth(rows + [d], scope);
            if In(d, scope) then now.count == was.count + 1 && now.usd == was.usd + d.usd else now == was
  {
    assert (rows + [d])[..|rows|] == rows;
    assert forall x :: x in rows + [d] <==> x in rows || x == d;
    if !In(d, scope) {
      assert DonorsIn(rows + [d], scope) == DonorsIn(rows, scope);
    }
  }

  lemma {:induction false} NothingIn(rows: seq<DonationRow>, scope: Scope)
    requires forall d :: d in rows ==> !In(d, scope)
    ensures Truth(rows, scope) == NO_STATS
  {
    assert DonorsIn(rows, scope) == {};
    if rows != [] {
      var front := rows[..|rows| - 1];
      assert rows == front + [rows[|rows| - 1]];
      NothingIn(front, scope);
    }
  }

  /** The transaction of a donation, with or without an application. */
  function DonationChanges(id: string, round: nat, application: Option<ApplicationId>, donor: Address,
                           usd: Usd): seq<Change> {
    [InsertDonation(id, round, application, donor, usd), IncrementRoundStats(round, usd)]
    + if application.Some? then [IncrementApplicationStats(ApplicationKey(round, application.value), usd)] else []
  }

  /** The tables after a donation's transaction, when it succeeds: at most one row more, and the
      aggregates of its round and of its application incremented and recounted. */
  lemma DonationLands(t: Tables, id: string, round: nat, application: Option<ApplicationId>, donor: Address, usd: Usd)
    requires round in t.rounds
    requires application.Some? ==> ApplicationKey(round, application.value) in t.applications
    requires ApplyAll(t, DonationChanges(id, round, application, donor, usd)).Ok?
    ensures var u := ApplyAll(t, DonationChanges(id, round, application, donor, usd)).value;
            var isNew := !HasDonation(t.donations, id);
            && u.donations
                  == t.donations + (if isNew then [DonationRow(id, round, application, donor, ToUnits(usd))] else [])
            && u.rounds == t.rounds[round :=
                  t.rounds[round].(stats := Bumped(u.donations, OfRound(round), t.rounds[round].stats, usd))]
            && (application.None? ==> u.applications == t.applications)
            && (application.Some? ==>
                  var k := ApplicationKey(round, application.value);
                  u.applications == t.applications[k :=
                      t.applications[k].(stats := Bumped(u.donations, OfApplication(k), t.applications[k].stats, usd))])
  {
    var insert, first := InsertDonation(id, round, application, donor, usd), IncrementRoundStats(round, usd);
    IncrementMeans(Apply(t, insert).value.donations, OfRound(round), t.rounds[round].stats, usd);
    if application.Some? {
      var k := ApplicationKey(round, application.value);
      IncrementMeans(Apply(t, insert).value.donations, OfApplication(k), t.applications[k].stats, usd);
      ApplyThree(t, insert, first, IncrementApplicationStats(k, usd));
      assert [insert, first] + [IncrementApplicationStats(k, usd)]
          == [insert, first, IncrementApplicationStats(k, usd)];
    } else {
      ApplyTwo(t, insert, first);
      assert [insert, first] + [] == [insert, first];
    }
  }

  lemma IncrementMeans(rows: seq<DonationRow>, scope: Scope, stats: Stats, usd: Usd)
    ensures Increment(rows, scope, stats, usd).Ok? ==>
              Increment(rows, scope, stats, usd).value == Bumped(rows, scope, stats, usd)
  {
    RunningTotalIsExact(stats.usd, usd);
  }

  function Bumped(rows: seq<DonationRow>, scope: Scope, stats: Stats, usd: Usd): Stats {
    Stats(stats.count + 1, stats.usd + ToUnits(usd), |DonorsIn(rows, scope)|)
  }

  /** A donation's transaction keeps the aggregates true exactly when its id is new: stored once more it
      would be ignored, but counted again. */
  lemma DonationKeepsIff(t: Tables, id: string, round: nat, application: Option<ApplicationId>, donor: Address,
                         usd: Usd)
    requires StatsOk(t) && round in t.rounds
    requires application.Some? ==> ApplicationKey(round, application.value) in t.applications
    requires ApplyAll(t, DonationChanges(id, round, application, donor, usd)).Ok?
    ensures StatsOk(ApplyAll(t, DonationChanges(id, round, application, donor, usd)).value) <==>
              !HasDonation(t.donations, id)
  {
    DonationLands(t, id, round, application, donor, usd);
    var u := ApplyAll(t, DonationChanges(id, round, application, donor, usd)).value;
    if HasDonation(t.donations, id) {
      assert u.donations == t.donations;
      assert t.rounds[round].stats == Truth(t.donations, OfRound(round));
      assert u.rounds[round].stats.count == Truth(u.donations, OfRound(round)).count + 1;
    } else {
      NewDonationKeeps(t, u, DonationRow(id, round, application, donor, ToUnits(usd)), usd);
    }
  }

  lemma NewDonationKeeps(t: Tables, u: Tables, d: DonationRow, usd: Usd)
    requires StatsOk(t) && d.round in t.rounds && d.usd == ToUnits(usd)
    requires d.application.Some? ==> ApplicationKey(d.round, d.application.value) in t.applications
    requires u.donations == t.donations + [d]
    requires u.rounds == t.rounds[d.round :=
              t.rounds[d.round].(stats := Bumped(u.donations, OfRound(d.round), t.rounds[d.round].stats, usd))]
    requires d.application.None? ==> u.applications == t.applications
    requires d.application.Some? ==>
               var k := ApplicationKey(d.round, d.application.value);
               u.applications == t.applications[k :=
                   t.applications[k].(stats := Bumped(u.donations, OfApplication(k), t.applications[k].stats, usd))]
    ensures StatsOk(u)
  {
    assert forall x :: x in u.donations <==> x in t.donations || x == d;
    NewDonationInRounds(t, u, d, usd);
    forall k | k in u.applications ensures u.applications[k].stats == Truth(u.donations, OfApplication(k)) {
      TruthOfSnoc(t.donations, d, OfApplication(k));
    }
  }

  lemma NewDonationInRounds(t: Tables, u: Tables, d: DonationRow, usd: Usd)
    requires StatsTrue(t) && d.round in t.rounds && d.usd == ToUnits(usd) && u.donations == t.donations + [d]
    requires u.rounds == t.rounds[d.round :=
              t.rounds[d.round].(stats := Bumped(u.donations, OfRound(d.round), t.rounds[d.round].stats, usd))]
    ensures forall r :: r in u.rounds ==> u.rounds[r].stats == Truth(u.donations, OfRound(r))
  {
    forall r | r in u.rounds ensures u.rounds[r].stats == Truth(u.donations, OfRound(r)) {
      TruthOfSnoc(t.donations, d, OfRound(r));
    }
  }

  // ---------------------------------------------------------------- the other changesets

  /** Changesets that cannot make an aggregate wrong, whatever the tables hold. */
  predicate Tame(c: Change) {
    match c
    case InsertDonation(_, _, _, _, _) => false
    case IncrementRoundStats(_, _) => false
    case IncrementApplicationStats(_, _) => false
    case InsertApplication(_, row) => row.stats == NO_STATS
    case UpdateApplication(_, patch) => patch.StatusPatch?
    case _ => true
  }

  lemma TameKeeps(t: Tables, c: Change)
    requires StatsOk(t) && Tame(c) && Apply(t, c).Ok?
    ensures StatsOk(Apply(t, c).value) && Apply(t, c).value.donations == t.donations
  {
    if c.InsertRound? {
      NothingIn(t.donations, OfRound(c.id));
    } else if c.InsertApplication? {
      NothingIn(t.donations, OfApplication(c.app));
    }
  }

  lemma {:induction false} AllTameKeeps(t: Tables, changes: seq<Change>)
    requires StatsOk(t) && (forall c :: c in changes ==> Tame(c)) && ApplyAll(t, changes).Ok?
    ensures StatsOk(ApplyAll(t, changes).value) && ApplyAll(t, changes).value.donations == t.donations
    decreases |changes|
  {
    if changes != [] {
      TameKeeps(t, changes[0]);
      AllTameKeeps(Apply(t, changes[0]).value, changes[1..]);
    }
  }

  lemma {:induction false} RowChangesTame(t: Tables, round: nat, rowIndex: nat, fullRow: nat, block: nat, n: nat)
    ensures forall c :: c in RowChanges(t, round, rowIndex, fullRow, block, n) ==>
              c.UpdateApplication? && c.patch.StatusPatch?
  {
    if n > 0 {
      RowChangesTame(t, round, rowIndex, fullRow, block, n - 1);
    }
  }

  lemma {:induction false} RoleInsertsTame(t: Tables, round: nat, name: RoleName, ids: seq<nat>)
    requires forall id :: id in ids ==> id in t.pending
    ensures forall c :: c in RoleInserts(t, round, name, ids) ==> c.InsertRoundRole?
  {
    if ids != [] {
      RoleInsertsTame(t, round, name, ids[1..]);
    }
  }

  lemma PendingRoleChangesTame(t: Tables, round: nat)
    ensures forall c :: c in PendingRoleChanges(t, round) ==> c.InsertRoundRole? || c.DeletePendingRoles?
  {
    RoleInsertsTame(t, round, Admin, PendingIds(t, AdminOf(round), t.nextPending));
    RoleInsertsTame(t, round, Manager, PendingIds(t, ManagerOf(round), t.nextPending));
  }

  predicate IsDonation(p: Payload) {
    p.Allocated? || p.DirectAllocated?
  }

  lemma DonationEvent(t: Tables, e: Event, q: Quote)
    returns (round: nat, application: Option<ApplicationId>, donor: Address)
    requires IsDonation(e.payload) && Handle(t, e, q).Ok?
    ensures round in t.rounds
    ensures application.Some? ==> ApplicationKey(round, application.value) in t.applications
    ensures Handle(t, e, q).value == DonationChanges(DonationId(e.pos), round, application, donor, q.usd)
  {
    round, application, donor := FindRound(t, e.srcAddress).value, None, e.payload.donor;
    if e.payload.Allocated? {
      var k := FindApplication(t, round, e.payload.anchor).value;
      assert k == ApplicationKey(round, k.id);
      application := Some(k.id);
    }
  }

  /** Every event that is processed keeps the aggregates true, a donation provided its id is new; and it
      stores at most a donation with its own id. */
  lemma ProcessKeepsStats(t: Tables, e: Event, q: Quote)
    requires StatsOk(t) && Process(t, e, q).Ok?
    requires IsDonation(e.payload) ==> !HasDonation(t.donations, DonationId(e.pos))
    ensures var u := Process(t, e, q).value;
            && StatsOk(u)
            && forall d :: d in u.donations ==> d in t.donations || d.id == DonationId(e.pos)
  {
    var changes := Handle(t, e, q).value;
    if IsDonation(e.payload) {
      var round, application, donor := DonationEvent(t, e, q);
      DonationKeepsIff(t, DonationId(e.pos), round, application, donor, q.usd);
      DonationLands(t, DonationId(e.pos), round, application, donor, q.usd);
    } else if e.payload.UpdatedRegistration? && changes != [] {
      ApplyOne(t, changes[0]);
      assert changes == [changes[0]];
    } else {
      OtherEventsTame(t, e, q);
      AllTameKeeps(t, changes);
    }
  }

  lemma OtherEventsTame(t: Tables, e: Event, q: Quote)
    requires Handle(t, e, q).Ok? && !IsDonation(e.payload)
    requires e.payload.UpdatedRegistration? ==> Handle(t, e, q).value == []
    ensures forall c :: c in Handle(t, e, q).value ==> Tame(c)
  {
    match e.payload {
      case PoolCreated(round, _) => PendingRoleChangesTame(t, round);
      case StatusRow(rowIndex, fullRow) =>
        RowChangesTame(t, FindRound(t, e.srcAddress).value, rowIndex, fullRow, e.pos.block, ITEMS_PER_ROW);
      case _ =>
    }
  }

  // ---------------------------------------------------------------- donations counted again

  /** An event that commits a donation already stored. */
  ghost predicate Again(t: Tables, e: Event, q: Quote) {
    IsDonation(e.payload) && Process(t, e, q).Ok? && HasDonation(t.donations, DonationId(e.pos))
  }

  /** A round counts more donations than are stored for it. */
  ghost predicate Overcounted(t: Tables) {
    exists r :: r in t.rounds && t.rounds[r].stats.count > CountIn(t.donations, OfRound(r))
  }

  lemma OvercountIsWrong(t: Tables)
    requires Overcounted(t)
    ensures !StatsOk(t)
  {
    var r :| r in t.rounds && t.rounds[r].stats.count > CountIn(t.donations, OfRound(r));
    assert t.rounds[r].stats.count > Truth(t.donations, OfRound(r)).count;
  }

  lemma AgainOvercounts(t: Tables, e: Event, q: Quote)
    requires StatsOk(t) && Again(t, e, q)
    ensures Overcounted(Process(t, e, q).value)
  {
    var round, application, donor := DonationEvent(t, e, q);
    DonationLands(t, DonationId(e.pos), round, application, donor, q.usd);
    var u := Process(t, e, q).value;
    assert u.donations == t.donations;
    assert round in u.rounds && u.rounds[round].stats.count > CountIn(u.donations, OfRound(round));
  }

  /** What no event but a donation touches. */
  ghost predicate SameCounts(t: Tables, u: Tables) {
    u.donations == t.donations && forall r :: r in t.rounds ==> r in u.rounds && u.rounds[r].stats == t.rounds[r].stats
  }

  predicate Counts(c: Change) {
    c.InsertDonation? || c.IncrementRoundStats? || c.IncrementApplicationStats?
  }

  lemma {:induction false} OthersKeepCounts(t: Tables, changes: seq<Change>)
    requires (forall c :: c in changes ==> !Counts(c)) && ApplyAll(t, changes).Ok?
    ensures SameCounts(t, ApplyAll(t, changes).value)
    decreases |changes|
  {
    if changes != [] {
      assert changes[0] in changes;
      OthersKeepCounts(Apply(t, changes[0]).value, changes[1..]);
    }
  }

  lemma OtherEventsKeepCounts(t: Tables, e: Event, q: Quote)
    requires !IsDonation(e.payload) && Process(t, e, q).Ok?
    ensures SameCounts(t, Process(t, e, q).value)
  {
    if e.payload.PoolCreated? {
      PendingRoleChangesTame(t, e.payload.roundId);
    } else if e.payload.StatusRow? {
      RowChangesTame(t, FindRound(t, e.srcAddress).value, e.payload.rowIndex, e.payload.fullRow, e.pos.block,
          ITEMS_PER_ROW);
    }
    OthersKeepCounts(t, Handle(t, e, q).value);
  }

  /** A donation raises the count of its round at least as much as the number of its donations. */
  lemma DonationRaisesCount(t: Tables, e: Event, q: Quote, r: nat)
    requires IsDonation(e.payload) && Process(t, e, q).Ok? && r in t.rounds
    ensures var u := Process(t, e, q).value;
            && r in u.rounds
            && u.rounds[r].stats.count - CountIn(u.donations, OfRound(r))
               >= t.rounds[r].stats.count - CountIn(t.donations, OfRound(r))
  {
    var round, application, donor := DonationEvent(t, e, q);
    DonationLands(t, DonationId(e.pos), round, application, donor, q.usd);
    TruthOfSnoc(t.donations, DonationRow(DonationId(e.pos), round, application, donor, ToUnits(q.usd)), OfRound(r));
    assert t.donations + [] == t.donations;
  }

  /** A round counted too often is never put right: no event lowers a count or stores a donation without
      counting it. */
  lemma OvercountStays(t: Tables, e: Event, q: Quote)
    requires Overcounted(t) && Process(t, e, q).Ok?
    ensures Overcounted(Process(t, e, q).value)
  {
    var r :| r in t.rounds && t.rounds[r].stats.count > CountIn(t.donations, OfRound(r));
    if IsDonation(e.payload) {
      DonationRaisesCount(t, e, q, r);
    } else {
      OtherEventsKeepCounts(t, e, q);
    }
    var u := Process(t, e, q).value;
    assert r in u.rounds && u.rounds[r].stats.count > CountIn(u.donations, OfRound(r));
  }

  lemma ProcessStoresOwnId(t: Tables, e: Event, q: Quote)
    requires Process(t, e, q).Ok?
    ensures forall d :: d in Process(t, e, q).value.donations ==> d in t.donations || d.id == DonationId(e.pos)
  {
    if IsDonation(e.payload) {
      var round, application, donor := DonationEvent(t, e, q);
      DonationLands(t, DonationId(e.pos), round, application, donor, q.usd);
    } else {
      OtherEventsKeepCounts(t, e, q);
    }
  }

  // ---------------------------------------------------------------- donation ids

  lemma {:induction false} DigitsInjective(n: nat, m: nat)
    requires Digits(n) == Digits(m)
    ensures n == m
  {
    var s := Digits(n);
    assert s[|s| - 1] as int == '0' as int + n % 10;
    assert s[|s| - 1] as int == '0' as int + m % 10;
    if n >= 10 {
      assert Digits(n / 10) == s[..|s| - 1] == Digits(m / 10);
      DigitsInjective(n / 10, m / 10);
    }
  }

  /** The number a decimal text stands for. */
  function Value(s: string): int {
    if s == "" then 0 else 10 * Value(s[..|s| - 1]) + (s[|s| - 1] as int - '0' as int)
  }

  lemma {:induction false} DigitsRead(n: nat)
    ensures Value(Digits(n)) == n
  {
    var s := Digits(n);
    assert s[|s| - 1] as int == '0' as int + n % 10;
    if n >= 10 {
      assert s[..|s| - 1] == Digits(n / 10);
      DigitsRead(n / 10);
    } else {
      assert s[..|s| - 1] == "";
    }
  }

  /** The text is the block and the log index in decimal, with a hyphen between them. */
  lemma DonationIdReads(pos: Position)
    ensures exists a, b :: DonationId(pos) == a + "-" + b && Value(a) == pos.block && Value(b) == pos.logIndex
  {
    DigitsRead(pos.block);
    DigitsRead(pos.logIndex);
    assert DonationId(pos) == Digits(pos.block) + "-" + Digits(pos.logIndex);
  }

  /** Events at different positions have different donation ids. */
  lemma DonationIdInjective(p: Position, q: Position)
    requires DonationId(p) == DonationId(q)
    ensures p == q
  {
    var a, b, c, d := Digits(p.block), Digits(p.logIndex), Digits(q.block), Digits(q.logIndex);
    var s := a + "-" + b;
    assert s == c + "-" + d && s[|a|] == '-' && s[|c|] == '-';
    assert forall i :: 0 <= i < |a| ==> s[i] == a[i];
    assert forall i :: 0 <= i < |c| ==> s[i] == c[i];
    assert |a| == |c|;
    assert a == s[..|a|] == c && b == s[|a| + 1..] == d;
    DigitsInjective(p.block, q.block);
    DigitsInjective(p.logIndex, q.logIndex);
  }
}
