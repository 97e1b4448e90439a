/** What the event handlers compute from the tables: a list of changesets, or an error. */
module Handlers {
  import opened Domain
  import opened EventLog
  import opened Tables

  // ---------------------------------------------------------------- lookups

  /** `getRoundByStrategyAddress`: some round of that strategy, whichever row the database returns. */
  ghost function FindRound(t: Tables, strategy: Address): (r: Option<nat>)
    ensures r.Some? ==> r.value in t.rounds && t.rounds[r.value].strategy == strategy
    ensures r.None? ==> forall id :: id in t.rounds ==> t.rounds[id].strategy != strategy
  {
    if id :| id in t.rounds && t.rounds[id].strategy == strategy then Some(id) else None
  }

  /** `getApplicationByAnchorAddress` */
  ghost function FindApplication(t: Tables, round: nat, anchor: Address): (r: Option<ApplicationKey>)
    ensures r.Some? ==> r.value in t.applications && r.value.round == round && t.applications[r.value].anchor == anchor
    ensures r.None? ==> forall k :: k in t.applications && k.round == round ==> t.applications[k].anchor != anchor
  {
    if k :| k in t.applications && k.round == round && t.applications[k].anchor == anchor then Some(k) else None
  }

  /** `getRoundByRole`, for the admin column and then for the manager column, which are functions of the
      round's id; the result names the account's entry in the role table. */
  function FindRole(t: Tables, role: RoleHash, account: Address): Option<RoleKey> {
    match role
    case AdminOf(r) => if r in t.rounds then Some(RoleKey(r, Admin, account)) else None
    case ManagerOf(r) => if r in t.rounds then Some(RoleKey(r, Manager, account)) else None
    case ProfileRole(_) => None
  }

  // ---------------------------------------------------------------- donation ids

  function Digits(n: nat): (s: string)
    ensures |s| > 0 && (|s| == 1 <==> n < 10)
    ensures forall i :: 0 <= i < |s| ==> '0' <= s[i] <= '9'
  {
    var last := [('0' as int + n % 10) as char];
    if n < 10 then last else Digits(n / 10) + last
  }

  /** The text that is hashed into the donation id; the hash is taken to be injective. */
  function DonationId(pos: Position): string {
    Digits(pos.block) + "-" + Digits(pos.logIndex)
  }

  // ---------------------------------------------------------------- statuses

  const ITEMS_PER_ROW := 64

  function Pow16(k: nat): (p: nat)
    ensures p > 0
  {
    if k == 0 then 1 else 16 * Pow16(k - 1)
  }

  /** The `k`-th four-bit field of a bitmap row. */
  function StatusAt(row: nat, k: nat): nat {
    row / Pow16(k) % 16
  }

  predicate IsValidStatus(code: nat) {
    1 <= code <= 5
  }

  function StatusOf(code: nat): Status
    requires IsValidStatus(code)
  {
    match code
    case 1 => Pending
    case 2 => Approved
    case 3 => Rejected
    case 4 => Cancelled
    case _ => InReview
  }

  /** `createStatusUpdate`: a snapshot is added only when the status changes. */
  function StatusUpdate(row: ApplicationRow, status: Status, block: nat): Patch {
    StatusPatch(status, block,
                if row.status == status then row.snapshots else row.snapshots + [Snapshot(status, block)])
  }

  /** The update for field `k` of a row event, if the field is a status and the application exists. */
  function FieldChange(t: Tables, round: nat, rowIndex: nat, fullRow: nat, block: nat, k: nat): seq<Change> {
    var key, code := ApplicationKey(round, Index(rowIndex * ITEMS_PER_ROW + k)), StatusAt(fullRow, k);
    if IsValidStatus(code) && key in t.applications
    then [UpdateApplication(key, StatusUpdate(t.applications[key], StatusOf(code), block))]
    else []
  }

  /** The updates for the first `n` fields of a row event. */
  function RowChanges(t: Tables, round: nat, rowIndex: nat, fullRow: nat, block: nat, n: nat): seq<Change> {
    if n == 0 then []
    else RowChanges(t, round, rowIndex, fullRow, block, n - 1) + FieldChange(t, round, rowIndex, fullRow, block, n - 1)
  }

  // ---------------------------------------------------------------- roles

  /** The ids below `n` of the pending rows for a role. */
  function PendingIds(t: Tables, role: RoleHash, n: nat): (ids: seq<nat>)
    ensures forall id :: id in ids <==> id < n && id in t.pending && t.pending[id].role == role
  {
    if n == 0 then []
    else PendingIds(t, role, n - 1) + if n - 1 in t.pending && t.pending[n - 1].role == role then [n - 1] else []
  }

  function RoleInserts(t: Tables, round: nat, name: RoleName, ids: seq<nat>): seq<Change>
    requires forall id :: id in ids ==> id in t.pending
  {
    if ids == [] then []
    else
      var row := t.pending[ids[0]];
      [InsertRoundRole(RoleKey(round, name, row.account), row.block)] + RoleInserts(t, round, name, ids[1..])
  }

  /** `handlePendingRoles` */
  function PendingRoleChanges(t: Tables, round: nat): seq<Change> {
    var admins := PendingIds(t, AdminOf(round), t.nextPending);
    var managers := PendingIds(t, ManagerOf(round), t.nextPending);
    var ids := (set id | id in admins) + (set id | id in managers);
    RoleInserts(t, round, Admin, admins) + RoleInserts(t, round, Manager, managers)
    + if ids == {} then [] else [DeletePendingRoles(ids)]
  }

  // ---------------------------------------------------------------- the handlers

  ghost function Handle(t: Tables, e: Event, q: Quote): Result<seq<Change>> {
    match e.payload
    case PoolCreated(round, strategy) => Ok([InsertRound(round, strategy)] + PendingRoleChanges(t, round))
    case RoleGranted(role, account) =>
      (match FindRole(t, role, account)
       case Some(key) => Ok([InsertRoundRole(key, e.pos.block)])
       case None => Ok([InsertPendingRole(PendingRow(role, account, e.pos.block))]))
    case RoleRevoked(role, account) =>
      (match FindRole(t, role, account)
       case Some(key) => Ok([DeleteRoundRoles(key)])
       case None => Ok([]))
    case Registered(id, anchor) =>
      (match FindRound(t, e.srcAddress)
       case None => Err(NotFound)
       case Some(r) =>
         var row := ApplicationRow(anchor, Pending, e.pos.block, [Snapshot(Pending, e.pos.block)], NO_STATS);
         Ok([InsertApplication(ApplicationKey(r, id), row)]))
    case StatusRow(rowIndex, fullRow) =>
      (match FindRound(t, e.srcAddress)
       case None => Err(NotFound)
       case Some(r) => Ok(RowChanges(t, r, rowIndex, fullRow, e.pos.block, ITEMS_PER_ROW)))
    case UpdatedRegistration(anchor, code) =>
      if !IsValidStatus(code) then Ok([])
      else
        (match FindRound(t, e.srcAddress)
         case None => Err(NotFound)
         case Some(r) =>
           match FindApplication(t, r, anchor)
           case None => Err(NotFound)
           case Some(key) =>
             var row := t.applications[key];
             Ok([UpdateApplication(key, WholeRow(Patched(row, StatusUpdate(row, StatusOf(code), e.pos.block))))]))
    case Allocated(anchor, donor) =>
      (match FindRound(t, e.srcAddress)
       case None => Err(NotFound)
       case Some(r) =>
         match FindApplication(t, r, anchor)
         case None => Err(NotFound)
         case Some(key) =>
           Ok([InsertDonation(DonationId(e.pos), r, Some(key.id), donor, q.usd),
               IncrementRoundStats(r, q.usd),
               IncrementApplicationStats(key, q.usd)]))
    case DirectAllocated(donor) =>
      (match FindRound(t, e.srcAddress)
       case None => Err(NotFound)
       case Some(r) =>
         Ok([InsertDonation(DonationId(e.pos), r, None, donor, q.usd), IncrementRoundStats(r, q.usd)]))
    case TimestampsUpdated => if FindRound(t, e.srcAddress).None? then Err(NotFound) else Ok([])
    case Unmodelled => Ok([])
  }

  /** Handling one event and applying what came of it in one transaction. */
  ghost function Process(t: Tables, e: Event, q: Quote): Result<Tables> {
    match Handle(t, e, q)
    case Err(error) => Err(error)
    case Ok(changes) => ApplyAll(t, changes)
  }
}
