/** The tables the modelled handlers read and write, on one chain: rows, keys, and what each changeset
    does to them. A table with a key the code looks rows up by is a map; donations are kept as rows. */
module Tables {
  import opened Domain

  /** `numeric(18,5)`: hundred-thousandths of a dollar, fewer than ten to the eighteenth of them. */
  type Units = nat

  const CURRENCY_LIMIT := 1_000_000_000_000_000_000

  datatype Error = DuplicateKey | MissingReference | Overflow | NotFound

  datatype Result<+T> = Ok(value: T) | Err(error: Error)

  datatype Snapshot = Snapshot(status: Status, block: nat)

  /** The three aggregate columns of rounds and of applications. */
  datatype Stats = Stats(count: nat, usd: Units, donors: nat)

  const NO_STATS := Stats(0, 0, 0)

  datatype RoundRow = RoundRow(strategy: Address, stats: Stats)

  datatype ApplicationKey = ApplicationKey(round: nat, id: ApplicationId)

  datatype ApplicationRow = ApplicationRow(
    anchor: Address, status: Status, statusBlock: nat, snapshots: seq<Snapshot>, stats: Stats)

  datatype DonationRow = DonationRow(
    id: string, round: nat, application: Option<ApplicationId>, donor: Address, usd: Units)

  datatype RoleKey = RoleKey(round: nat, name: RoleName, account: Address)

  datatype PendingRow = PendingRow(role: RoleHash, account: Address, block: nat)

  datatype Tables = Tables(
    rounds: map<nat, RoundRow>,
    applications: map<ApplicationKey, ApplicationRow>,
    donations: seq<DonationRow>,
    roundRoles: map<RoleKey, nat>,
    pending: map<nat, PendingRow>, nextPending: nat)

  const EMPTY := Tables(map[], map[], [], map[], map[], 0)

  /** Of an update, the status columns only, or every column as it was read before. */
  datatype Patch =
    | StatusPatch(status: Status, statusBlock: nat, snapshots: seq<Snapshot>)
    | WholeRow(row: ApplicationRow)

  datatype Change =
    | InsertRound(id: nat, strategy: Address)
    | InsertRoundRole(key: RoleKey, block: nat)
    | DeleteRoundRoles(key: RoleKey)
    | InsertPendingRole(row: PendingRow)
    | DeletePendingRoles(ids: set<nat>)
    | InsertApplication(app: ApplicationKey, newRow: ApplicationRow)
    | UpdateApplication(app: ApplicationKey, patch: Patch)
    | InsertDonation(donationId: string, round: nat, application: Option<ApplicationId>, donor: Address, usd: Usd)
    | IncrementRoundStats(round: nat, usd: Usd)
    | IncrementApplicationStats(app: ApplicationKey, usd: Usd)

  // ---------------------------------------------------------------- money columns

  /** Storing a dollar amount rounds it half up at the fifth decimal. */
  function ToUnits(usd: Usd): Units {
    (usd * 100000.0 + 0.5).Floor
  }

  function FromUnits(u: Units): Usd {
    u as real / 100000.0
  }

  function Store(usd: Usd): Result<Units> {
    if ToUnits(usd) < CURRENCY_LIMIT then Ok(ToUnits(usd)) else Err(Overflow)
  }

  /** What is stored is the nearest hundred-thousandth of a dollar, the higher one of two. */
  lemma StoredIsNearest(usd: Usd)
    ensures usd * 100000.0 - 0.5 < ToUnits(usd) as real <= usd * 100000.0 + 0.5
    ensures forall u: Units :: FromUnits(u) * 100000.0 == u as real && ToUnits(FromUnits(u)) == u
    ensures Store(usd).Ok? <==> ToUnits(usd) < 1_000_000_000_000_000_000
    ensures Store(usd).Ok? ==> Store(usd).value == ToUnits(usd)
  {
    forall u: Units ensures FromUnits(u) * 100000.0 == u as real && ToUnits(FromUnits(u)) == u {
      assert FromUnits(u) * 100000.0 + 0.5 == u as real + 0.5;
    }
  }

  /** Rounding a running total loses nothing: it rounds the addend. */
  lemma RunningTotalIsExact(total: Units, usd: Usd)
    ensures ToUnits(FromUnits(total) + usd) == total + ToUnits(usd)
  {
    assert (FromUnits(total) + usd) * 100000.0 + 0.5 == total as real + (usd * 100000.0 + 0.5);
  }

  // ---------------------------------------------------------------- donations of a round or an application

  datatype Scope = OfRound(round: nat) | OfApplication(app: ApplicationKey)

  predicate In(d: DonationRow, scope: Scope) {
    match scope
    case OfRound(r) => d.round == r
    case OfApplication(k) => d.round == k.round && d.application == Some(k.id)
  }

  function DonorsIn(rows: seq<DonationRow>, scope: Scope): set<Address> {
    set d | d in rows && In(d, scope) :: d.donor
  }

  predicate HasDonation(rows: seq<DonationRow>, id: string) {
    exists d :: d in rows && d.id == id
  }

  // ---------------------------------------------------------------- one changeset

  function Increment(rows: seq<DonationRow>, scope: Scope, stats: Stats, usd: Usd): Result<Stats> {
    match Store(FromUnits(stats.usd) + usd)
    case Err(e) => Err(e)
    case Ok(total) => Ok(Stats(stats.count + 1, total, |DonorsIn(rows, scope)|))
  }

  function Patched(row: ApplicationRow, patch: Patch): ApplicationRow {
    match patch
    case StatusPatch(status, block, snapshots) => row.(status := status, statusBlock := block, snapshots := snapshots)
    case WholeRow(whole) => whole
  }

  /** The changeset handler of the data loader and the repository method it calls. */
  function Apply(t: Tables, c: Change): Result<Tables> {
    match c
    case InsertRound(id, strategy) =>
      if id in t.rounds then Err(DuplicateKey)
      else Ok(t.(rounds := t.rounds[id := RoundRow(strategy, NO_STATS)]))
    case InsertRoundRole(key, block) =>
      if key in t.roundRoles then Err(DuplicateKey)
      else if key.round !in t.rounds then Err(MissingReference)
      else Ok(t.(roundRoles := t.roundRoles[key := block]))
    case DeleteRoundRoles(key) => Ok(t.(roundRoles := t.roundRoles - {key}))
    case InsertPendingRole(row) =>
      Ok(t.(pending := t.pending[t.nextPending := row], nextPending := t.nextPending + 1))
    case DeletePendingRoles(ids) => Ok(t.(pending := t.pending - ids))
    case InsertApplication(key, row) =>
      if key in t.applications then Err(DuplicateKey)
      else if key.round !in t.rounds then Err(MissingReference)
      else Ok(t.(applications := t.applications[key := row]))
    case UpdateApplication(key, patch) =>
      if key !in t.applications then Ok(t)
      else Ok(t.(applications := t.applications[key := Patched(t.applications[key], patch)]))
    case InsertDonation(id, round, application, donor, usd) =>
      match Store(usd) {
        case Err(e) => Err(e)
        case Ok(units) =>
          if HasDonation(t.donations, id) then Ok(t)
          else if round !in t.rounds then Err(MissingReference)
          else if application.Some? && ApplicationKey(round, application.value) !in t.applications
          then Err(MissingReference)
          else Ok(t.(donations := t.donations + [DonationRow(id, round, application, donor, units)]))
      }
    case IncrementRoundStats(round, usd) =>
      if round !in t.rounds then Ok(t)
      else
        var row := t.rounds[round];
        match Increment(t.donations, OfRound(round), row.stats, usd) {
          case Err(e) => Err(e)
          case Ok(stats) => Ok(t.(rounds := t.rounds[round := row.(stats := stats)]))
        }
    case IncrementApplicationStats(key, usd) =>
      if key !in t.applications then Ok(t)
      else
        var row := t.applications[key];
        match Increment(t.donations, OfApplication(key), row.stats, usd) {
          case Err(e) => Err(e)
          case Ok(stats) => Ok(t.(applications := t.applications[key := row.(stats := stats)]))
        }
  }

  /** A transaction: every changeset in order, or none. */
  function ApplyAll(t: Tables, changes: seq<Change>): Result<Tables>
    decreases |changes|
  {
    if changes == [] then Ok(t)
    else
      match Apply(t, changes[0])
      case Err(e) => Err(e)
      case Ok(u) => ApplyAll(u, changes[1..])
  }

  function Chain(r: Result<Tables>, changes: seq<Change>): Result<Tables> {
    match r
    case Err(e) => Err(e)
    case Ok(t) => ApplyAll(t, changes)
  }

  lemma {:induction false} ApplyAllConcat(t: Tables, a: seq<Change>, b: seq<Change>)
    ensures ApplyAll(t, a + b) == Chain(ApplyAll(t, a), b)
    decreases |a|
  {
    if a == [] {
      assert a + b == b;
    } else {
      assert (a + b)[1..] == a[1..] + b;
      if Apply(t, a[0]).Ok? {
        ApplyAllConcat(Apply(t, a[0]).value, a[1..], b);
      }
    }
  }

  lemma ChainConcat(r: Result<Tables>, a: seq<Change>, b: seq<Change>)
    ensures Chain(r, a + b) == Chain(Chain(r, a), b)
  {
    if r.Ok? {
      ApplyAllConcat(r.value, a, b);
    }
  }

  function Then(r: Result<Tables>, c: Change): Result<Tables> {
    match r
    case Err(e) => Err(e)
    case Ok(u) => Apply(u, c)
  }

  lemma ApplyOne(t: Tables, a: Change)
    ensures ApplyAll(t, [a]) == Apply(t, a)
  {
    assert [a][1..] == [];
  }

  lemma ApplyTwo(t: Tables, a: Change, b: Change)
    ensures ApplyAll(t, [a, b]) == Then(Apply(t, a), b)
  {
    assert [a, b][1..] == [b];
    if Apply(t, a).Ok? {
      ApplyOne(Apply(t, a).value, b);
    }
  }

  lemma ApplyThree(t: Tables, a: Change, b: Change, c: Change)
    ensures ApplyAll(t, [a, b, c]) == Then(Then(Apply(t, a), b), c)
  {
    assert [a, b, c][1..] == [b, c];
    if Apply(t, a).Ok? {
      ApplyTwo(Apply(t, a).value, b, c);
    }
  }
}
