/** `DataLoader.applyChanges` and the repositories under it, updating the tables in place. */
module DataLoading {
  import opened Domain
  import opened Tables

  /** What a repository method does to the tables is what the specification of its changeset says. */
  predicate Does(before: Tables, c: Change, error: Option<Error>, after: Tables) {
    match Apply(before, c)
    case Ok(t) => error == None && after == t
    case Err(e) => error == Some(e) && after == before
  }

  class Database {
    var rounds: map<nat, RoundRow>
    var applications: map<ApplicationKey, ApplicationRow>
    var donations: seq<DonationRow>
    var roundRoles: map<RoleKey, nat>
    var pending: map<nat, PendingRow>
    var nextPending: nat

    constructor ()
      ensures Contents() == EMPTY
    {
      rounds, applications, donations := map[], map[], [];
      roundRoles, pending, nextPending := map[], map[], 0;
    }

    function Contents(): Tables
      reads this
    {
      Tables(rounds, applications, donations, roundRoles, pending, nextPending)
    }

    method InsertRound(id: nat, strategy: Address) returns (error: Option<Error>)
      modifies this
      ensures Does(old(Contents()), Change.InsertRound(id, strategy), error, Contents())
    {
      if id in rounds {
        return Some(DuplicateKey);
      }
      rounds := rounds[id := RoundRow(strategy, NO_STATS)];
      error := None;
    }

    method IncrementRoundDonationStats(round: nat, amountInUsd: Usd) returns (error: Option<Error>)
      modifies this
      ensures Does(old(Contents()), IncrementRoundStats(round, amountInUsd), error, Contents())
    {
      var uniqueDonorsCount := |DonorsIn(donations, OfRound(round))|;
      if round in rounds {
        var row := rounds[round];
        var total := ToUnits(FromUnits(row.stats.usd) + amountInUsd);
        if total >= CURRENCY_LIMIT {
          return Some(Overflow);
        }
        rounds := rounds[round := row.(stats := Stats(row.stats.count + 1, total, uniqueDonorsCount))];
      }
      error := None;
    }

    method IncrementApplicationDonationStats(app: ApplicationKey, amountInUsd: Usd) returns (error: Option<Error>)
      modifies this
      ensures Does(old(Contents()), IncrementApplicationStats(app, amountInUsd), error, Contents())
    {
      var uniqueDonorsCount := |DonorsIn(donations, OfApplication(app))|;
      if app in applications {
        var row := applications[app];
        var total := ToUnits(FromUnits(row.stats.usd) + amountInUsd);
        if total >= CURRENCY_LIMIT {
          return Some(Overflow);
        }
        applications := applications[app := row.(stats := Stats(row.stats.count + 1, total, uniqueDonorsCount))];
      }
      error := None;
    }

    method InsertDonation(id: string, round: nat, application: Option<ApplicationId>, donor: Address, amountInUsd: Usd)
      returns (error: Option<Error>)
      modifies this
      ensures Does(old(Contents()), Change.InsertDonation(id, round, application, donor, amountInUsd), error,
                Contents())
    {
      var units := ToUnits(amountInUsd);
      if units >= CURRENCY_LIMIT {
        return Some(Overflow);
      }
      if HasDonation(donations, id) {
        return None;
      }
      if round !in rounds || (application.Some? && ApplicationKey(round, application.value) !in applications) {
        return Some(MissingReference);
      }
      donations := donations + [DonationRow(id, round, application, donor, units)];
      error := None;
    }

    method InsertRoundRole(key: RoleKey, block: nat) returns (error: Option<Error>)
      modifies this
      ensures Does(old(Contents()), Change.InsertRoundRole(key, block), error, Contents())
    {
      if key in roundRoles {
        return Some(DuplicateKey);
      }
      if key.round !in rounds {
        return Some(MissingReference);
      }
      roundRoles := roundRoles[key := block];
      error := None;
    }

    method DeleteManyRoundRoles(key: RoleKey) returns (error: Option<Error>)
      modifies this
      ensures Does(old(Contents()), DeleteRoundRoles(key), error, Contents())
    {
      roundRoles := roundRoles - {key};
      error := None;
    }

    method InsertPendingRoundRole(row: PendingRow) returns (error: Option<Error>)
      modifies this
      ensures Does(old(Contents()), InsertPendingRole(row), error, Contents())
    {
      pending := pending[nextPending := row];
      nextPending := nextPending + 1;
      error := None;
    }

    method DeleteManyPendingRoundRoles(ids: set<nat>) returns (error: Option<Error>)
      modifies this
      ensures Does(old(Contents()), DeletePendingRoles(ids), error, Contents())
    {
      pending := pending - ids;
      error := None;
    }

    method InsertApplication(app: ApplicationKey, row: ApplicationRow) returns (error: Option<Error>)
      modifies this
      ensures Does(old(Contents()), Change.InsertApplication(app, row), error, Contents())
    {
      if app in applications {
        return Some(DuplicateKey);
      }
      if app.round !in rounds {
        return Some(MissingReference);
      }
      applications := applications[app := row];
      error := None;
    }

    method UpdateApplication(app: ApplicationKey, patch: Patch) returns (error: Option<Error>)
      modifies this
      ensures Does(old(Contents()), Change.UpdateApplication(app, patch), error, Contents())
    {
      if app in applications {
        applications := applications[app := Patched(applications[app], patch)];
      }
      error := None;
    }

    /** The changeset handlers: one repository method for each type of changeset. */
    method Dispatch(c: Change) returns (error: Option<Error>)
      modifies this
      ensures Does(old(Contents()), c, error, Contents())
    {
      match c
      case InsertRound(id, strategy) => error := InsertRound(id, strategy);
      case InsertRoundRole(key, block) => error := InsertRoundRole(key, block);
      case DeleteRoundRoles(key) => error := DeleteManyRoundRoles(key);
      case InsertPendingRole(row) => error := InsertPendingRoundRole(row);
      case DeletePendingRoles(ids) => error := DeleteManyPendingRoundRoles(ids);
      case InsertApplication(app, row) => error := InsertApplication(app, row);
      case UpdateApplication(app, patch) => error := UpdateApplication(app, patch);
      case InsertDonation(id, round, application, donor, usd) =>
          error := InsertDonation(id, round, application, donor, usd);
      case IncrementRoundStats(round, usd) => error := IncrementRoundDonationStats(round, usd);
      case IncrementApplicationStats(app, usd) => error := IncrementApplicationDonationStats(app, usd);
    }

    method Restore(t: Tables)
      modifies this
      ensures Contents() == t
    {
      rounds, applications, donations := t.rounds, t.applications, t.donations;
      roundRoles, pending, nextPending := t.roundRoles, t.pending, t.nextPending;
    }

    /** One transaction: the changesets in order, all of them or none. */
    method ApplyChanges(changes: seq<Change>) returns (error: Option<Error>)
      modifies this
      ensures match ApplyAll(old(Contents()), changes)
              case Ok(t) => error == None && Contents() == t
              case Err(e) => error == Some(e) && Contents() == old(Contents())
    {
      var before := Contents();
      for i := 0 to |changes|
        invariant ApplyAll(before, changes) == ApplyAll(Contents(), changes[i..])
      {
        assert changes[i..][0] == changes[i] && changes[i..][1..] == changes[i + 1..];
        error := Dispatch(changes[i]);
        if error.Some? {
          Restore(before);
          return;
        }
      }
      error := None;
    }
  }
}
