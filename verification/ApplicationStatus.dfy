/** Application statuses: the bitmap rows they arrive in, and the history kept of them. */
module ApplicationStatus {
  import opened Domain
  import opened EventLog
  import opened Tables
  import opened Handlers
  import DonationStats

  // ---------------------------------------------------------------- bitmap rows

  /** A row with the given four-bit fields, the first in the lowest bits. */
  function Pack(fields: seq<nat>): nat {
    if fields == [] then 0 else fields[0] + 16 * Pack(fields[1..])
  }

  function Unpack(row: nat, n: nat): (fields: seq<nat>)
    ensures |fields| == n && forall k :: 0 <= k < n ==> fields[k] < 16
  {
    if n == 0 then [] else [row % 16] + Unpack(row / 16, n - 1)
  }

  lemma DivideTwice(x: nat, p: nat)
    requires p > 0
    ensures x / (16 * p) == x / 16 / p
  {
    var q, r := x / 16 / p, x / 16 % p;
    var s := x % 16;
    assert x == 16 * (p * q + r) + s;
    assert x == 16 * p * q + (16 * r + s);
    assert 0 <= 16 * r + s < 16 * p;
    QuotientUnique(x, 16 * p, q, 16 * r + s);
  }

  lemma QuotientUnique(x: nat, d: nat, q: nat, r: nat)
    requires d > 0 && x == d * q + r && r < d
    ensures x / d == q
  {
    var a, b := x / d, x % d;
    assert d * (a - q) == r - b;
    MultipleBound(d, a - q);
  }

  lemma MultipleBound(d: int, k: int)
    requires d > 0
    ensures k >= 1 ==> d * k >= d
    ensures k <= -1 ==> d * k <= -d
  {
    if k >= 1 {
      assert d * (k - 1) >= 0;
    }
  }

  /** Reading a field by shifting is reading it off the unpacked row. */
  lemma {:induction false} StatusAtIsField(row: nat, n: nat, k: nat)
    requires k < n
    ensures StatusAt(row, k) == Unpack(row, n)[k]
  {
    if k > 0 {
      StatusAtIsField(row / 16, n - 1, k - 1);
      DivideTwice(row, Pow16(k - 1));
    }
  }

  lemma {:induction false} UnpackPack(fields: seq<nat>)
    requires forall k :: 0 <= k < |fields| ==> fields[k] < 16
    ensures Unpack(Pack(fields), |fields|) == fields
  {
    if fields != [] {
      UnpackPack(fields[1..]);
      var rest := Pack(fields[1..]);
      assert (fields[0] + 16 * rest) % 16 == fields[0] && (fields[0] + 16 * rest) / 16 == rest;
    }
  }

  /** Packing 64 statuses into a row and decoding each of them is the identity. */
  lemma DecodePacked(fields: seq<nat>, k: nat)
    requires |fields| == ITEMS_PER_ROW && (forall i :: 0 <= i < |fields| ==> fields[i] < 16) && k < ITEMS_PER_ROW
    ensures StatusAt(Pack(fields), k) == fields[k]
  {
    StatusAtIsField(Pack(fields), ITEMS_PER_ROW, k);
    UnpackPack(fields);
  }

  /** And a row is determined by its 64 fields. */
  lemma {:induction false} PackUnpack(row: nat, n: nat)
    requires row < Pow16(n)
    ensures Pack(Unpack(row, n)) == row
  {
    if n > 0 {
      PackUnpack(row / 16, n - 1);
      assert Unpack(row, n)[1..] == Unpack(row / 16, n - 1);
    }
  }

  // ---------------------------------------------------------------- a row event

  /** The status code a row event carries for an application, if it is in that row of that round. */
  function CodeFor(key: ApplicationKey, round: nat, rowIndex: nat, fullRow: nat, n: nat): nat {
    if key.round == round && key.id.Index? && rowIndex * 64 <= key.id.number < rowIndex * 64 + n
    then StatusAt(fullRow, key.id.number - rowIndex * 64)
    else 0
  }

  function Meaning(code: nat): Status
    requires 1 <= code <= 5
  {
    if code == 1 then Pending
    else if code == 2 then Approved
    else if code == 3 then Rejected
    else if code == 4 then Cancelled
    else InReview
  }

  /** What a status code makes of an application: 1 to 5 set the three status columns and no other, with
      one snapshot more if the status is a new one; any other code leaves the row alone. */
  ghost predicate StatusSet(was: ApplicationRow, now: ApplicationRow, code: nat, block: nat) {
    if code < 1 || code > 5 then now == was
    else
      && now.anchor == was.anchor && now.stats == was.stats
      && now.status == Meaning(code) && now.statusBlock == block
      && now.snapshots == was.snapshots + if was.status == now.status then [] else [Snapshot(now.status, block)]
  }

  /** A row event always commits, and it updates exactly the existing applications of the row whose
      field is a valid status; everything else stays as it is. */
  lemma {:induction false} RowEventEffect(t: Tables, round: nat, rowIndex: nat, fullRow: nat, block: nat, n: nat)
    ensures var r := ApplyAll(t, RowChanges(t, round, rowIndex, fullRow, block, n));
            && r.Ok?
            && r.value == t.(applications := r.value.applications)
            && r.value.applications.Keys == t.applications.Keys
            && forall k :: k in t.applications ==>
                 StatusSet(t.applications[k], r.value.applications[k], CodeFor(k, round, rowIndex, fullRow, n), block)
  {
    if n > 0 {
      RowEventEffect(t, round, rowIndex, fullRow, block, n - 1);
      var before := RowChanges(t, round, rowIndex, fullRow, block, n - 1);
      var u := ApplyAll(t, before).value;
      var key := ApplicationKey(round, Index(rowIndex * ITEMS_PER_ROW + (n - 1)));
      var code := StatusAt(fullRow, n - 1);
      CodeForOneMore(round, rowIndex, fullRow, n);
      assert RowChanges(t, round, rowIndex, fullRow, block, n)
          == before + FieldChange(t, round, rowIndex, fullRow, block, n - 1);
      if IsValidStatus(code) && key in t.applications {
        var change := UpdateApplication(key, StatusUpdate(t.applications[key], StatusOf(code), block));
        ApplyAllConcat(t, before, [change]);
        ApplyOne(u, change);
      } else {
        assert before + [] == before;
      }
    }
  }

  lemma CodeForOneMore(round: nat, rowIndex: nat, fullRow: nat, n: nat)
    requires n > 0
    ensures var key := ApplicationKey(round, Index(rowIndex * ITEMS_PER_ROW + (n - 1)));
            && CodeFor(key, round, rowIndex, fullRow, n) == StatusAt(fullRow, n - 1)
            && CodeFor(key, round, rowIndex, fullRow, n - 1) == 0
            && forall k :: k != key ==>
                  CodeFor(k, round, rowIndex, fullRow, n) == CodeFor(k, round, rowIndex, fullRow, n - 1)
  {
  }

  /** The body of the handler's loop: field `k` of the row. */
  method FieldUpdated(t: Tables, round: nat, rowIndex: nat, fullRow: nat, block: nat, k: nat)
      returns (changes: seq<Change>)
    ensures changes == FieldChange(t, round, rowIndex, fullRow, block, k)
  {
    changes := [];
    var code := StatusAt(fullRow, k);
    if IsValidStatus(code) {
      var key := ApplicationKey(round, Index(rowIndex * ITEMS_PER_ROW + k));
      if key in t.applications {
        changes := [UpdateApplication(key, StatusUpdate(t.applications[key], StatusOf(code), block))];
      }
    }
  }

  /** The handler's own loop over the fields of the row. */
  method RecipientStatusUpdated(t: Tables, round: nat, rowIndex: nat, fullRow: nat, block: nat)
      returns (changes: seq<Change>)
    ensures changes == RowChanges(t, round, rowIndex, fullRow, block, ITEMS_PER_ROW)
  {
    changes := [];
    for k := 0 to ITEMS_PER_ROW
      invariant changes == RowChanges(t, round, rowIndex, fullRow, block, k)
    {
      var update := FieldUpdated(t, round, rowIndex, fullRow, block, k);
      changes := changes + update;
    }
  }

  // ---------------------------------------------------------------- the status history

  /** The last snapshot is the status, adjacent snapshots differ, their blocks never decrease, and none
      is later than `block`. */
  ghost predicate HistoryOk(row: ApplicationRow, block: nat) {
    var s := row.snapshots;
    && |s| > 0 && s[|s| - 1].status == row.status
    && (forall i :: 0 < i < |s| ==> s[i - 1].status != s[i].status && s[i - 1].block <= s[i].block)
    && s[|s| - 1].block <= row.statusBlock <= block
  }

  lemma UpdateKeepsHistory(row: ApplicationRow, status: Status, was: nat, block: nat)
    requires HistoryOk(row, was) && was <= block
    ensures HistoryOk(Patched(row, StatusUpdate(row, status, block)), block)
  {
  }

  /** The application is in a round of the strategy that emitted the event. */
  ghost predicate IsOfSource(t: Tables, e: Event, k: ApplicationKey) {
    k.round in t.rounds && t.rounds[k.round].strategy == e.srcAddress
  }

  /** The history of an application is left alone, or its own strategy begins it or updates it. */
  ghost predicate HistoryStep(t: Tables, u: Tables, e: Event, k: ApplicationKey)
    requires k in u.applications
  {
    if k !in t.applications then IsOfSource(t, e, k) && HistoryOk(u.applications[k], e.pos.block)
    else
      || u.applications[k] == t.applications[k].(stats := u.applications[k].stats)
      || (IsOfSource(t, e, k) && exists status ::
            u.applications[k] == Patched(t.applications[k], StatusUpdate(t.applications[k], status, e.pos.block)))
  }

  /** What an event that commits can do to the applications. */
  ghost predicate HistorySteps(t: Tables, u: Tables, e: Event) {
    t.applications.Keys <= u.applications.Keys && forall k :: k in u.applications ==> HistoryStep(t, u, e, k)
  }

  lemma RegisteredStep(t: Tables, e: Event, q: Quote)
    requires Process(t, e, q).Ok? && e.payload.Registered?
    ensures HistorySteps(t, Process(t, e, q).value, e)
  {
    var c := Handle(t, e, q).value[0];
    assert Handle(t, e, q).value == [c];
    ApplyOne(t, c);
  }

  lemma UpdatedStep(t: Tables, e: Event, q: Quote)
    requires Process(t, e, q).Ok? && e.payload.UpdatedRegistration?
    ensures HistorySteps(t, Process(t, e, q).value, e)
  {
    if IsValidStatus(e.payload.code) {
      var c := Handle(t, e, q).value[0];
      assert Handle(t, e, q).value == [c];
      ApplyOne(t, c);
    }
  }

  lemma RowStep(t: Tables, e: Event, q: Quote)
    requires Process(t, e, q).Ok? && e.payload.StatusRow?
    ensures HistorySteps(t, Process(t, e, q).value, e)
  {
    var round, p, block := FindRound(t, e.srcAddress).value, e.payload, e.pos.block;
    RowEventEffect(t, round, p.rowIndex, p.fullRow, block, ITEMS_PER_ROW);
    var u := Process(t, e, q).value;
    forall k | k in u.applications ensures HistoryStep(t, u, e, k) {
      var code := CodeFor(k, round, p.rowIndex, p.fullRow, ITEMS_PER_ROW);
      if IsValidStatus(code) {
        assert u.applications[k] == Patched(t.applications[k], StatusUpdate(t.applications[k], StatusOf(code), block));
      }
    }
  }

  lemma DonationStep(t: Tables, e: Event, q: Quote)
    requires DonationStats.IsDonation(e.payload) && Process(t, e, q).Ok?
    ensures HistorySteps(t, Process(t, e, q).value, e)
  {
    var round, application, donor := DonationStats.DonationEvent(t, e, q);
    DonationStats.DonationLands(t, DonationId(e.pos), round, application, donor, q.usd);
  }

  /** Every event that commits leaves each application's history alone but those of its own strategy's
      rounds, and of those it begins one or updates some. */
  lemma ProcessHistorySteps(t: Tables, e: Event, q: Quote)
    requires Process(t, e, q).Ok?
    ensures HistorySteps(t, Process(t, e, q).value, e)
  {
    if e.payload.StatusRow? {
      RowStep(t, e, q);
    } else if e.payload.Registered? {
      RegisteredStep(t, e, q);
    } else if e.payload.UpdatedRegistration? {
      UpdatedStep(t, e, q);
    } else if DonationStats.IsDonation(e.payload) {
      DonationStep(t, e, q);
    } else {
      OtherChanges(t, e, q);
      OthersKeepApplications(t, Handle(t, e, q).value);
    }
  }

  /** No changeset gives a round another strategy. */
  ghost predicate SameStrategies(t: Tables, u: Tables) {
    forall r :: r in t.rounds ==> r in u.rounds && u.rounds[r].strategy == t.rounds[r].strategy
  }

  lemma {:induction false} StrategiesStay(t: Tables, changes: seq<Change>)
    requires ApplyAll(t, changes).Ok?
    ensures SameStrategies(t, ApplyAll(t, changes).value)
    decreases |changes|
  {
    if changes != [] {
      var u := Apply(t, changes[0]).value;
      assert SameStrategies(t, u);
      StrategiesStay(u, changes[1..]);
    }
  }

  predicate TouchesApplications(c: Change) {
    c.InsertApplication? || c.UpdateApplication? || c.IncrementApplicationStats?
  }

  lemma {:induction false} OthersKeepApplications(t: Tables, changes: seq<Change>)
    requires (forall c :: c in changes ==> !TouchesApplications(c)) && ApplyAll(t, changes).Ok?
    ensures ApplyAll(t, changes).value.applications == t.applications
    decreases |changes|
  {
    if changes != [] {
      assert changes[0] in changes;
      OthersKeepApplications(Apply(t, changes[0]).value, changes[1..]);
    }
  }

  lemma OtherChanges(t: Tables, e: Event, q: Quote)
    requires Handle(t, e, q).Ok?
    requires e.payload.PoolCreated? || e.payload.RoleGranted?
              || e.payload.RoleRevoked? || e.payload.TimestampsUpdated? || e.payload.Unmodelled?
    ensures forall c :: c in Handle(t, e, q).value ==> !TouchesApplications(c)
  {
    if e.payload.PoolCreated? {
      DonationStats.PendingRoleChangesTame(t, e.payload.roundId);
    }
  }
}
