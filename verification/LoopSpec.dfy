/** What the orchestrator loop does for its caller, as a function of what it meets: no process, no
    queue, no transaction, only how far the cursor is and what has been committed. */
module LoopSpec {
  import opened Domain
  import opened EventLog
  import opened Pipeline

  // ---------------------------------------------------------------- what the outside answers

  datatype TxReply = WriteThrew(leaked: bool) | CommitThrew(reached: bool) | CommitDone

  datatype Attempt = HandlerThrew(retriable: bool) | HandlerDone(work: Work, tx: TxReply)

  /** One pass of the loop: how many more events the indexer has by then, whether the fetch works,
      and what each attempt at the event in hand meets, a shutdown signal among the rest. */
  datatype Turn = Turn(
    arrivals: nat, fetchWorks: bool, signalOnFetch: bool,
    attempts: nat -> Attempt, signalOn: nat -> bool, save: Reply)

  /** Neither a signal nor a failing cursor write ends the process. */
  ghost predicate Steady(turn: Turn) {
    !turn.signalOnFetch && turn.save.Written? && forall i :: !turn.signalOn(i)
  }

  /** And the fetch, if there is one, works. */
  ghost predicate Quiet(turn: Turn) {
    Steady(turn) && turn.fetchWorks
  }

  ghost predicate AllSteady(script: seq<Turn>) {
    forall i :: 0 <= i < |script| ==> Steady(script[i])
  }

  ghost function QuietCount(script: seq<Turn>): nat {
    if script == [] then 0 else QuietCount(script[1..]) + if Quiet(script[0]) then 1 else 0
  }

  // ---------------------------------------------------------------- one event

  /** What a transaction leaves in the database: all of it if COMMIT took effect, even if it then threw. */
  function Reached(work: Work, reply: TxReply): Option<Work> {
    if reply.CommitDone? || (reply.CommitThrew? && reply.reached) then Some(work) else None
  }

  /** Whether the transaction leaves the durable cursor on its event. */
  predicate Moves(wiring: Wiring, reply: TxReply) {
    match reply
    case CommitDone => true
    case CommitThrew(reached) => reached || wiring.Detached?
    case WriteThrew(leaked) => leaked && wiring.Detached?
  }

  /** What the retried operation comes to: what it leaves in the database, whether the cursor is on the
      event, whether it threw, and whether a signal was heard. */
  datatype End = End(work: Option<Work>, covers: bool, threw: bool, heard: bool)

  const ABORTED := End(None, false, true, true)

  /** From the `n`-th attempt on: only a retriable error of the handler is followed by another attempt,
      while attempts are left and no signal was heard; after a signal it throws, whatever was done. */
  function EndOf(c: Config, turn: Turn, n: nat): End
    decreases c.maxAttempts - n
  {
    match turn.attempts(n)
    case HandlerDone(work, tx) =>
      End(Reached(work, tx), Moves(c.wiring, tx), !tx.CommitDone? || turn.signalOn(n), turn.signalOn(n))
    case HandlerThrew(retriable) =>
      if retriable && n + 1 < c.maxAttempts && !turn.signalOn(n) then EndOf(c, turn, n + 1)
      else End(None, false, true, turn.signalOn(n))
  }

  function Made(e: Event, work: Option<Work>): seq<Commit> {
    match work
    case Some(Changes(q)) => [Commit(e, q)]
    case _ => []
  }

  /** Every attempt before the `k`-th met a retriable error and no signal. */
  ghost predicate Retried(turn: Turn, k: nat) {
    forall i: nat :: i < k ==> turn.attempts(i) == HandlerThrew(true) && !turn.signalOn(i)
  }

  /** Attempt `k` is made, after nothing but retriable errors, and its transaction lands. */
  ghost predicate LandsAt(c: Config, turn: Turn, k: nat, work: Work) {
    && (k == 0 || k < c.maxAttempts) && Retried(turn, k)
    && turn.attempts(k).HandlerDone? && turn.attempts(k).work == work
    && (turn.attempts(k).tx.CommitDone? || turn.attempts(k).tx == CommitThrew(true))
  }

  /** An event's work lands if and only if one of its first `maxAttempts` attempts, made after nothing but
      retriable errors without a signal, has a transaction that takes effect. */
  lemma LandsIff(c: Config, turn: Turn, work: Work)
    ensures EndOf(c, turn, 0).work == Some(work) <==> exists k: nat :: LandsAt(c, turn, k, work)
  {
    LandsFrom(c, turn, work, 0);
    if k: nat :| LandsAt(c, turn, k, work) {
      LandsBy(c, turn, work, 0, k);
    }
  }

  lemma {:induction false} LandsFrom(c: Config, turn: Turn, work: Work, n: nat)
    requires (n == 0 || n < c.maxAttempts) && Retried(turn, n)
    ensures EndOf(c, turn, n).work == Some(work) ==> exists k: nat :: LandsAt(c, turn, k, work)
    decreases c.maxAttempts - n
  {
    match turn.attempts(n)
    case HandlerDone(w, tx) =>
      assert Reached(w, tx) == Some(work) ==> LandsAt(c, turn, n, work);
    case HandlerThrew(retriable) =>
      if retriable && n + 1 < c.maxAttempts && !turn.signalOn(n) {
        LandsFrom(c, turn, work, n + 1);
      }
  }

  lemma {:induction false} LandsBy(c: Config, turn: Turn, work: Work, n: nat, k: nat)
    requires LandsAt(c, turn, k, work) && n <= k
    ensures EndOf(c, turn, n).work == Some(work)
    decreases k - n
  {
    if n < k {
      LandsBy(c, turn, work, n + 1, k);
    }
  }

  // ---------------------------------------------------------------- one pass

  /** Between two passes: how many events of the chain are indexed, how many of them the cursor has
      passed, how many of those that follow are queued, and what has been committed. */
  datatype Course = Course(
    indexed: nat, passed: nat, queued: nat, commits: seq<Commit>, aborted: bool, alive: bool)

  /** The indexer has more events; those at (0,0) count as passed. */
  function Arrived(chain: seq<Event>, s: Course, arrivals: nat): Course {
    var indexed := if s.indexed + arrivals <= |chain| then s.indexed + arrivals else |chain|;
    s.(indexed := indexed, passed := Max(s.passed, Reach(chain[..indexed], ORIGIN)))
  }

  /** How many events can be popped: those queued, or else those a working fetch brings. */
  function Available(c: Config, s: Course, turn: Turn): nat {
    if s.queued > 0 then s.queued
    else if turn.fetchWorks then Max(0, Min(c.fetchLimit, s.indexed - s.passed))
    else 0
  }

  /** The event popped is the first one the cursor has not passed. It is left behind with the cursor on
      it, unless the process dies before the cursor gets there. */
  function Handled(c: Config, chain: seq<Event>, s: Course, available: nat, turn: Turn): Course
    requires s.passed < |chain| && available > 0
  {
    var end := if turn.signalOnFetch then ABORTED else EndOf(c, turn, 0);
    var alive := !end.threw || turn.save.Written?;
    var moved := alive || end.covers || turn.save.reached;
    Course(s.indexed, s.passed + if moved then 1 else 0, if alive then available - 1 else 0,
           s.commits + Made(chain[s.passed], end.work), end.heard, alive)
  }

  function Pass(c: Config, chain: seq<Event>, s: Course, turn: Turn): Course {
    Step(c, chain, Arrived(chain, s, turn.arrivals), turn)
  }

  function Step(c: Config, chain: seq<Event>, s: Course, turn: Turn): Course {
    var available := Available(c, s, turn);
    if available > 0 && s.passed < |chain| then Handled(c, chain, s, available, turn)
    else s.(aborted := turn.signalOnFetch && (s.queued > 0 || turn.fetchWorks))
  }

  lemma HandledIs(c: Config, chain: seq<Event>, was: Course, turn: Turn, end: End, alive: bool, now: Course)
    requires Available(c, was, turn) > 0 && was.passed < |chain|
    requires end == if turn.signalOnFetch then ABORTED else EndOf(c, turn, 0)
    requires alive <==> !end.threw || turn.save.Written?
    requires now.indexed == was.indexed && now.aborted == end.heard && now.alive == alive
    requires now.passed == was.passed + if alive || end.covers || turn.save.reached then 1 else 0
    requires now.queued == if alive then Available(c, was, turn) - 1 else 0
    requires now.commits == was.commits + Made(chain[was.passed], end.work)
    ensures now == Step(c, chain, was, turn)
  {
  }

  /** The loop goes on until a signal or its death, whatever became of the passes before. */
  function Passes(c: Config, chain: seq<Event>, s: Course, script: seq<Turn>): Course
    decreases |script|
  {
    if script == [] || s.aborted || !s.alive then s
    else Passes(c, chain, Pass(c, chain, s, script[0]), script[1..])
  }

  // ---------------------------------------------------------------- progress

  lemma {:induction false} SteadyEnds(c: Config, turn: Turn, n: nat)
    requires Steady(turn)
    ensures !EndOf(c, turn, n).heard
    decreases c.maxAttempts - n
  {
    if turn.attempts(n) == HandlerThrew(true) && n + 1 < c.maxAttempts {
      SteadyEnds(c, turn, n + 1);
    }
  }

  /** A steady pass keeps the loop going and never puts the cursor back; it passes the next event if one
      is queued or the fetch works and brings one. */
  lemma SteadyPass(c: Config, chain: seq<Event>, s: Course, turn: Turn)
    requires Steady(turn) && s.alive && !s.aborted
    ensures var t := Pass(c, chain, s, turn);
            && t.alive && !t.aborted && t.passed >= s.passed && s.commits <= t.commits
            && (s.indexed <= |chain| ==> t.indexed >= s.indexed)
            && (c.fetchLimit > 0 && (turn.fetchWorks || s.queued > 0) && s.indexed <= |chain| ==>
                  t.passed >= Min(s.passed + 1, s.indexed))
  {
    SteadyEnds(c, turn, 0);
  }

  /** The loop is still going, and has passed at least so many events, or all there were. */
  predicate Advanced(s: Course, t: Course, events: nat) {
    && t.alive && !t.aborted && t.indexed >= s.indexed
    && t.passed >= s.passed && t.passed >= Min(s.passed + events, s.indexed)
  }

  /** If no pass hears a signal and every save is written: as many events are passed as there were passes
      with a working fetch, up to all that was indexed at the start, whatever became of the events and
      however many fetches failed in between. */
  lemma {:induction false} SteadyProgress(c: Config, chain: seq<Event>, s: Course, script: seq<Turn>)
    requires c.fetchLimit > 0 && s.alive && !s.aborted && s.indexed <= |chain| && AllSteady(script)
    ensures Advanced(s, Passes(c, chain, s, script), QuietCount(script))
    decreases |script|
  {
    if script != [] {
      assert Steady(script[0]);
      SteadyPass(c, chain, s, script[0]);
      SteadyProgress(c, chain, Pass(c, chain, s, script[0]), script[1..]);
    }
  }

  lemma {:induction false} PassesSnoc(c: Config, chain: seq<Event>, s: Course, script: seq<Turn>, turn: Turn)
    ensures var t := Passes(c, chain, s, script);
            Passes(c, chain, s, script + [turn]) == if t.aborted || !t.alive then t else Pass(c, chain, t, turn)
    decreases |script|
  {
    if script == [] {
      assert [turn][1..] == [];
    } else if !s.aborted && s.alive {
      PassesSnoc(c, chain, Pass(c, chain, s, script[0]), script[1..], turn);
      assert (script + [turn])[1..] == script[1..] + [turn];
    }
  }

  /** The loop has come there after the first `i` passes. */
  ghost predicate IsAfter(c: Config, chain: seq<Event>, s: Course, script: seq<Turn>, i: nat, t: Course)
    requires i <= |script|
  {
    t == Passes(c, chain, s, script[..i])
  }

  lemma PassesNext(c: Config, chain: seq<Event>, s: Course, script: seq<Turn>, i: nat, now: Course, next: Course)
    requires i < |script| && IsAfter(c, chain, s, script, i, now) && now.alive && !now.aborted
    requires next == Pass(c, chain, now, script[i])
    ensures IsAfter(c, chain, s, script, i + 1, next)
  {
    PassesSnoc(c, chain, s, script[..i], script[i]);
    assert script[..i + 1] == script[..i] + [script[i]];
  }

  /** Once a signal has been heard or the process has died, the rest of the script is not run. */
  lemma PassesEnd(c: Config, chain: seq<Event>, s: Course, script: seq<Turn>, n: nat, t: Course)
    requires n <= |script| && IsAfter(c, chain, s, script, n, t) && (n == |script| || t.aborted || !t.alive)
    ensures t == Passes(c, chain, s, script)
  {
    PassesStop(c, chain, s, script, n);
  }

  lemma {:induction false} PassesStop(c: Config, chain: seq<Event>, s: Course, script: seq<Turn>, n: nat)
    requires n <= |script|
    ensures var t := Passes(c, chain, s, script[..n]);
            n == |script| || t.aborted || !t.alive ==> Passes(c, chain, s, script) == t
    decreases |script|
  {
    if n == |script| {
      assert script[..n] == script;
    } else if n > 0 && !s.aborted && s.alive {
      PassesStop(c, chain, Pass(c, chain, s, script[0]), script[1..], n - 1);
      assert script[..n][1..] == script[1..][..n - 1];
    }
  }

  // ---------------------------------------------------------------- several lives

  /** No process is running. */
  function AtRest(s: Course): Course {
    s.(queued := 0, aborted := false, alive := false)
  }

  /** One life, from its start to its end. */
  function AfterLife(c: Config, chain: seq<Event>, s: Course, script: seq<Turn>): Course {
    AtRest(Passes(c, chain, AtRest(s).(alive := true), script))
  }

  /** One life of the process: what it meets, and after how many actions it is killed, if it is. */
  datatype Life = Life(script: seq<Turn>, killedAfter: Option<nat>)

  /** Not killed, not told to stop, and never unable to save the cursor. */
  ghost predicate Unharmed(life: Life) {
    life.killedAfter.None? && AllSteady(life.script)
  }

  ghost predicate AllUnharmed(lives: seq<Life>) {
    forall i :: 0 <= i < |lives| ==> Unharmed(lives[i])
  }

  ghost predicate NoneKilled(lives: seq<Life>) {
    forall i :: 0 <= i < |lives| ==> lives[i].killedAfter.None?
  }

  function AfterLives(c: Config, chain: seq<Event>, s: Course, lives: seq<Life>): Course {
    if lives == [] then s
    else AfterLife(c, chain, AfterLives(c, chain, s, lives[..|lives| - 1]), lives[|lives| - 1].script)
  }

  ghost function QuietTotal(lives: seq<Life>): nat {
    if lives == [] then 0 else QuietTotal(lives[..|lives| - 1]) + QuietCount(lives[|lives| - 1].script)
  }

  lemma LifeProgress(c: Config, chain: seq<Event>, s: Course, script: seq<Turn>)
    requires c.fetchLimit > 0 && s.indexed <= |chain| && AllSteady(script)
    ensures var t := AfterLife(c, chain, s, script);
            && s.indexed <= t.indexed <= |chain|
            && t.passed >= s.passed && t.passed >= Min(s.passed + QuietCount(script), s.indexed)
  {
    var start := AtRest(s).(alive := true);
    SteadyProgress(c, chain, start, script);
    IndexedStays(c, chain, start, script);
  }

  /** The same over any number of lives. */
  lemma {:induction false} LivesProgress(c: Config, chain: seq<Event>, s: Course, lives: seq<Life>)
    requires c.fetchLimit > 0 && s.indexed <= |chain| && AllUnharmed(lives)
    ensures NoneKilled(lives)
    ensures var t := AfterLives(c, chain, s, lives);
            && s.indexed <= t.indexed <= |chain|
            && t.passed >= s.passed && t.passed >= Min(s.passed + QuietTotal(lives), s.indexed)
  {
    if lives != [] {
      var front, last := lives[..|lives| - 1], lives[|lives| - 1];
      assert Unharmed(last);
      LivesProgress(c, chain, s, front);
      LifeProgress(c, chain, AfterLives(c, chain, s, front), last.script);
    }
  }

  /** If no life is harmed: as many events are passed as there were passes with a working fetch, up to all
      that was indexed at the start. */
  ghost predicate Progresses(c: Config, s: Course, t: Course, lives: seq<Life>) {
    c.fetchLimit > 0 && AllUnharmed(lives) ==> t.passed >= Min(s.passed + QuietTotal(lives), s.indexed)
  }

  lemma LivesProgressTo(c: Config, chain: seq<Event>, s: Course, lives: seq<Life>, t: Course)
    requires s.indexed <= |chain|
    requires NoneKilled(lives) ==> t == AfterLives(c, chain, s, lives)
    ensures Progresses(c, s, t, lives)
  {
    if c.fetchLimit > 0 && AllUnharmed(lives) {
      LivesProgress(c, chain, s, lives);
    }
  }

  lemma AfterLivesSnoc(c: Config, chain: seq<Event>, s: Course, front: seq<Life>, last: Life)
    ensures AfterLives(c, chain, s, front + [last])
         == AfterLife(c, chain, AfterLives(c, chain, s, front), last.script)
    ensures NoneKilled(front + [last]) ==> NoneKilled(front) && last.killedAfter.None?
  {
    var all := front + [last];
    assert all[..|front|] == front && all[|front|] == last;
    if NoneKilled(all) {
      assert forall i :: 0 <= i < |front| ==> front[i] == all[i];
    }
  }

  lemma {:induction false} IndexedStays(c: Config, chain: seq<Event>, s: Course, script: seq<Turn>)
    requires s.indexed <= |chain|
    ensures Passes(c, chain, s, script).indexed <= |chain|
    decreases |script|
  {
    if script != [] && !s.aborted && s.alive {
      IndexedStays(c, chain, Pass(c, chain, s, script[0]), script[1..]);
    }
  }
}
