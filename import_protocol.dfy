/** The transaction the two upload handlers of index.js run on a pooled
    client: `BEGIN`, one `INSERT` per batch in order, `COMMIT`; on any thrown
    error `ROLLBACK`; and `release()` in `finally`.

    The store is abstract in two ways. A connection answers the n-th
    statement it is sent with the verdict `answers[n]` (statements past the
    end of `answers` succeed), so every success/failure pattern of the real
    database is one choice of `answers`. And how the store reads the rows out
    of an `INSERT` is a parameter `read` of the protocol functions; the store
    of this model reads them with `Bound`, a simplified reading of how
    PostgreSQL binds the `$n` placeholders (see `Sql.BoundRows`). A
    statement the store refuses changes nothing but the log. */
module ImportProtocol {
  import opened Wrappers
  import opened Sql
  import opened BatchInsert

  /** A statement sent on the client. */
  datatype Command =
    | Begin
    | Insert(table: Table, sql: string, params: seq<Value>)
    | Commit
    | Rollback

  /** A row persisted in one of the two tables. */
  datatype Stored = Stored(table: Table, values: seq<Value>)

  /** The observable state of one pooled client together with the rows the
      store holds: rows visible to everyone (`committed`), rows written by the
      open transaction (`pending`), the statements sent so far (`log`), how
      often the client was released, and the store's verdicts. */
  datatype Session = Session(
    committed: seq<Stored>,
    pending: seq<Stored>,
    inTransaction: bool,
    log: seq<Command>,
    releases: nat,
    answers: seq<bool>)

  /** The result of one step: the new state and whether the statement
      succeeded (`false` stands for the promise rejecting). */
  datatype Step = Step(state: Session, ok: bool)

  /** The HTTP answer of an upload handler. */
  datatype Response =
    | Inserted      // 200 {"message": "Data inserted successfully!"}
    | InsertFailed  // 500 {"error": "Failed to insert data"}
    | FileError     // 500 {"error": "Error processing file"}

  /** How a store reads the rows an `INSERT` writes; `None` when it cannot
      make sense of the statement and refuses it. */
  type Reader = Command -> Option<seq<Stored>>

  /** The store's verdict on statement number `n` of the connection. */
  predicate Accepts(answers: seq<bool>, n: nat) {
    n >= |answers| || answers[n]
  }

  function Tag(t: Table, tuples: seq<seq<Value>>): seq<Stored>
  {
    seq(|tuples|, i requires 0 <= i < |tuples| => Stored(t, tuples[i]))
  }

  /** The store's reading of an `INSERT`, simplified from PostgreSQL's: the
      placeholders bound to the parameters and cut into rows of the table's
      width, or `None` when they do not bind. */
  function Bound(cmd: Command): Option<seq<Stored>>
  {
    match cmd
    case Insert(t, sql, params) =>
      (match BoundRows(sql, params, |Columns(t)|)
       case Some(tuples) => Some(Tag(t, tuples))
       case None => None)
    case _ => None
  }

  /** The rows an import of `rows` into `t` writes. */
  function Records(t: Table, rows: seq<Row>): seq<Stored>
  {
    Tag(t, Tuples(t, rows))
  }

  /** One statement, as the store runs it on a client: `BEGIN` opens a
      transaction (inside one it does nothing), an `INSERT` the store can read
      adds its rows to the open transaction or, outside one, commits them at
      once, `COMMIT` publishes the transaction's rows, `ROLLBACK` drops
      them. */
  function Exec(read: Reader, s: Session, cmd: Command): Step
  {
    var logged := s.(log := s.log + [cmd]);
    if !Accepts(s.answers, |s.log|) then Step(logged, false)
    else
      match cmd
      case Begin =>
        Step(if s.inTransaction then logged else logged.(inTransaction := true, pending := []), true)
      case Insert(_, _, _) =>
        (match read(cmd)
         case None => Step(logged, false)
         case Some(rows) =>
           if s.inTransaction then Step(logged.(pending := s.pending + rows), true)
           else Step(logged.(committed := s.committed + rows), true))
      case Commit =>
        if s.inTransaction then
          Step(logged.(committed := s.committed + s.pending, pending := [], inTransaction := false), true)
        else Step(logged, true)
      case Rollback =>
        Step(logged.(pending := [], inTransaction := false), true)
  }

  /** `client.release()`. */
  function Released(s: Session): Session
  {
    s.(releases := s.releases + 1)
  }

  /** The statement the loop sends for one batch. */
  function InsertBatch(t: Table, batch: seq<Row>): Command
  {
    Insert(t, BatchSql(t, batch), BatchParams(t, batch))
  }

  /** The statements of the batch loop, one per batch, in order. */
  function Inserts(t: Table, bs: seq<seq<Row>>): seq<Command>
  {
    seq(|bs|, q requires 0 <= q < |bs| => InsertBatch(t, bs[q]))
  }

  /** The rows each batch writes. */
  function RecordsOf(t: Table, bs: seq<seq<Row>>): seq<seq<Stored>>
  {
    seq(|bs|, q requires 0 <= q < |bs| => Records(t, bs[q]))
  }

  /** `cmds` are `INSERT`s that `read` accepts, the i-th writing `rs[i]`. */
  predicate Binds(read: Reader, cmds: seq<Command>, rs: seq<seq<Stored>>)
    decreases |cmds|
  {
    && |cmds| == |rs|
    && (|cmds| == 0 || (cmds[0].Insert? && read(cmds[0]) == Some(rs[0]) && Binds(read, cmds[1..], rs[1..])))
  }

  /** Sends `cmds` in order and stops at the first refused one: the `await`
      that rejects throws out of the loop. */
  function RunStatements(read: Reader, s: Session, cmds: seq<Command>): Step
    decreases |cmds|
  {
    if |cmds| == 0 then Step(s, true)
    else
      var first := Exec(read, s, cmds[0]);
      if first.ok then RunStatements(read, first.state, cmds[1..]) else first
  }

  /** The handler's `try`/`catch`/`finally` around the statements `cmds`:
      `BEGIN`, `cmds` in order, `COMMIT`; on the first refusal `ROLLBACK`;
      then `release()`. A refused `ROLLBACK` throws out of the inner `catch`,
      and the outer one answers "Error processing file". */
  function Transact(read: Reader, s: Session, cmds: seq<Command>): (Session, Response)
  {
    var begun := Exec(read, s, Begin);
    var inserted := if begun.ok then RunStatements(read, begun.state, cmds) else begun;
    var finished := if inserted.ok then Exec(read, inserted.state, Commit) else inserted;
    if finished.ok then (Released(finished.state), Inserted)
    else
      var undone := Exec(read, finished.state, Rollback);
      (Released(undone.state), if undone.ok then InsertFailed else FileError)
  }

  /** The final state and the response of one upload of `rows` on a client in
      state `s`. */
  function RunImport(s: Session, t: Table, rows: seq<Row>): (Session, Response)
  {
    Transact(Bound, s, Inserts(t, Batches(rows, BatchSize)))
  }

  /** The statements sent when nothing goes wrong. */
  function Plan(cmds: seq<Command>): seq<Command>
  {
    [Begin] + cmds + [Commit]
  }

  /** The position, among `n` statements starting at statement number
      `from`, of the first one the store refuses; `n` when it refuses none. */
  function FirstRefusal(answers: seq<bool>, from: nat, n: nat): (f: nat)
    ensures f <= n
    ensures forall i :: from <= i < from + f ==> Accepts(answers, i)
    ensures f < n ==> !Accepts(answers, from + f)
    decreases n
  {
    if n == 0 || !Accepts(answers, from) then 0 else 1 + FirstRefusal(answers, from + 1, n - 1)
  }

  /** Looking at one more statement changes the first refusal only when none
      of the first `n` was refused. */
  lemma {:induction false} FirstRefusalExtend(answers: seq<bool>, from: nat, n: nat)
    decreases n
    ensures var f := FirstRefusal(answers, from, n);
      FirstRefusal(answers, from, n + 1)
        == if f < n then f else if Accepts(answers, from + n) then n + 1 else n
  {
    if n > 0 && Accepts(answers, from) {
      FirstRefusalExtend(answers, from + 1, n - 1);
    }
  }

  /** Where the first refused planned statement of a transaction is, in
      terms of the verdicts on `BEGIN`, on the `INSERT`s and on `COMMIT`. */
  lemma PlanRefusal(answers: seq<bool>, from: nat, n: nat)
    ensures var fb := FirstRefusal(answers, from + 1, n);
      FirstRefusal(answers, from, n + 2)
        == if !Accepts(answers, from) then 0
           else if fb < n then 1 + fb
           else if Accepts(answers, from + 1 + n) then n + 2
           else n + 1
  {
    FirstRefusalExtend(answers, from + 1, n);
  }

  lemma RecordsAppend(t: Table, a: seq<Row>, b: seq<Row>)
    ensures Records(t, a + b) == Records(t, a) + Records(t, b)
  {
    assert Tuples(t, a + b) == Tuples(t, a) + Tuples(t, b);
  }

  /** The statement of a batch binds, and writes exactly the batch's rows. */
  lemma InsertBatchBound(t: Table, batch: seq<Row>)
    ensures Bound(InsertBatch(t, batch)) == Some(Records(t, batch))
  {
    BatchBinds(t, batch);
  }

  /** The rows written batch by batch are the rows of the whole sheet. */
  lemma {:induction false} RecordsOfBatches(t: Table, bs: seq<seq<Row>>)
    ensures Flatten(RecordsOf(t, bs)) == Records(t, Flatten(bs))
  {
    if |bs| > 0 {
      assert RecordsOf(t, bs)[1..] == RecordsOf(t, bs[1..]);
      RecordsOfBatches(t, bs[1..]);
      RecordsAppend(t, bs[0], Flatten(bs[1..]));
    }
  }

  /** Each batch statement binds, and writes its batch's rows. */
  lemma {:induction false} InsertsBind(t: Table, bs: seq<seq<Row>>)
    ensures Binds(Bound, Inserts(t, bs), RecordsOf(t, bs))
  {
    if |bs| > 0 {
      InsertBatchBound(t, bs[0]);
      assert Inserts(t, bs)[1..] == Inserts(t, bs[1..]);
      assert RecordsOf(t, bs)[1..] == RecordsOf(t, bs[1..]);
      InsertsBind(t, bs[1..]);
    }
  }

  lemma InsertsCons(t: Table, b: seq<Row>, rest: seq<seq<Row>>)
    ensures Inserts(t, [b] + rest) == [InsertBatch(t, b)] + Inserts(t, rest)
  {
  }

  /** An `INSERT` the store can read succeeds exactly when the store accepts
      it, and inside a transaction adds its rows to the pending ones. */
  lemma ExecInsert(read: Reader, s: Session, cmd: Command)
    requires cmd.Insert? && read(cmd).Some?
    ensures var r := Exec(read, s, cmd);
      && r.ok == Accepts(s.answers, |s.log|)
      && r.state.log == s.log + [cmd]
      && r.state.releases == s.releases && r.state.answers == s.answers
      && (s.inTransaction ==>
            && r.state.inTransaction && r.state.committed == s.committed
            && r.state.pending == s.pending + (if r.ok then read(cmd).value else []))
  {
  }

  /** `BEGIN`, `COMMIT` and `ROLLBACK` succeed exactly when the store accepts
      them; `BEGIN` opens a transaction with nothing pending, `COMMIT`
      publishes what is pending, and neither a refused statement nor
      `ROLLBACK` publishes anything. */
  lemma ExecControl(read: Reader, s: Session, cmd: Command)
    requires !cmd.Insert?
    ensures var r := Exec(read, s, cmd);
      && r.ok == Accepts(s.answers, |s.log|)
      && r.state.log == s.log + [cmd]
      && r.state.releases == s.releases && r.state.answers == s.answers
      && (cmd != Commit || !r.ok ==> r.state.committed == s.committed)
      && (cmd == Begin && r.ok && !s.inTransaction ==> r.state.inTransaction && r.state.pending == [])
      && (cmd == Commit && r.ok && s.inTransaction ==> r.state.committed == s.committed + s.pending)
  {
  }

  lemma PrefixStep<T>(x: seq<T>, k: nat)
    requires k < |x|
    ensures [x[0]] + x[1..][..k] == x[..k + 1]
  {
  }

  lemma LogStep<T>(log: seq<T>, x: seq<T>, k: nat)
    requires k < |x|
    ensures (log + [x[0]]) + x[1..][..k] == log + x[..k + 1]
  {
    PrefixStep(x, k);
  }

  lemma PendingStep<T>(p: seq<T>, rs: seq<seq<T>>, k: nat)
    requires k < |rs|
    ensures (p + rs[0]) + Flatten(rs[1..][..k]) == p + Flatten(rs[..k + 1])
  {
    PrefixStep(rs, k);
    assert rs[..k + 1][1..] == rs[1..][..k];
  }

  /** How many of `n` statements are sent when the first refused one is at
      position `f`: up to and including it. */
  function Sent(f: nat, n: nat): nat
  {
    if f < n then f + 1 else n
  }

  /** A run of readable `INSERT`s succeeds exactly when the store refuses
      none of them, sends one statement more than it has accepted unless all
      were accepted, and touches neither the release count nor the
      verdicts. */
  lemma {:induction false} RunStatementsOutcome(read: Reader, s: Session, cmds: seq<Command>, rs: seq<seq<Stored>>)
    requires Binds(read, cmds, rs)
    decreases |cmds|
    ensures var r := RunStatements(read, s, cmds);
      var f := FirstRefusal(s.answers, |s.log|, |cmds|);
      && (r.ok <==> f == |cmds|)
      && r.state.releases == s.releases && r.state.answers == s.answers
      && |r.state.log| == |s.log| + Sent(f, |cmds|)
  {
    if |cmds| > 0 {
      ExecInsert(read, s, cmds[0]);
      var first := Exec(read, s, cmds[0]);
      if first.ok {
        RunStatementsOutcome(read, first.state, cmds[1..], rs[1..]);
      }
    }
  }

  /** A run of readable `INSERT`s sends them in order up to and including
      the first refused one. */
  lemma {:induction false} RunStatementsLog(read: Reader, s: Session, cmds: seq<Command>, rs: seq<seq<Stored>>)
    requires Binds(read, cmds, rs)
    decreases |cmds|
    ensures RunStatements(read, s, cmds).state.log
         == s.log + cmds[..Sent(FirstRefusal(s.answers, |s.log|, |cmds|), |cmds|)]
  {
    if |cmds| > 0 {
      ExecInsert(read, s, cmds[0]);
      var first := Exec(read, s, cmds[0]);
      var f := FirstRefusal(s.answers, |s.log|, |cmds|);
      if first.ok {
        RunStatementsLog(read, first.state, cmds[1..], rs[1..]);
        var f1 := FirstRefusal(s.answers, |s.log| + 1, |cmds| - 1);
        var k := Sent(f1, |cmds| - 1);
        assert f == f1 + 1;
        assert Sent(f, |cmds|) == k + 1;
        LogStep(s.log, cmds, k);
      } else {
        assert f == 0;
        assert cmds[..1] == [cmds[0]];
      }
    }
  }

  /** Inside a transaction, a run of `INSERT`s writing `rs[0]`, `rs[1]`, ...
      publishes nothing and leaves pending the rows of those before the first
      refused one. */
  lemma {:induction false} RunStatementsPending(read: Reader, s: Session, cmds: seq<Command>, rs: seq<seq<Stored>>)
    requires s.inTransaction
    requires Binds(read, cmds, rs)
    decreases |cmds|
    ensures var r := RunStatements(read, s, cmds);
      var f := FirstRefusal(s.answers, |s.log|, |cmds|);
      && r.state.inTransaction && r.state.committed == s.committed
      && r.state.pending == s.pending + Flatten(rs[..f])
  {
    if |cmds| > 0 {
      ExecInsert(read, s, cmds[0]);
      var first := Exec(read, s, cmds[0]);
      if first.ok {
        RunStatementsPending(read, first.state, cmds[1..], rs[1..]);
        var f1 := FirstRefusal(s.answers, |s.log| + 1, |cmds| - 1);
        PendingStep(s.pending, rs, f1);
      } else {
        assert rs[..0] == [];
      }
    }
  }

  /** The steps of Transact, named. */
  lemma TransactSteps(read: Reader, s: Session, cmds: seq<Command>)
    returns (begun: Step, inserted: Step, finished: Step, undone: Step)
    ensures begun == Exec(read, s, Begin)
    ensures inserted == if begun.ok then RunStatements(read, begun.state, cmds) else begun
    ensures finished == if inserted.ok then Exec(read, inserted.state, Commit) else inserted
    ensures undone == Exec(read, finished.state, Rollback)
    ensures Transact(read, s, cmds)
         == if finished.ok then (Released(finished.state), Inserted)
            else (Released(undone.state), if undone.ok then InsertFailed else FileError)
  {
    begun := Exec(read, s, Begin);
    inserted := if begun.ok then RunStatements(read, begun.state, cmds) else begun;
    finished := if inserted.ok then Exec(read, inserted.state, Commit) else inserted;
    undone := Exec(read, finished.state, Rollback);
  }

  /** The client is released exactly once, on every path. */
  lemma TransactReleasesOnce(read: Reader, s: Session, cmds: seq<Command>, rs: seq<seq<Stored>>)
    requires Binds(read, cmds, rs)
    ensures Transact(read, s, cmds).0.releases == s.releases + 1
  {
    var begun, inserted, finished, undone := TransactSteps(read, s, cmds);
    ExecControl(read, s, Begin);
    if begun.ok {
      RunStatementsOutcome(read, begun.state, cmds, rs);
    }
    if inserted.ok {
      ExecControl(read, inserted.state, Commit);
    }
    ExecControl(read, finished.state, Rollback);
  }

  /** What the statements and the answer of a transaction are, given the
      position `f` of the first refused planned statement. */
  ghost predicate SendsPlan(s: Session, cmds: seq<Command>, f: nat, out: (Session, Response))
  {
    var plan := Plan(cmds);
    && (f == |plan| ==> out.0.log == s.log + plan && out.1 == Inserted)
    && (f < |plan| ==>
          && out.0.log == s.log + plan[..f + 1] + [Rollback]
          && out.1 == (if Accepts(s.answers, |s.log| + f + 1) then InsertFailed else FileError))
  }

  lemma PlanPrefix(log: seq<Command>, cmds: seq<Command>, k: nat)
    requires k < |cmds|
    ensures log + [Begin] + cmds[..k + 1] + [Rollback] == log + Plan(cmds)[..k + 2] + [Rollback]
  {
    assert Plan(cmds)[..k + 2] == [Begin] + cmds[..k + 1];
  }

  lemma PlanWhole(log: seq<Command>, cmds: seq<Command>)
    ensures log + [Begin] + cmds + [Commit] == log + Plan(cmds)
    ensures log + [Begin] + cmds + [Commit] + [Rollback] == log + Plan(cmds)[..|cmds| + 2] + [Rollback]
  {
    assert Plan(cmds)[..|cmds| + 2] == Plan(cmds);
  }

  /** `BEGIN` refused: `ROLLBACK` follows at once. */
  lemma TransactBeginRefused(read: Reader, s: Session, cmds: seq<Command>)
    requires !Accepts(s.answers, |s.log|)
    ensures SendsPlan(s, cmds, FirstRefusal(s.answers, |s.log|, |Plan(cmds)|), Transact(read, s, cmds))
  {
    PlanRefusal(s.answers, |s.log|, |cmds|);
    var begun, inserted, finished, undone := TransactSteps(read, s, cmds);
    ExecControl(read, s, Begin);
    ExecControl(read, finished.state, Rollback);
    assert Plan(cmds)[..1] == [Begin];
  }

  /** When `BEGIN` is accepted and an `INSERT` refused, the run stops right
      after the refused one. */
  lemma InsertRefusedRun(read: Reader, s: Session, cmds: seq<Command>, rs: seq<seq<Stored>>)
    returns (begun: Step, inserted: Step)
    requires Binds(read, cmds, rs)
    requires Accepts(s.answers, |s.log|)
    requires FirstRefusal(s.answers, |s.log| + 1, |cmds|) < |cmds|
    ensures begun == Exec(read, s, Begin) && begun.ok
    ensures inserted == RunStatements(read, begun.state, cmds) && !inserted.ok
    ensures inserted.state.log == s.log + [Begin] + cmds[..FirstRefusal(s.answers, |s.log| + 1, |cmds|) + 1]
    ensures inserted.state.answers == s.answers
  {
    begun := Exec(read, s, Begin);
    inserted := RunStatements(read, begun.state, cmds);
    ExecControl(read, s, Begin);
    RunStatementsOutcome(read, begun.state, cmds, rs);
    RunStatementsLog(read, begun.state, cmds, rs);
  }

  /** A failed run of `INSERT`s is followed by `ROLLBACK` and nothing else. */
  lemma TransactAfterRefusal(read: Reader, s: Session, cmds: seq<Command>)
    requires Accepts(s.answers, |s.log|)
    requires !RunStatements(read, Exec(read, s, Begin).state, cmds).ok
    ensures var fin := RunStatements(read, Exec(read, s, Begin).state, cmds).state;
      && Transact(read, s, cmds).0.log == fin.log + [Rollback]
      && Transact(read, s, cmds).1 == if Accepts(fin.answers, |fin.log|) then InsertFailed else FileError
  {
    var begun, inserted, finished, undone := TransactSteps(read, s, cmds);
    ExecControl(read, s, Begin);
    ExecControl(read, finished.state, Rollback);
  }

  /** An `INSERT` refused: the statements up to it, then `ROLLBACK`. */
  lemma TransactInsertRefused(read: Reader, s: Session, cmds: seq<Command>, rs: seq<seq<Stored>>)
    requires Binds(read, cmds, rs)
    requires Accepts(s.answers, |s.log|)
    requires FirstRefusal(s.answers, |s.log| + 1, |cmds|) < |cmds|
    ensures SendsPlan(s, cmds, FirstRefusal(s.answers, |s.log|, |Plan(cmds)|), Transact(read, s, cmds))
  {
    var fb := FirstRefusal(s.answers, |s.log| + 1, |cmds|);
    var begun, inserted := InsertRefusedRun(read, s, cmds, rs);
    TransactAfterRefusal(read, s, cmds);
    RefusedPlan(s, cmds, fb, Transact(read, s, cmds));
  }

  /** The statements sent up to a refused `INSERT`, then `ROLLBACK`, are what
      SendsPlan describes. */
  lemma RefusedPlan(s: Session, cmds: seq<Command>, fb: nat, out: (Session, Response))
    requires Accepts(s.answers, |s.log|)
    requires fb == FirstRefusal(s.answers, |s.log| + 1, |cmds|) < |cmds|
    requires out.0.log == s.log + [Begin] + cmds[..fb + 1] + [Rollback]
    requires out.1 == if Accepts(s.answers, |s.log| + fb + 2) then InsertFailed else FileError
    ensures SendsPlan(s, cmds, FirstRefusal(s.answers, |s.log|, |Plan(cmds)|), out)
  {
    PlanRefusal(s.answers, |s.log|, |cmds|);
    var f := FirstRefusal(s.answers, |s.log|, |Plan(cmds)|);
    assert |Plan(cmds)| == |cmds| + 2;
    assert f == fb + 1;
    PlanPrefix(s.log, cmds, fb);
  }

  /** When `BEGIN` and every `INSERT` are accepted, the run sends them all. */
  lemma InsertsAcceptedRun(read: Reader, s: Session, cmds: seq<Command>, rs: seq<seq<Stored>>)
    returns (begun: Step, inserted: Step)
    requires Binds(read, cmds, rs)
    requires Accepts(s.answers, |s.log|)
    requires FirstRefusal(s.answers, |s.log| + 1, |cmds|) == |cmds|
    ensures begun == Exec(read, s, Begin) && begun.ok
    ensures inserted == RunStatements(read, begun.state, cmds) && inserted.ok
    ensures inserted.state.log == s.log + [Begin] + cmds
    ensures inserted.state.answers == s.answers
  {
    begun := Exec(read, s, Begin);
    inserted := RunStatements(read, begun.state, cmds);
    ExecControl(read, s, Begin);
    RunStatementsOutcome(read, begun.state, cmds, rs);
    RunStatementsLog(read, begun.state, cmds, rs);
    assert cmds[..|cmds|] == cmds;
  }

  /** A successful run of `INSERT`s is followed by `COMMIT`, and by `ROLLBACK`
      when the `COMMIT` is refused. */
  lemma TransactAfterRun(read: Reader, s: Session, cmds: seq<Command>)
    requires Accepts(s.answers, |s.log|)
    requires RunStatements(read, Exec(read, s, Begin).state, cmds).ok
    ensures var fin := RunStatements(read, Exec(read, s, Begin).state, cmds).state;
      var committed := Accepts(fin.answers, |fin.log|);
      && Transact(read, s, cmds).0.log == fin.log + [Commit] + (if committed then [] else [Rollback])
      && Transact(read, s, cmds).1
           == if committed then Inserted else if Accepts(fin.answers, |fin.log| + 1) then InsertFailed else FileError
  {
    var begun, inserted, finished, undone := TransactSteps(read, s, cmds);
    ExecControl(read, s, Begin);
    ExecControl(read, inserted.state, Commit);
    ExecControl(read, finished.state, Rollback);
  }

  /** The statements sent after every `INSERT` was accepted are what
      SendsPlan describes. */
  lemma AcceptedPlan(s: Session, cmds: seq<Command>, out: (Session, Response))
    requires Accepts(s.answers, |s.log|)
    requires FirstRefusal(s.answers, |s.log| + 1, |cmds|) == |cmds|
    requires var committed := Accepts(s.answers, |s.log| + |cmds| + 1);
      && out.0.log == s.log + [Begin] + cmds + [Commit] + (if committed then [] else [Rollback])
      && out.1 == if committed then Inserted
                  else if Accepts(s.answers, |s.log| + |cmds| + 2) then InsertFailed else FileError
    ensures SendsPlan(s, cmds, FirstRefusal(s.answers, |s.log|, |Plan(cmds)|), out)
  {
    PlanRefusal(s.answers, |s.log|, |cmds|);
    var f := FirstRefusal(s.answers, |s.log|, |Plan(cmds)|);
    assert |Plan(cmds)| == |cmds| + 2;
    PlanWhole(s.log, cmds);
    if Accepts(s.answers, |s.log| + |cmds| + 1) {
      assert f == |cmds| + 2;
      assert out.0.log == s.log + [Begin] + cmds + [Commit];
    } else {
      assert f == |cmds| + 1;
      assert out.0.log == s.log + [Begin] + cmds + [Commit] + [Rollback];
    }
  }

  /** Every `INSERT` accepted: `COMMIT` follows, and `ROLLBACK` after it only
      when the `COMMIT` is refused. */
  lemma TransactInsertsAccepted(read: Reader, s: Session, cmds: seq<Command>, rs: seq<seq<Stored>>)
    requires Binds(read, cmds, rs)
    requires Accepts(s.answers, |s.log|)
    requires FirstRefusal(s.answers, |s.log| + 1, |cmds|) == |cmds|
    ensures SendsPlan(s, cmds, FirstRefusal(s.answers, |s.log|, |Plan(cmds)|), Transact(read, s, cmds))
  {
    var begun, inserted := InsertsAcceptedRun(read, s, cmds, rs);
    TransactAfterRun(read, s, cmds);
    AcceptedPlan(s, cmds, Transact(read, s, cmds));
  }

  /** The statements a transaction sends: the planned ones (`BEGIN`, the
      `INSERT`s in order, `COMMIT`) up to and including the first one the
      store refuses, and then `ROLLBACK`; or all of the planned ones and
      nothing else. The answer is a success exactly when every planned
      statement was accepted, "Failed to insert data" when the `ROLLBACK`
      after a refusal succeeds, and "Error processing file" when it fails
      too. */
  lemma TransactStatements(read: Reader, s: Session, cmds: seq<Command>, rs: seq<seq<Stored>>)
    requires Binds(read, cmds, rs)
    ensures SendsPlan(s, cmds, FirstRefusal(s.answers, |s.log|, |Plan(cmds)|), Transact(read, s, cmds))
  {
    if !Accepts(s.answers, |s.log|) {
      TransactBeginRefused(read, s, cmds);
    } else if FirstRefusal(s.answers, |s.log| + 1, |cmds|) < |cmds| {
      TransactInsertRefused(read, s, cmds, rs);
    } else {
      TransactInsertsAccepted(read, s, cmds, rs);
    }
  }

  /** All or nothing: on a client not already inside a transaction, a
      transaction publishes the rows of every `INSERT`, in order, when it
      answers success, and otherwise leaves the published rows as they
      were. */
  lemma TransactAllOrNothing(read: Reader, s: Session, cmds: seq<Command>, rs: seq<seq<Stored>>)
    requires Binds(read, cmds, rs)
    requires !s.inTransaction
    ensures var out := Transact(read, s, cmds);
      && (out.1 == Inserted ==> out.0.committed == s.committed + Flatten(rs))
      && (out.1 != Inserted ==> out.0.committed == s.committed)
  {
    var begun, inserted, finished, undone := TransactSteps(read, s, cmds);
    ExecControl(read, s, Begin);
    if begun.ok {
      RunStatementsPending(read, begun.state, cmds, rs);
      RunStatementsOutcome(read, begun.state, cmds, rs);
      if inserted.ok {
        assert rs[..|rs|] == rs;
        ExecControl(read, inserted.state, Commit);
      }
    }
    if !finished.ok {
      ExecControl(read, finished.state, Rollback);
    }
  }

  /** An upload releases its client exactly once, on every path. */
  lemma ImportReleasesOnce(s: Session, t: Table, rows: seq<Row>)
    ensures RunImport(s, t, rows).0.releases == s.releases + 1
  {
    var bs := Batches(rows, BatchSize);
    InsertsBind(t, bs);
    TransactReleasesOnce(Bound, s, Inserts(t, bs), RecordsOf(t, bs));
  }

  /** An upload sends `BEGIN`, one `INSERT` per batch in order and `COMMIT`, up
      to and including the first statement the store refuses, followed then
      by `ROLLBACK`; it answers success exactly when no statement was
      refused. */
  lemma ImportStatements(s: Session, t: Table, rows: seq<Row>)
    ensures var cmds := Inserts(t, Batches(rows, BatchSize));
      SendsPlan(s, cmds, FirstRefusal(s.answers, |s.log|, |Plan(cmds)|), RunImport(s, t, rows))
  {
    var bs := Batches(rows, BatchSize);
    InsertsBind(t, bs);
    TransactStatements(Bound, s, Inserts(t, bs), RecordsOf(t, bs));
  }

  /** All or nothing for an upload: on success the store publishes every row
      of the sheet, projected onto the table's columns, in sheet order; on
      any failure it publishes none. */
  lemma ImportAllOrNothing(s: Session, t: Table, rows: seq<Row>)
    requires !s.inTransaction
    ensures var out := RunImport(s, t, rows);
      && (out.1 == Inserted ==> out.0.committed == s.committed + Records(t, rows))
      && (out.1 != Inserted ==> out.0.committed == s.committed)
  {
    var bs := Batches(rows, BatchSize);
    InsertsBind(t, bs);
    TransactAllOrNothing(Bound, s, Inserts(t, bs), RecordsOf(t, bs));
    RecordsOfBatches(t, bs);
    BatchesPartition(rows, BatchSize);
  }

  /** An empty sheet sends no `INSERT`: `BEGIN` then `COMMIT`, and success when
      both are accepted. */
  lemma EmptySheet(s: Session, t: Table)
    requires Accepts(s.answers, |s.log|) && Accepts(s.answers, |s.log| + 1)
    ensures var out := RunImport(s, t, []);
      out.0.log == s.log + [Begin, Commit] && out.1 == Inserted
  {
    var none: seq<Row> := [];
    assert Inserts(t, Batches(none, BatchSize)) == [];
    assert FirstRefusal(s.answers, |s.log|, 2) == 2;
    TransactInsertsAccepted(Bound, s, [], []);
  }

  /** A pooled client of `pg`, seen through the statements it is sent. */
  class Connection {
    var committed: seq<Stored>
    var pending: seq<Stored>
    var inTransaction: bool
    var log: seq<Command>
    var releases: nat
    const answers: seq<bool>

    function State(): Session
      reads this
    {
      Session(committed, pending, inTransaction, log, releases, answers)
    }

    /** A client fresh from `pool.connect()`, on a store holding `committed`. */
    constructor (committed: seq<Stored>, answers: seq<bool>)
      ensures State() == Session(committed, [], false, [], 0, answers)
    {
      this.committed := committed;
      this.pending := [];
      this.inTransaction := false;
      this.log := [];
      this.releases := 0;
      this.answers := answers;
    }

    /** `await client.query(cmd)`; `ok` is false when the promise rejects. */
    method Query(cmd: Command) returns (ok: bool)
      modifies this
      ensures Step(State(), ok) == Exec(Bound, old(State()), cmd)
    {
      ok := Accepts(answers, |log|);
      log := log + [cmd];
      if ok {
        match cmd
        case Begin =>
          if !inTransaction {
            inTransaction := true;
            pending := [];
          }
        case Insert(_, _, _) =>
          match Bound(cmd) {
            case None =>
              ok := false;
            case Some(rows) =>
              if inTransaction {
                pending := pending + rows;
              } else {
                committed := committed + rows;
              }
          }
        case Commit =>
          if inTransaction {
            committed := committed + pending;
            pending := [];
            inTransaction := false;
          }
        case Rollback =>
          pending := [];
          inTransaction := false;
      }
    }

    /** `client.release()`. */
    method Release()
      modifies this
      ensures State() == Released(old(State()))
    {
      releases := releases + 1;
    }
  }

  /** The batch loop of an upload handler: one `INSERT` per slice of
      `BatchSize` rows, in order, stopping at the first one the store
      refuses. */
  method SendBatches(t: Table, rows: seq<Row>, conn: Connection) returns (ok: bool)
    modifies conn
    ensures Step(conn.State(), ok) == RunStatements(Bound, old(conn.State()), Inserts(t, Batches(rows, BatchSize)))
  {
    ghost var all := Inserts(t, Batches(rows, BatchSize));
    ok := true;
    var i := 0;
    while i < |rows|
      invariant RunStatements(Bound, old(conn.State()), all)
             == RunStatements(Bound, conn.State(), Inserts(t, Batches(rows[Min(i, |rows|)..], BatchSize)))
      decreases |rows| - i
    {
      var batch := Slice(rows, i, i + BatchSize);
      var values := Tuples(t, batch);
      var placeholders := PlaceholderText(Placeholders(|values|, |Columns(t)|));
      var flatValues := Flatten(values);
      BatchesFrom(rows, i, BatchSize);
      InsertsCons(t, batch, Batches(rows[Min(i + BatchSize, |rows|)..], BatchSize));
      ok := conn.Query(Insert(t, InsertSql(t, placeholders), flatValues));
      if !ok {
        return;
      }
      i := i + BatchSize;
    }
    assert rows[Min(i, |rows|)..] == [];
  }

  /** An upload handler after multer has stored the file. `sheet` is the
      parsed first sheet, or `None` when reading or parsing the file threw;
      `conn` is the client `pool.connect()` gave, or `null` when it threw.
      Both failures land in the outer `catch`. */
  method Upload(t: Table, sheet: Option<seq<Row>>, conn: Connection?) returns (resp: Response)
    modifies conn
    ensures sheet.None? || conn == null ==> resp == FileError
    ensures sheet.None? && conn != null ==> conn.State() == old(conn.State())
    ensures sheet.Some? && conn != null ==>
      (conn.State(), resp) == RunImport(old(conn.State()), t, sheet.value)
  {
    if sheet.None? || conn == null {
      return FileError;
    }
    var ok := conn.Query(Begin);
    if ok {
      ok := SendBatches(t, sheet.value, conn);
      if ok {
        ok := conn.Query(Commit);
      }
    }
    if ok {
      resp := Inserted;
    } else {
      var undone := conn.Query(Rollback);
      resp := if undone then InsertFailed else FileError;
    }
    conn.Release();
  }
}
