/**
 * One driver session (a `Sequelize` instance) as a state machine, and the
 * transaction sequence the three services run on it: begin, run the
 * statement, commit, and roll back when running or committing fails.
 *
 * What the database does is not modelled: a `DriverPlan` fixes, for one
 * invocation, whether each step succeeds and which rows the statement yields.
 */
module Session {
  import opened Wrappers
  import opened JsValues
  import opened Connection

  type Rows = seq<Json>

  /** The driver's answer at each step of one invocation. */
  datatype DriverPlan = DriverPlan(begins: bool, rows: Option<Rows>, commits: bool, rollsBack: bool, closes: bool)

  /** The driver's answers as a function of the descriptor, the statement and the replacements. */
  type Driver = (Descriptor, Value, Value) -> DriverPlan

  /** A call made on the session, in the order made. */
  datatype Step = Begin | Execute(statement: Value, replacements: Value) | Commit | Rollback | Close

  datatype SessionState = Idle | InTransaction | Executed | Committed | RolledBack | Closed

  /** Why a transaction ended without committing: the error that propagates out of it. */
  datatype FailureCause = BeginFailed | ExecuteFailed | CommitFailed | RollbackFailed

  datatype TxOutcome = Done(rows: Rows) | Failed(cause: FailureCause)

  /** The calls the transaction sequence makes, given the driver's answers. */
  function TransactionSteps(plan: DriverPlan, statement: Value, replacements: Value): seq<Step>
  {
    if !plan.begins then [Begin]
    else if plan.rows.None? then [Begin, Execute(statement, replacements), Rollback]
    else if !plan.commits then [Begin, Execute(statement, replacements), Commit, Rollback]
    else [Begin, Execute(statement, replacements), Commit]
  }

  /**
   * How the transaction sequence ends. With `guardRollback` a rollback error
   * is swallowed and the original error propagates; without it a failing
   * rollback's own error propagates instead.
   */
  function TransactionOutcome(plan: DriverPlan, guardRollback: bool): TxOutcome
  {
    var cause := if !guardRollback && !plan.rollsBack then Some(RollbackFailed) else None;
    if !plan.begins then Failed(BeginFailed)
    else if plan.rows.None? then Failed(if cause.Some? then cause.value else ExecuteFailed)
    else if !plan.commits then Failed(if cause.Some? then cause.value else CommitFailed)
    else Done(plan.rows.value)
  }

  /**
   * The transaction commits exactly when every step up to the commit
   * succeeds, and then yields the statement's rows; rollback is called exactly
   * when a transaction was opened and did not commit; the statement runs once
   * at most, and nothing runs before the transaction is open.
   */
  lemma TransactionContract(plan: DriverPlan, guardRollback: bool, statement: Value, replacements: Value)
    ensures TransactionOutcome(plan, guardRollback).Done?
        <==> plan.begins && plan.rows.Some? && plan.commits
    ensures TransactionOutcome(plan, guardRollback).Done? ==>
              TransactionOutcome(plan, guardRollback).rows == plan.rows.value
    ensures var steps := TransactionSteps(plan, statement, replacements);
            && |steps| > 0 && steps[0] == Begin
            && (Rollback in steps <==> plan.begins && !TransactionOutcome(plan, guardRollback).Done?)
            && (Commit in steps <==> plan.begins && plan.rows.Some?)
            && (Execute(statement, replacements) in steps <==> plan.begins)
            && Close !in steps
  {
  }

  /**
   * The rollback guard changes only which error propagates, never whether the
   * transaction committed nor the rows.
   */
  lemma RollbackGuardOnlyChangesCause(plan: DriverPlan)
    ensures TransactionOutcome(plan, true).Done? == TransactionOutcome(plan, false).Done?
    ensures TransactionOutcome(plan, true).Done? ==> TransactionOutcome(plan, true) == TransactionOutcome(plan, false)
    ensures TransactionOutcome(plan, true) != Failed(RollbackFailed)
  {
  }

  class Session {
    const descriptor: Descriptor
    const plan: DriverPlan
    var state: SessionState
    var steps: seq<Step>

    /** `new Sequelize(descriptor)`: nothing is connected yet. */
    constructor (descriptor: Descriptor, plan: DriverPlan)
      ensures this.descriptor == descriptor && this.plan == plan
      ensures state == Idle && steps == []
    {
      this.descriptor := descriptor;
      this.plan := plan;
      state := Idle;
      steps := [];
    }

    /** `sequelize.transaction()`: connect and open a transaction. */
    method Transaction() returns (ok: bool)
      requires state == Idle
      modifies this
      ensures ok == plan.begins
      ensures state == if ok then InTransaction else Idle
      ensures steps == old(steps) + [Step.Begin]
    {
      ok := plan.begins;
      if ok { state := InTransaction; }
      steps := steps + [Step.Begin];
    }

    /** `sequelize.query(statement, {replacements, transaction})`. */
    method Query(statement: Value, replacements: Value) returns (rows: Option<Rows>)
      requires state == InTransaction
      modifies this
      ensures rows == plan.rows
      ensures state == if rows.Some? then Executed else InTransaction
      ensures steps == old(steps) + [Execute(statement, replacements)]
    {
      rows := plan.rows;
      if rows.Some? { state := Executed; }
      steps := steps + [Execute(statement, replacements)];
    }

    /** `transaction.commit()`. */
    method Commit() returns (ok: bool)
      requires state == Executed
      modifies this
      ensures ok == plan.commits
      ensures state == if ok then Committed else Executed
      ensures steps == old(steps) + [Step.Commit]
    {
      ok := plan.commits;
      if ok { state := Committed; }
      steps := steps + [Step.Commit];
    }

    /** `transaction.rollback()`. */
    method Rollback() returns (ok: bool)
      requires state == InTransaction || state == Executed
      modifies this
      ensures ok == plan.rollsBack
      ensures state == if ok then RolledBack else old(state)
      ensures steps == old(steps) + [Step.Rollback]
    {
      ok := plan.rollsBack;
      if ok { state := RolledBack; }
      steps := steps + [Step.Rollback];
    }

    /** `sequelize.close()`: the session is released whatever the driver answers. */
    method Close() returns (ok: bool)
      modifies this
      ensures ok == plan.closes
      ensures state == Closed
      ensures steps == old(steps) + [Step.Close]
    {
      ok := plan.closes;
      state := Closed;
      steps := steps + [Step.Close];
    }

    /**
     * The transaction sequence shared by the services: begin; run; commit; on
     * a failed run or commit, roll back and rethrow. The session is left
     * committed, rolled back, or where the failing step left it.
     */
    method RunTransaction(statement: Value, replacements: Value, guardRollback: bool) returns (outcome: TxOutcome)
      requires state == Idle
      modifies this
      ensures outcome == TransactionOutcome(plan, guardRollback)
      ensures steps == old(steps) + TransactionSteps(plan, statement, replacements)
      ensures outcome.Done? ==> state == Committed
      ensures plan.begins && !outcome.Done? && plan.rollsBack ==> state == RolledBack
    {
      var began := Transaction();
      if !began {
        return Failed(BeginFailed);
      }
      var rows := Query(statement, replacements);
      var failure: FailureCause;
      if rows.Some? {
        var committed := Commit();
        if committed {
          return Done(rows.value);
        }
        failure := CommitFailed;
      } else {
        failure := ExecuteFailed;
      }
      var rolledBack := Rollback();
      if !rolledBack && !guardRollback {
        failure := RollbackFailed;
      }
      outcome := Failed(failure);
    }
  }
}
