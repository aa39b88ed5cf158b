/** Connections, transactions and RunTx. A database connection sees `tables`; every open Begin keeps
    the tables it started from, the outermost one being the committed state. */
module Transactions {
  import opened Prelude
  import opened Schema

  class Database {
    var tables: Tables
    var savepoints: seq<Tables>
    // a statement has failed in the open transaction, so it can only be rolled back
    var aborted: bool

    constructor (initial: Tables)
      ensures tables == initial && savepoints == [] && !aborted
    {
      tables, savepoints, aborted := initial, [], false;
    }

    predicate Idle() reads this { savepoints == [] && !aborted }

    /** BEGIN on the pool, SAVEPOINT inside a transaction. Returns the handle of the new level, or
        0 on error. */
    method Begin(fault: bool) returns (tx: nat)
      modifies this
      ensures tables == old(tables)
      ensures tx == if fault || old(aborted) then 0 else |old(savepoints)| + 1
      ensures tx > 0 ==> savepoints == old(savepoints) + [old(tables)] && !aborted
      ensures tx == 0 ==> savepoints == old(savepoints) && aborted == (savepoints != [])
    {
      if fault || aborted {
        aborted := savepoints != [];
        return 0;
      }
      savepoints := savepoints + [tables];
      tx := |savepoints|;
    }

    /** Executes a statement whose effect on the current tables is `result`. */
    method Exec(result: Option<Tables>, fault: bool) returns (ok: bool)
      modifies this
      ensures savepoints == old(savepoints)
      ensures ok == (!fault && !old(aborted) && result.Some?)
      ensures ok ==> tables == result.value && !aborted
      ensures !ok ==> tables == old(tables) && aborted == (savepoints != [])
    {
      ok := !fault && !aborted && result.Some?;
      if ok {
        tables := result.value;
      } else {
        aborted := savepoints != [];
      }
    }

    /** Executes a statement on the pool while a transaction that has written nothing is open on
        another connection: it commits on its own. */
    method ExecOutside(result: Option<Tables>, fault: bool) returns (ok: bool)
      requires |savepoints| == 1 && savepoints[0] == tables
      modifies this
      ensures aborted == old(aborted)
      ensures ok == (!fault && result.Some?)
      ensures tables == (if ok then result.value else old(tables)) && savepoints == [tables]
    {
      ok := !fault && result.Some?;
      if ok {
        tables := result.value;
        savepoints := [tables];
      }
    }

    /** Commits the level `tx`; a closed level only reports an error. A commit of an aborted
        transaction rolls back. */
    method Commit(tx: nat, fault: bool) returns (ok: bool)
      requires 0 < tx && |savepoints| <= tx
      modifies this
      ensures |old(savepoints)| < tx ==>
        !ok && tables == old(tables) && savepoints == old(savepoints) && aborted == old(aborted)
      ensures |old(savepoints)| == tx ==>
        && ok == (!fault && !old(aborted))
        && savepoints == old(savepoints)[..tx - 1]
        && tables == (if ok then old(tables) else old(savepoints)[tx - 1])
        && aborted == (!ok && savepoints != [])
    {
      if |savepoints| < tx {
        return false;
      }
      ok := !fault && !aborted;
      if !ok {
        tables := savepoints[tx - 1];
      }
      savepoints := savepoints[..tx - 1];
      aborted := !ok && savepoints != [];
    }

    /** Rolls the level `tx` back; after a commit the level is closed and nothing happens. */
    method Rollback(tx: nat)
      requires 0 < tx && |savepoints| <= tx
      modifies this
      ensures |old(savepoints)| < tx ==>
        tables == old(tables) && savepoints == old(savepoints) && aborted == old(aborted)
      ensures |old(savepoints)| == tx ==>
        tables == old(savepoints)[tx - 1] && savepoints == old(savepoints)[..tx - 1] && !aborted
    {
      if |savepoints| == tx {
        tables := savepoints[tx - 1];
        savepoints := savepoints[..tx - 1];
        aborted := false;
      }
    }

    /** The end of RunTx once its body has returned: commit unless the body failed, then the
        deferred rollback. */
    method Finish(tx: nat, bodyFailed: bool, commitFault: bool) returns (failed: bool)
      requires 0 < tx == |savepoints|
      modifies this
      ensures failed == (bodyFailed || commitFault || old(aborted))
      ensures savepoints == old(savepoints)[..tx - 1]
      ensures tables == if failed then old(savepoints)[tx - 1] else old(tables)
      ensures aborted == (failed && !bodyFailed && savepoints != [])
    {
      if bodyFailed {
        failed := true;
      } else {
        var ok := Commit(tx, commitFault);
        failed := !ok;
      }
      Rollback(tx);
    }

    // ----- RunTx over a whole body -----

    /** RunTx of a body given as a tree of statements and nested RunTx calls. On error the tables are
        the ones at its own begin, on success they are the body's effect; the levels opened by
        others are never touched. */
    method RunTx(body: Body) returns (failed: bool)
      requires !aborted
      modifies this
      ensures savepoints == old(savepoints)
      ensures failed <==> Effect(old(tables), body).None?
      ensures tables == if failed then old(tables) else Effect(old(tables), body).value
      ensures aborted ==> failed && savepoints != []
      decreases body, 0
    {
      var tx := Begin(body.beginFault);
      if tx == 0 {
        return true;
      }
      var bodyFailed := RunSteps(body.steps);
      failed := Finish(tx, bodyFailed, body.commitFault);
      assert savepoints == old(savepoints);
    }

    method RunStep(step: Step) returns (failed: bool)
      requires !aborted
      requires savepoints != []
      modifies this
      ensures savepoints == old(savepoints)
      ensures failed <==> EffectOfStep(old(tables), step).None?
      ensures !failed ==> tables == EffectOfStep(old(tables), step).value && !aborted
      decreases step, 0
    {
      match step {
        case Statement(run, fault) =>
          var ok := Exec(run(tables), fault);
          failed := !ok;
        case Nested(body) =>
          failed := RunTx(body);
      }
    }

    method RunSteps(steps: seq<Step>) returns (failed: bool)
      requires !aborted
      requires savepoints != []
      modifies this
      ensures savepoints == old(savepoints)
      ensures failed <==> EffectOfSteps(old(tables), steps).None?
      ensures !failed ==> tables == EffectOfSteps(old(tables), steps).value && !aborted
      decreases steps, 0
    {
      var i := 0;
      while i < |steps|
        invariant 0 <= i <= |steps|
        invariant savepoints == old(savepoints) && !aborted
        invariant EffectOfSteps(old(tables), steps) == EffectOfSteps(tables, steps[i..])
      {
        assert steps[i] in steps;
        failed := RunStep(steps[i]);
        if failed {
          return true;
        }
        i := i + 1;
      }
      failed := false;
    }
  }

  /** The closure passed to RunTx stops at the first step that fails. */
  datatype Step = Statement(run: Tables -> Option<Tables>, fault: bool) | Nested(body: Body)

  datatype Body = Body(steps: seq<Step>, beginFault: bool, commitFault: bool)

  /** The effect of a body that reaches its end, None when something in it fails. */
  function Effect(t: Tables, body: Body): Option<Tables>
    decreases body, 0
  {
    if body.beginFault then None
    else
      var r := EffectOfSteps(t, body.steps);
      if body.commitFault then None else r
  }

  function EffectOfSteps(t: Tables, steps: seq<Step>): Option<Tables>
    decreases steps, 0
  {
    if steps == [] then Some(t)
    else
      var r := EffectOfStep(t, steps[0]);
      if r.None? then None else EffectOfSteps(r.value, steps[1..])
  }

  function EffectOfStep(t: Tables, step: Step): Option<Tables>
    decreases step, 0
  {
    match step
    case Statement(run, fault) => if fault then None else run(t)
    case Nested(body) => Effect(t, body)
  }

  // ----- nesting does not change what a successful body does -----

  /** The statements of a body in the order they are executed. */
  function Flatten(steps: seq<Step>): seq<Step>
    decreases steps, 0
  {
    if steps == [] then [] else FlattenStep(steps[0]) + Flatten(steps[1..])
  }

  function FlattenStep(step: Step): seq<Step>
    decreases step, 0
  {
    match step
    case Statement(_, _) => [step]
    case Nested(body) => Flatten(body.steps)
  }

  predicate NoTxFault(steps: seq<Step>)
    decreases steps, 0
  {
    steps == [] || (NoTxFaultIn(steps[0]) && NoTxFault(steps[1..]))
  }

  predicate NoTxFaultIn(step: Step)
    decreases step, 0
  {
    step.Nested? ==> !step.body.beginFault && !step.body.commitFault && NoTxFault(step.body.steps)
  }

  lemma {:induction false} EffectOfConcat(t: Tables, a: seq<Step>, b: seq<Step>)
    ensures EffectOfSteps(t, a + b)
         == (var r := EffectOfSteps(t, a); if r.None? then None else EffectOfSteps(r.value, b))
    decreases a
  {
    if a == [] {
      assert a + b == b;
    } else {
      assert (a + b)[1..] == a[1..] + b;
      var r := EffectOfStep(t, a[0]);
      if r.Some? { EffectOfConcat(r.value, a[1..], b); }
    }
  }

  /** Wrapping part of a transaction in nested RunTx calls is transparent at every depth: the effect
      is that of the flat sequence of statements in one transaction. */
  lemma {:induction false} NestingIsTransparent(t: Tables, steps: seq<Step>)
    requires NoTxFault(steps)
    ensures EffectOfSteps(t, steps) == EffectOfSteps(t, Flatten(steps))
    decreases steps, 0
  {
    if steps != [] {
      NestedStepIsTransparent(t, steps[0]);
      EffectOfConcat(t, FlattenStep(steps[0]), Flatten(steps[1..]));
      var r := EffectOfStep(t, steps[0]);
      if r.Some? { NestingIsTransparent(r.value, steps[1..]); }
    }
  }

  lemma {:induction false} NestedStepIsTransparent(t: Tables, step: Step)
    requires NoTxFaultIn(step)
    ensures EffectOfStep(t, step) == EffectOfSteps(t, FlattenStep(step))
    decreases step, 0
  {
    match step
    case Statement(run, fault) => assert [step][1..] == [];
    case Nested(body) => NestingIsTransparent(t, body.steps);
  }
}
