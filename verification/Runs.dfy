/** The scheduler's invariants over whole runs. */
module SchedulerRuns {
  import opened AlertTypes
  import opened AlertRecords
  import opened SchedulerModel
  import opened SchedulerConsistency
  import opened SchedulerQuiet
  import opened SchedulerWakeups

  /** One operation with the answers it gets from its environment. */
  datatype Move = Move(op: Op, env: Env)

  ghost predicate Runnable(s: SchedulerView, moves: seq<Move>, parse: TimeParser)
    decreases |moves|
  {
    moves == [] ||
    (Enabled(s, moves[0].op, moves[0].env)
     && Runnable(Step(s, moves[0].op, moves[0].env, parse), moves[1..], parse))
  }

  ghost function Run(s: SchedulerView, moves: seq<Move>, parse: TimeParser): SchedulerView
    requires Runnable(s, moves, parse)
    decreases |moves|
  {
    if moves == [] then s
    else Run(Step(s, moves[0].op, moves[0].env, parse), moves[1..], parse)
  }

  /** Every operation of the run meets its guards, and the environment works throughout. */
  ghost predicate Guarded(s: SchedulerView, moves: seq<Move>, parse: TimeParser)
    requires Runnable(s, moves, parse)
    decreases |moves|
  {
    moves == [] ||
    (var m := moves[0];
     && Safe(s, m.op, m.env, parse) && Gentle(s, m.op, m.env, parse) && Working(m.env)
     && Guarded(Step(s, m.op, m.env, parse), moves[1..], parse))
  }

  ghost predicate Invariant(s: SchedulerView, parse: TimeParser) {
    Consistent(s, parse) && Quiet(s) && FocusAgrees(s) && Wakeful(s)
  }

  lemma InitialInvariant(rows: Rows, limit: int, parse: TimeParser)
    requires RowsOk(rows, parse) && QuietRows(rows)
    ensures Invariant(InitialView(rows, limit), parse)
  {
  }

  /** Every reachable state of a guarded run is ordered, free of duplicates, mirrored in storage, silent but
      for its active alert, agreed on the focus, and loses no wakeup. */
  lemma {:induction false} RunKeepsInvariant(s: SchedulerView, moves: seq<Move>, parse: TimeParser)
    requires Invariant(s, parse) && Runnable(s, moves, parse) && Guarded(s, moves, parse)
    ensures Invariant(Run(s, moves, parse), parse)
    decreases |moves|
  {
    if moves != [] {
      var m := moves[0];
      StepKeepsConsistencyIff(s, m.op, m.env, parse);
      StepKeepsQuietIff(s, m.op, m.env, parse);
      StepKeepsFocusAgreement(s, m.op, m.env, parse);
      StepLosesNoWakeup(s, m.op, m.env, parse);
      RunKeepsInvariant(Step(s, m.op, m.env, parse), moves[1..], parse);
    }
  }

  ghost predicate AllWorking(moves: seq<Move>) {
    forall i :: 0 <= i < |moves| ==> Working(moves[i].env)
  }

  /** The focus agreement and, in a working environment, the wakeups need no guard at all on the operations. */
  lemma {:induction false} UnguardedRun(s: SchedulerView, moves: seq<Move>, parse: TimeParser)
    requires FocusAgrees(s) && Runnable(s, moves, parse)
    ensures FocusAgrees(Run(s, moves, parse))
    ensures Wakeful(s) && AllWorking(moves) ==> Wakeful(Run(s, moves, parse))
    decreases |moves|
  {
    if moves != [] {
      var m := moves[0];
      StepKeepsFocusAgreement(s, m.op, m.env, parse);
      if Wakeful(s) && Working(m.env) {
        StepLosesNoWakeup(s, m.op, m.env, parse);
      }
      UnguardedRun(Step(s, m.op, m.env, parse), moves[1..], parse);
    }
  }
}
