/** `transparent_run` as a whole: the iteration repeated over what `select` reports,
    until a failure stops it. The C loop never ends by itself; a schedule is a finite
    prefix of its `select` results. */
module Loop {
  import opened Bytes
  import opened Seqs
  import opened Context
  import opened Descriptors
  import opened Relay
  import opened Iteration

  /** The loop run over `schedule`, stopping at the first failure. */
  function Run(mode: Mode, schedule: seq<SelectOutcome>, s: Streams): Outcome
    decreases |schedule|
  {
    if schedule == [] then Idle(mode, s)
    else
      var h := Step(mode, schedule[0], s);
      if h.status.Stopped? then h
      else Then(h, Run(h.mode, schedule[1..], h.streams))
  }

  /** The invariants every iteration keeps hold of the whole run. */
  lemma {:induction false} RunKeeps(mode: Mode, schedule: seq<SelectOutcome>, s: Streams)
    ensures var r := Run(mode, schedule, s);
      Conserves(s, r.effects, r.streams) && WellFormed(r.effects) && FailFast(r)
    decreases |schedule|
  {
    if schedule != [] {
      var h := Step(mode, schedule[0], s);
      RunUnfold(mode, schedule, s);
      if h.status.Running? {
        var t := Run(h.mode, schedule[1..], h.streams);
        RunKeeps(h.mode, schedule[1..], h.streams);
        ThenKeeps(s, h, t);
      }
    }
  }

  /** A run that is still going kept going at every turn. */
  lemma RunningTurn(mode: Mode, schedule: seq<SelectOutcome>, s: Streams)
    requires schedule != [] && Run(mode, schedule, s).status.Running?
    ensures schedule[0] != SelectError
    ensures var h := Step(mode, schedule[0], s);
      h.status.Running? && Run(h.mode, schedule[1..], h.streams).status.Running?
  {
    RunUnfold(mode, schedule, s);
  }

  /** A run that is still going met no `select` failure. */
  lemma {:induction false} RunningSawNoFailure(mode: Mode, schedule: seq<SelectOutcome>, s: Streams)
    requires Run(mode, schedule, s).status.Running?
    ensures SelectError !in schedule
    decreases |schedule|
  {
    if schedule != [] {
      var h := Step(mode, schedule[0], s);
      RunningTurn(mode, schedule, s);
      RunningSawNoFailure(h.mode, schedule[1..], h.streams);
      NotInTail(schedule, SelectError);
    }
  }

  lemma ThenAssoc(a: Outcome, b: Outcome, c: Outcome)
    ensures Then(Then(a, b), c) == Then(a, Then(b, c))
  {
    AppendAssoc(a.effects, b.effects, c.effects);
  }

  /** One turn of `Run`: a step, then the rest of the schedule unless the step stopped. */
  lemma RunUnfold(mode: Mode, schedule: seq<SelectOutcome>, s: Streams)
    requires schedule != []
    ensures var h := Step(mode, schedule[0], s);
      Run(mode, schedule, s) == (if h.status.Stopped? then h else Then(h, Run(h.mode, schedule[1..], h.streams)))
  {
  }

  /** The loop invariant of `TransparentRun` carried over one iteration. */
  lemma RunAdvance(whole: Outcome, mode: Mode, done: seq<Effect>, todo: seq<SelectOutcome>, q: Streams)
    requires todo != []
    requires whole == Then(Outcome(mode, done, Running, q), Run(mode, todo, q))
    ensures var o := Step(mode, todo[0], q);
      var acc := Outcome(o.mode, done + o.effects, o.status, o.streams);
      if o.status.Stopped? then whole == acc
      else whole == Then(acc, Run(o.mode, todo[1..], o.streams))
  {
    var o := Step(mode, todo[0], q);
    RunUnfold(mode, todo, q);
    if o.status.Running? {
      ThenAssoc(Outcome(mode, done, Running, q), o, Run(o.mode, todo[1..], o.streams));
    }
  }

  /** An exhausted schedule adds nothing to what the loop has done. */
  lemma RunFinish(whole: Outcome, mode: Mode, done: seq<Effect>, q: Streams)
    requires whole == Then(Outcome(mode, done, Running, q), Run(mode, [], q))
    ensures whole == Outcome(mode, done, Running, q)
  {
    AppendEmpty(done);
  }

  /** The loop of the C code, carrying the context and stopping at the first failure:
      it produces exactly what `Run` describes. */
  method TransparentRun(ctx: MuxerContext, schedule: seq<SelectOutcome>, s: Streams)
    returns (final: MuxerContext, effects: seq<Effect>, status: Status, rest: Streams)
    ensures Outcome(final.mode, effects, status, rest) == Run(ctx.mode, schedule, s)
    ensures final == ctx.(mode := final.mode)
  {
    var mode, done, st, q, todo := ctx.mode, [], Running, s, schedule;
    ghost var whole := Run(ctx.mode, schedule, s);
    while todo != [] && st.Running?
      invariant st.Running? ==> whole == Then(Outcome(mode, done, Running, q), Run(mode, todo, q))
      invariant st.Stopped? ==> whole == Outcome(mode, done, st, q)
      decreases |todo|
    {
      RunAdvance(whole, mode, done, todo, q);
      var o := Step(mode, todo[0], q);
      mode, done, st, q, todo := o.mode, done + o.effects, o.status, o.streams, todo[1..];
    }
    if st.Running? {
      RunFinish(whole, mode, done, q);
    }
    final, effects, status, rest := ctx.(mode := mode), done, st, q;
  }
}
