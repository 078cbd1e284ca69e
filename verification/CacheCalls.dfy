/**
  What the calls of a process come to: which updates are in the log, when a call
  fails, and what each call does when nobody interferes.
 */
module CacheCalls {
  import opened Results
  import opened Oci
  import opened RootIndex
  import opened CacheLock
  import opened CacheProgress

  // ----- the log is an interleaving of the programs -----

  /** The updates of a program, in order. */
  function Updates(calls: seq<Call>): seq<Op> {
    if calls == [] then []
    else (if calls[0].UpdateRoot? then [calls[0].op] else []) + Updates(calls[1..])
  }

  /** The part of the log that one process wrote. */
  function OpsBy(log: seq<(nat, Op)>, id: nat): seq<Op> {
    if log == [] then []
    else OpsBy(log[..|log| - 1], id) + if log[|log| - 1].0 == id then [log[|log| - 1].1] else []
  }

  function Pending(p: Process): seq<Op> {
    if p.todo != [] && p.pc.Releasing? then Updates(p.todo[1..]) else Updates(p.todo)
  }

  /** Unless a call failed, what is done and what is left make up the program. */
  predicate Accounted(p: Process) {
    !p.failed ==> Updates(p.program) == p.done + Pending(p)
  }

  ghost predicate LogInv(st: State) {
    && (forall id :: id in st.procs ==> Accounted(st.procs[id]) && OpsBy(st.log, id) == st.procs[id].done)
  }

  /** A step by `id` either leaves the log and its `done` alone, or adds the same update to both. */
  ghost predicate Recorded(st: State, st': State, id: nat) {
    && id in st.procs && id in st'.procs && st'.procs == st.procs[id := st'.procs[id]]
    && Accounted(st'.procs[id])
    && ((st'.log == st.log && st'.procs[id].done == st.procs[id].done)
        || (exists op :: st'.log == st.log + [(id, op)] && st'.procs[id].done == st.procs[id].done + [op]))
  }

  /** Moving to the next call without having updated anything. */
  lemma SkipAccounts(p: Process)
    requires p.todo != [] && Accounted(p) && (p.pc.Releasing? || !p.todo[0].UpdateRoot?)
    ensures forall entered, locked :: Accounted(Next(p).(entered := entered, locked := locked))
  {
  }

  /** The update at hand moves from what is left to what is done. */
  lemma DoneAccounts(p: Process)
    requires p.todo != [] && Accounted(p) && !p.pc.Releasing? && p.todo[0].UpdateRoot?
    ensures Accounted(p.(pc := Releasing, done := p.done + [p.todo[0].op]))
  {
    var op, rest := p.todo[0].op, Updates(p.todo[1..]);
    assert Updates(p.todo) == [op] + rest;
    assert p.done + ([op] + rest) == p.done + [op] + rest;
  }

  lemma PutRecorded(st: State, st': State, id: nat, p: Process)
    requires id in st.procs && Accounted(p) && p.done == st.procs[id].done
    requires st'.procs == st.procs[id := p] && st'.log == st.log
    ensures Recorded(st, st', id)
  {
  }

  lemma EnterAccounts(st: State, id: nat, outcome: Outcome)
    requires id in st.procs && st.procs[id].todo != [] && Accounted(st.procs[id]) && st.procs[id].pc.Begin?
    ensures Recorded(st, Enter(st, id, outcome), id)
  {
    hide Updates, Recorded;
    var p, st' := st.procs[id], Enter(st, id, outcome);
    match p.todo[0]
    case OpenCache =>
      SkipAccounts(p);
      PutRecorded(st, st', id, if st.layout.Absent? then p.(pc := Locking) else Next(p).(entered := true));
    case GiveBack =>
      SkipAccounts(p);
      PutRecorded(st, st', id, Next(p).(locked := false));
    case UpdateRoot(op) =>
      PutRecorded(st, st', id, if op.Write? && op.name == "" then Next(p).(failed := true) else p.(pc := Locking));
    case _ => PutRecorded(st, st', id, p.(pc := Locking));
  }

  lemma LockAccounts(st: State, id: nat, outcome: Outcome)
    requires id in st.procs && st.procs[id].todo != [] && Accounted(st.procs[id]) && st.procs[id].pc.Locking?
    ensures Recorded(st, LockStep(st, id, outcome), id)
  {
    hide Updates, Recorded;
    var p, st' := st.procs[id], LockStep(st, id, outcome);
    if outcome.LockError? && !p.locked {
      PutRecorded(st, st', id,
        (if p.todo[0].OpenCache? then p.(todo := [], pc := Begin) else Next(p)).(failed := true));
    } else if !CanLock(st, id) {
      OwnRecord(st, id);
      PutRecorded(st, st', id, p);
    } else if p.todo[0].TakeLock? {
      SkipAccounts(p);
      var p' := Next(p).(locked := true, pc := Begin);
      assert st.procs[id := Next(p)][id := p'] == st.procs[id := p'];
      PutRecorded(st, st', id, p');
    } else {
      AfterLockNotReleasing(p.todo[0]);
      PutRecorded(st, st', id, p.(locked := true, pc := AfterLock(p.todo[0])));
    }
  }

  lemma AfterLockNotReleasing(call: Call)
    ensures !AfterLock(call).Releasing?
  {
  }

  lemma UpdateAccounts(st: State, id: nat)
    requires id in st.procs && st.procs[id].todo != [] && Accounted(st.procs[id])
    requires st.procs[id].todo[0].UpdateRoot?
    ensures st.procs[id].pc.Removing? ==> Recorded(st, RemoveStep(st, id), id)
    ensures st.procs[id].pc.Appending? ==> Recorded(st, AppendStep(st, id), id)
  {
    hide RemoveName, WithName, Updates;
    if !st.procs[id].pc.Releasing? {
      DoneAccounts(st.procs[id]);
    }
  }

  /** A call that updates nothing reaches its end with nothing more done. */
  lemma FirstCall(calls: seq<Call>)
    requires calls != []
    ensures Updates(calls) == (if calls[0].UpdateRoot? then [calls[0].op] else []) + Updates(calls[1..])
    ensures !calls[0].UpdateRoot? ==> Updates(calls) == Updates(calls[1..])
  {
  }

  lemma EndAccounts(p: Process)
    requires p.todo != [] && Accounted(p) && !p.todo[0].UpdateRoot? && !p.pc.Releasing?
    ensures Accounted(p.(pc := Releasing)) && Accounted(p.(pc := Creating)) && Accounted(p.(pc := Filling))
  {
    hide Updates;
    FirstCall(p.todo);
  }

  /** The steps that open the cache or read the list write nothing down. */
  lemma QuietAccounts(st: State, id: nat, outcome: Outcome)
    requires id in st.procs && st.procs[id].todo != [] && Accounted(st.procs[id])
    requires !st.procs[id].todo[0].UpdateRoot?
    requires var pc := st.procs[id].pc; pc.Rechecking? || pc.Creating? || pc.Filling? || pc.Reading?
    ensures Recorded(st, Step(st, id, outcome), id)
  {
    hide Enter, LockStep, RemoveStep, AppendStep, Unlocked, Next, Updates, Recorded, Accounted;
    var p, st' := st.procs[id], Step(st, id, outcome);
    EndAccounts(p);
    var next := if p.pc.Creating? then Filling else if p.pc.Rechecking? && st.layout.Absent? then Creating else Releasing;
    PutRecorded(st, st', id, p.(pc := next));
  }

  lemma ReleaseAccounts(st: State, id: nat, outcome: Outcome)
    requires id in st.procs && st.procs[id].todo != [] && Accounted(st.procs[id]) && st.procs[id].pc.Releasing?
    ensures Recorded(st, Step(st, id, outcome), id)
  {
    hide Enter, LockStep, RemoveStep, AppendStep, Updates, Recorded, Accounted;
    var p, st' := st.procs[id], Step(st, id, outcome);
    SkipAccounts(p);
    PutRecorded(st, st', id, Next(p).(entered := p.entered || p.todo[0].OpenCache?, locked := false));
  }

  lemma StepAccounts(st: State, id: nat, outcome: Outcome)
    requires id in st.procs && st.procs[id].todo != [] && Accounted(st.procs[id]) && Placed(st.procs[id])
    ensures Recorded(st, Step(st, id, outcome), id)
  {
    hide Enter, LockStep, RemoveStep, AppendStep, Unlocked, Put, Next, Updates, Recorded, Accounted;
    match st.procs[id].pc
    case Begin => EnterAccounts(st, id, outcome);
    case Locking => LockAccounts(st, id, outcome);
    case Removing => UpdateAccounts(st, id);
    case Appending => UpdateAccounts(st, id);
    case Releasing => ReleaseAccounts(st, id, outcome);
    case _ => QuietAccounts(st, id, outcome);
  }

  lemma OpsBySnoc(log: seq<(nat, Op)>, entry: (nat, Op), id: nat)
    ensures OpsBy(log + [entry], id) == OpsBy(log, id) + if entry.0 == id then [entry.1] else []
  {
    assert (log + [entry])[..|log|] == log;
  }

  lemma StepLogInv(base: seq<Descriptor>, st: State, id: nat, outcome: Outcome)
    requires Inv(base, st) && LogInv(st)
    ensures LogInv(Step(st, id, outcome))
  {
    hide Step, OpsBy, Accounted, Inv;
    if id in st.procs && st.procs[id].todo != [] {
      EachOk(base, st, id);
      var st' := Step(st, id, outcome);
      StepAccounts(st, id, outcome);
      if st'.log != st.log {
        var op :| st'.log == st.log + [(id, op)] && st'.procs[id].done == st.procs[id].done + [op];
        forall q | q in st'.procs
          ensures OpsBy(st'.log, q) == st'.procs[q].done
        {
          OpsBySnoc(st.log, (id, op), q);
        }
      }
    } else {
      IdleStep(st, id, outcome);
    }
  }

  /** Each process's part of the log is its program's updates in order, all of them once it has finished without error. */
  lemma {:induction false} LogIsInterleaving(base: seq<Descriptor>, st: State, schedule: seq<(nat, Outcome)>)
    requires Init(base, st)
    ensures LogInv(Exec(st, schedule))
    ensures var now := Exec(st, schedule);
      forall id :: id in now.procs && now.procs[id].todo == [] && !now.procs[id].failed ==>
        OpsBy(now.log, id) == Updates(now.procs[id].program)
  {
    hide Step, Updates, Inv;
    if schedule != [] {
      var last := schedule[|schedule| - 1];
      LogIsInterleaving(base, st, schedule[..|schedule| - 1]);
      ExecInv(base, st, schedule[..|schedule| - 1]);
      StepLogInv(base, Exec(st, schedule[..|schedule| - 1]), last.0, last.1);
    }
    NoUpdates();
  }

  lemma NoUpdates()
    ensures Updates([]) == []
  {
  }

  // ----- calls fail for no other reason than they should -----

  /** The call is refused: a write without a name. */
  predicate Refused(call: Call) {
    call.UpdateRoot? && call.op.Write? && call.op.name == ""
  }

  /** A step makes its process fail only for want of the lock or of a name, and keeps the rest of its calls. */
  ghost predicate FailsWell(st: State, st': State, id: nat, outcome: Outcome)
    requires id in st.procs && st.procs[id].todo != []
  {
    && id in st'.procs && st'.procs == st.procs[id := st'.procs[id]]
    && var p, p' := st.procs[id], st'.procs[id];
       && p'.program == p.program && (p'.todo == p.todo || p'.todo == p.todo[1..] || p'.todo == [])
       && (p'.failed && !p.failed ==> (outcome.LockError? && p.pc.Locking? && !p.locked) || (p.pc.Begin? && Refused(p.todo[0])))
  }

  lemma EnterFailsWell(st: State, id: nat, outcome: Outcome)
    requires id in st.procs && st.procs[id].todo != [] && st.procs[id].pc.Begin?
    ensures FailsWell(st, Enter(st, id, outcome), id, outcome)
  {
    hide FailsWell;
    var p, st' := st.procs[id], Enter(st, id, outcome);
    if p.todo[0].OpenCache? {
      PutFailsWell(st, st', id, if st.layout.Absent? then p.(pc := Locking) else Next(p).(entered := true), outcome);
    } else if p.todo[0].GiveBack? {
      PutFailsWell(st, st', id, Next(p).(locked := false), outcome);
    } else if Refused(p.todo[0]) {
      PutFailsWell(st, st', id, Next(p).(failed := true), outcome);
    } else {
      PutFailsWell(st, st', id, p.(pc := Locking), outcome);
    }
  }

  lemma PutFailsWell(st: State, st': State, id: nat, p': Process, outcome: Outcome)
    requires id in st.procs && st.procs[id].todo != [] && st'.procs == st.procs[id := p']
    requires p'.program == st.procs[id].program && (p'.todo == st.procs[id].todo || p'.todo == st.procs[id].todo[1..])
    requires p'.failed && !st.procs[id].failed ==> st.procs[id].pc.Begin? && Refused(st.procs[id].todo[0])
    ensures FailsWell(st, st', id, outcome)
  {
  }

  lemma LockFailsWell(st: State, id: nat, outcome: Outcome)
    requires id in st.procs && st.procs[id].todo != [] && st.procs[id].pc.Locking?
    ensures FailsWell(st, LockStep(st, id, outcome), id, outcome)
  {
    OwnRecord(st, id);
  }

  lemma PlainFailsWell(st: State, id: nat, outcome: Outcome)
    requires id in st.procs && st.procs[id].todo != []
    requires var pc := st.procs[id].pc; pc.Rechecking? || pc.Creating? || pc.Filling? || pc.Reading? || pc.Releasing?
    ensures FailsWell(st, Step(st, id, outcome), id, outcome)
  {
    hide Enter, LockStep, RemoveStep, AppendStep;
  }

  lemma UpdateFailsWell(st: State, id: nat, outcome: Outcome)
    requires id in st.procs && st.procs[id].todo != [] && st.procs[id].todo[0].UpdateRoot? && st.layout.Ready?
    ensures FailsWell(st, RemoveStep(st, id), id, outcome)
    ensures st.procs[id].todo[0].op.Write? ==> FailsWell(st, AppendStep(st, id), id, outcome)
  {
    hide RemoveName, WithName;
  }

  lemma StepFailsWell(base: seq<Descriptor>, st: State, id: nat, outcome: Outcome)
    requires Inv(base, st) && id in st.procs && st.procs[id].todo != []
    ensures FailsWell(st, Step(st, id, outcome), id, outcome)
  {
    hide Inv, Enter, LockStep, RemoveStep, AppendStep, FailsWell;
    EachOk(base, st, id);
    if st.procs[id].pc.Begin? {
      EnterFailsWell(st, id, outcome);
    } else if st.procs[id].pc.Locking? {
      LockFailsWell(st, id, outcome);
    } else if st.procs[id].pc.Removing? || st.procs[id].pc.Appending? {
      InsideIsReady(base, st, id);
      UpdateFailsWell(st, id, outcome);
    } else {
      PlainFailsWell(st, id, outcome);
    }
  }

  predicate NoneRefused(calls: seq<Call>) {
    forall k :: 0 <= k < |calls| ==> !Refused(calls[k])
  }

  predicate NoLockErrors(schedule: seq<(nat, Outcome)>) {
    forall k :: 0 <= k < |schedule| ==> !schedule[k].1.LockError?
  }

  /** A process whose writes all have names fails only if some `Lock` does. */
  lemma {:induction false} NeverFails(base: seq<Descriptor>, st: State, schedule: seq<(nat, Outcome)>, id: nat)
    requires Init(base, st) && id in st.procs && NoneRefused(st.procs[id].program) && NoLockErrors(schedule)
    ensures var now := Exec(st, schedule);
      && id in now.procs && now.procs[id].program == st.procs[id].program
      && !now.procs[id].failed && NoneRefused(now.procs[id].todo)
  {
    hide Inv, Step, Init, Refused;
    if schedule == [] {
      StartsFresh(base, st, id);
    } else {
      var init, last := schedule[..|schedule| - 1], schedule[|schedule| - 1];
      NeverFails(base, st, init, id);
      ExecInv(base, st, init);
      var before := Exec(st, init);
      if last.0 in before.procs && before.procs[last.0].todo != [] {
        StepFailsWell(base, before, last.0, last.1);
      } else {
        IdleStep(before, last.0, last.1);
      }
    }
  }

  lemma StartsFresh(base: seq<Descriptor>, st: State, id: nat)
    requires Init(base, st) && id in st.procs
    ensures !st.procs[id].failed && st.procs[id].todo == st.procs[id].program
  {
  }

  /** Once such a process has finished, its part of the log is exactly its program's updates, in order. */
  lemma FinishedIsLogged(base: seq<Descriptor>, st: State, schedule: seq<(nat, Outcome)>, id: nat)
    requires Init(base, st) && id in st.procs && NoneRefused(st.procs[id].program) && NoLockErrors(schedule)
    requires id in Exec(st, schedule).procs && Exec(st, schedule).procs[id].todo == []
    ensures OpsBy(Exec(st, schedule).log, id) == Updates(st.procs[id].program)
  {
    hide Inv, Exec, Init, Updates, NoneRefused;
    NeverFails(base, st, schedule, id);
    LogIsInterleaving(base, st, schedule);
  }

  // ----- each call on its own does what the provider's function is for -----

  /** Process `id` is at the beginning of a call and nobody else has the lock. */
  ghost predicate AtACall(base: seq<Descriptor>, st: State, id: nat) {
    Inv(base, st) && Early(st) && id in st.procs && st.procs[id].todo != [] && st.procs[id].pc.Begin? && FreeFor(st, id)
  }

  /** A call is over without an error, and nothing but `owner`, `layout`, `log` and `seen` may have changed for others. */
  ghost predicate Called(st: State, st': State, id: nat) {
    && id in st.procs && id in st'.procs && st.procs[id].todo != [] && st'.procs == st.procs[id := st'.procs[id]]
    && st'.procs[id].todo == st.procs[id].todo[1..] && st'.procs[id].pc.Begin? && st'.procs[id].failed == st.procs[id].failed
  }

  lemma TakeLockAlone(base: seq<Descriptor>, st: State, id: nat)
    requires AtACall(base, st, id) && st.procs[id].todo[0].TakeLock?
    ensures var st' := Alone(st, id, 2);
      Called(st, st', id) && st'.owner == Some(id) && st'.procs[id].locked
      && st'.layout == st.layout && st'.log == st.log && st'.seen == st.seen
  {
    hide Inv, RemoveStep, AppendStep;
    EachOk(base, st, id);
    TwoAlone(st, id);
  }

  lemma GiveBackAlone(base: seq<Descriptor>, st: State, id: nat)
    requires AtACall(base, st, id) && st.procs[id].todo[0].GiveBack? && st.procs[id].locked
    ensures var st' := Alone(st, id, 1);
      Called(st, st', id) && st'.owner.None? && !st'.procs[id].locked
      && st'.layout == st.layout && st'.log == st.log && st'.seen == st.seen
  {
    hide Inv, RemoveStep, AppendStep, LockStep;
    TwoAlone(st, id);
  }

  lemma ReadRootAlone(base: seq<Descriptor>, st: State, id: nat)
    requires AtACall(base, st, id) && st.procs[id].todo[0].ReadRoot?
    ensures var st' := Alone(st, id, 4);
      Called(st, st', id) && st'.owner.None? && st'.layout == st.layout && st'.log == st.log
      && st'.seen == st.seen + [(Some(Run(base, Ops(st.log))), |st.log|)]
  {
    hide Inv, Run, Ops, Step;
    ReadyToEnter(base, st, id);
    Locks(st, id);
    var inside := Alone(st, id, 2);
    Reads(inside, id);
    assert Alone(st, id, 3) == Step(inside, id, Fine);
    assert Alone(st, id, 4) == Step(Alone(st, id, 3), id, Fine);
  }

  lemma Reads(st: State, id: nat)
    requires id in st.procs && st.procs[id].todo != [] && st.procs[id].pc.Reading? && st.procs[id].locked && st.layout.Ready?
    requires st.procs[id].todo[0].ReadRoot?
    ensures Step(Step(st, id, Fine), id, Fine) ==
      st.(owner := None, seen := st.seen + [(Some(st.layout.root), |st.log|)], procs := st.procs[id := Next(st.procs[id]).(locked := false)])
  {
    hide Enter, LockStep, RemoveStep, AppendStep;
  }

  /** Entering a call that locks, and locking. */
  lemma Locks(st: State, id: nat)
    requires id in st.procs && st.procs[id].todo != [] && st.procs[id].pc.Begin? && FreeFor(st, id)
    requires st.procs[id].todo[0].ReadRoot? || (st.procs[id].todo[0].UpdateRoot? && !Refused(st.procs[id].todo[0]))
    requires st.procs[id].locked ==> st.owner == Some(id)
    ensures Alone(st, id, 2) ==
      st.(owner := Some(id), procs := st.procs[id := st.procs[id].(locked := true, pc := AfterLock(st.procs[id].todo[0]))])
  {
    hide RemoveStep, AppendStep, LockStep;
    TwoAlone(st, id);
    var p := st.procs[id];
    var waiting := Put(st, id, p.(pc := Locking));
    assert Step(st, id, Fine) == waiting;
    assert Step(waiting, id, Fine) == LockStep(waiting, id, Fine);
    LocksNow(waiting, id);
    assert waiting.procs[id := p.(locked := true, pc := AfterLock(p.todo[0]))] == st.procs[id := p.(locked := true, pc := AfterLock(p.todo[0]))];
  }

  lemma LocksNow(st: State, id: nat)
    requires id in st.procs && st.procs[id].todo != [] && FreeFor(st, id) && !st.procs[id].todo[0].TakeLock?
    requires st.procs[id].locked ==> st.owner == Some(id)
    ensures LockStep(st, id, Fine) ==
      st.(owner := Some(id), procs := st.procs[id := st.procs[id].(locked := true, pc := AfterLock(st.procs[id].todo[0]))])
  {
  }

  lemma UpdateRootAlone(base: seq<Descriptor>, st: State, id: nat)
    requires AtACall(base, st, id) && st.procs[id].todo[0].UpdateRoot? && !Refused(st.procs[id].todo[0])
    ensures var op := st.procs[id].todo[0].op;
      var st' := Alone(st, id, if op.Write? then 5 else 4);
      Called(st, st', id) && st'.owner.None? && st'.seen == st.seen && st'.log == st.log + [(id, op)]
      && st'.layout == Ready(Apply(Run(base, Ops(st.log)), op))
  {
    hide Inv, Run, Ops, RemoveName, WithName, WriteName, Step;
    ReadyToEnter(base, st, id);
    Locks(st, id);
    var inside := Alone(st, id, 2);
    if st.procs[id].todo[0].op.Write? {
      UpdateWrites(inside, id);
      assert Alone(st, id, 3) == Step(inside, id, Fine);
      assert Alone(st, id, 4) == Step(Alone(st, id, 3), id, Fine);
      assert Alone(st, id, 5) == Step(Alone(st, id, 4), id, Fine);
    } else {
      UpdateRemoves(inside, id);
      assert Alone(st, id, 3) == Step(inside, id, Fine);
      assert Alone(st, id, 4) == Step(Alone(st, id, 3), id, Fine);
    }
  }

  lemma UpdateRemoves(st: State, id: nat)
    requires id in st.procs && st.procs[id].todo != [] && st.procs[id].pc.Removing? && st.procs[id].locked && st.layout.Ready?
    requires st.procs[id].todo[0].UpdateRoot? && st.procs[id].todo[0].op.Remove?
    ensures var p, op := st.procs[id], st.procs[id].todo[0].op;
      Step(Step(st, id, Fine), id, Fine) ==
        st.(owner := None, layout := Ready(RemoveName(st.layout.root, op.name)), log := st.log + [(id, op)],
            procs := st.procs[id := Next(p).(locked := false, done := p.done + [op])])
  {
    hide RemoveName, Enter, LockStep, AppendStep;
  }

  lemma UpdateWrites(st: State, id: nat)
    requires id in st.procs && st.procs[id].todo != [] && st.procs[id].pc.Removing? && st.procs[id].locked && st.layout.Ready?
    requires st.procs[id].todo[0].UpdateRoot? && st.procs[id].todo[0].op.Write? && st.procs[id].todo[0].op.name != ""
    ensures var p, op := st.procs[id], st.procs[id].todo[0].op;
      Step(Step(Step(st, id, Fine), id, Fine), id, Fine) ==
        st.(owner := None, layout := Ready(Apply(st.layout.root, op)), log := st.log + [(id, op)],
            procs := st.procs[id := Next(p).(locked := false, done := p.done + [op])])
  {
    hide RemoveName, WithName, Enter, LockStep;
  }

  /** Opening a cache that is there changes nothing; else it makes an empty one. */
  lemma OpenCacheAlone(base: seq<Descriptor>, st: State, id: nat)
    requires AtACall(base, st, id) && st.procs[id].todo[0].OpenCache?
    ensures var st' := Alone(st, id, if st.layout.Absent? then 6 else 1);
      Called(st, st', id) && st'.procs[id].entered && st'.log == st.log && st'.seen == st.seen
      && st'.layout == (if st.layout.Absent? then Ready([]) else st.layout) && (st.layout.Absent? ==> st'.owner.None?)
  {
    hide Inv, RemoveStep, AppendStep;
    EachOk(base, st, id);
    TwoAlone(st, id);
    if st.layout.Absent? {
      assert st.owner.None?;
      var locked := Alone(st, id, 2);
      OpenCreates(locked, id);
      assert Alone(st, id, 3) == Step(locked, id, Fine);
      assert Alone(st, id, 4) == Step(Alone(st, id, 3), id, Fine);
      assert Alone(st, id, 5) == Step(Alone(st, id, 4), id, Fine);
      assert Alone(st, id, 6) == Step(Alone(st, id, 5), id, Fine);
    }
  }

  lemma OpenCreates(st: State, id: nat)
    requires id in st.procs && st.procs[id].todo != [] && st.procs[id].pc.Rechecking? && st.procs[id].locked
    requires st.procs[id].todo[0].OpenCache? && st.layout.Absent? && st.owner == Some(id)
    ensures Step(Step(Step(Step(st, id, Fine), id, Fine), id, Fine), id, Fine) ==
      st.(owner := None, layout := Ready([]), procs := st.procs[id := Next(st.procs[id]).(locked := false, entered := true)])
  {
    hide Enter, LockStep, RemoveStep, AppendStep;
  }

  /** When the lock cannot be had the call fails and changes nothing; failing to open ends the process. */
  lemma LockErrorFails(st: State, id: nat)
    requires id in st.procs && st.procs[id].todo != [] && st.procs[id].pc.Locking? && !st.procs[id].locked
    ensures var p, st' := st.procs[id], Step(st, id, LockError);
      && st'.owner == st.owner && st'.layout == st.layout && st'.log == st.log && st'.seen == st.seen
      && st'.procs == st.procs[id := st'.procs[id]] && st'.procs[id].failed && st'.procs[id].done == p.done && !st'.procs[id].locked
      && st'.procs[id].todo == (if p.todo[0].OpenCache? then [] else p.todo[1..]) && st'.procs[id].pc.Begin?
  {
    hide Enter, RemoveStep, AppendStep;
  }

  /** When letting go fails the provider forgets the lock while the file stays locked for others. */
  lemma UnlockErrorKeepsFile(base: seq<Descriptor>, st: State, id: nat)
    requires Inv(base, st) && id in st.procs && st.procs[id].todo != [] && st.procs[id].locked
    requires st.procs[id].pc.Releasing? || (st.procs[id].pc.Begin? && st.procs[id].todo[0].GiveBack?)
    ensures var st' := Step(st, id, UnlockError);
      id in st'.procs && !st'.procs[id].locked && st'.owner == Some(id) && st'.procs[id].todo == st.procs[id].todo[1..]
  {
    hide Inv, LockStep, RemoveStep, AppendStep;
    EachOk(base, st, id);
  }

  lemma TwoAlone(st: State, id: nat)
    ensures Alone(st, id, 1) == Step(st, id, Fine) && Alone(st, id, 2) == Step(Step(st, id, Fine), id, Fine)
  {
    hide Step;
    assert Alone(st, id, 0) == st;
  }

  lemma AloneMore(st: State, id: nat, n: nat)
    ensures Alone(st, id, n + 2) == Alone(Alone(st, id, n), id, 2)
  {
    hide Step;
    assert Alone(st, id, n + 1) == Step(Alone(st, id, n), id, Fine);
    TwoAlone(Alone(st, id, n), id);
  }

  /** A process past its opening finds the complete list, everything in the log applied. */
  lemma ReadyToEnter(base: seq<Descriptor>, st: State, id: nat)
    requires AtACall(base, st, id) && !st.procs[id].todo[0].OpenCache?
    ensures st.layout == Ready(Run(base, Ops(st.log))) && (st.procs[id].locked ==> st.owner == Some(id))
  {
    hide Run, Ops;
    assert ProcessOk(st.procs[id], id, st.owner, st.layout);
  }
}
