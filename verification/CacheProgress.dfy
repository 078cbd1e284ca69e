/**
  Nobody waits for good: when processes that share the cache's file lock can all
  finish, and how one that keeps the lock stands in the way of the others.
 */
module CacheProgress {
  import opened Results
  import opened Oci
  import opened RootIndex
  import opened CacheLock

  // ----- everyone can finish -----

  /** Whether a process that carries out these calls without errors ends with the file lock. */
  predicate Holding(calls: seq<Call>, locked: bool, owned: bool) {
    if calls == [] then owned
    else
      match calls[0]
      case TakeLock => Holding(calls[1..], true, true)
      case GiveBack => Holding(calls[1..], false, owned && !locked)
      case ReadRoot => Holding(calls[1..], false, false)
      case UpdateRoot(op) =>
        if op.Write? && op.name == "" then Holding(calls[1..], locked, owned) else Holding(calls[1..], false, false)
      case OpenCache => Holding(calls[1..], locked, owned)
  }

  /** The same for a process in the middle of a call. */
  predicate KeepsLock(p: Process, owned: bool) {
    if p.todo == [] then owned
    else
      match p.pc
      case Begin => Holding(p.todo, p.locked, owned)
      case Locking => Holding(p.todo[1..], p.todo[0].TakeLock?, p.todo[0].TakeLock?)
      case Releasing => Holding(p.todo[1..], false, owned && !p.locked)
      case _ => Holding(p.todo[1..], false, false)
  }

  /** Whether process `id` has, or by its remaining calls will end with, the file lock. */
  predicate EndsHolding(st: State, id: nat)
    requires id in st.procs
  {
    KeepsLock(st.procs[id], st.owner == Some(id))
  }

  function Rank(pc: Pc): nat {
    match pc
    case Begin => 8
    case Locking => 7
    case Rechecking => 6
    case Creating => 5
    case Filling => 4
    case Reading => 4
    case Removing => 4
    case Appending => 3
    case Releasing => 2
  }

  function StepsLeft(p: Process): nat {
    if p.todo == [] then 0 else 10 * |p.todo| + Rank(p.pc)
  }

  /** Nobody else has the file lock. */
  predicate FreeFor(st: State, id: nat) {
    st.owner.None? || st.owner == Some(id)
  }

  /** Before there is a layout, the lock is for making one. */
  predicate Early(st: State) {
    st.layout.Absent? && st.owner.Some? && st.owner.value in st.procs ==>
      st.procs[st.owner.value].todo != []
      && (st.procs[st.owner.value].pc.Rechecking? || st.procs[st.owner.value].pc.Creating?)
  }

  lemma StepEarly(base: seq<Descriptor>, st: State, id: nat, outcome: Outcome)
    requires Inv(base, st) && Early(st)
    ensures Early(Step(st, id, outcome))
  {
    hide Inv, RemoveStep, AppendStep, RemoveName, WithName;
    if id in st.procs && st.procs[id].todo != [] {
      EachOk(base, st, id);
      StepOwner(st, id, outcome);
      if st.procs[id].pc.Removing? || st.procs[id].pc.Appending? {
        InsideIsReady(base, st, id);
        UpdateStaysReady(st, id);
      }
    }
  }

  lemma UpdateStaysReady(st: State, id: nat)
    requires id in st.procs && st.procs[id].todo != [] && st.procs[id].todo[0].UpdateRoot? && st.layout.Ready?
    ensures RemoveStep(st, id).layout.Ready? && AppendStep(st, id).layout.Ready?
  {
    hide RemoveName, WithName;
  }

  lemma {:induction false} ExecEarly(base: seq<Descriptor>, st: State, schedule: seq<(nat, Outcome)>)
    requires Init(base, st)
    ensures Early(Exec(st, schedule))
  {
    hide Inv, Step, Init;
    if schedule == [] {
      StartsUnowned(base, st);
    } else {
      var init := schedule[..|schedule| - 1];
      ExecEarly(base, st, init);
      ExecInv(base, st, init);
      StepEarly(base, Exec(st, init), schedule[|schedule| - 1].0, schedule[|schedule| - 1].1);
    }
  }

  /** Process `id` came nearer its end without a change in whether it ends with the lock, and no other was touched. */
  ghost predicate Onward(st: State, st': State, id: nat) {
    && id in st.procs && id in st'.procs && st'.procs == st.procs[id := st'.procs[id]]
    && (FreeFor(st, id) ==> FreeFor(st', id))
    && StepsLeft(st'.procs[id]) < StepsLeft(st.procs[id])
    && EndsHolding(st', id) == EndsHolding(st, id)
  }

  /** A call is over; what is left is `p.todo[1..]`. */
  lemma CallOver(st: State, st': State, id: nat, p': Process)
    requires id in st.procs && st.procs[id].todo != [] && st'.procs == st.procs[id := p'] && (FreeFor(st, id) ==> FreeFor(st', id))
    requires p'.todo == st.procs[id].todo[1..] && p'.pc.Begin?
    requires Holding(p'.todo, p'.locked, st'.owner == Some(id)) == EndsHolding(st, id)
    ensures Onward(st, st', id)
  {
  }

  /** The call goes on. */
  lemma CallGoesOn(st: State, st': State, id: nat, p': Process)
    requires id in st.procs && st.procs[id].todo != [] && st'.procs == st.procs[id := p'] && (FreeFor(st, id) ==> FreeFor(st', id))
    requires p'.todo == st.procs[id].todo && Rank(p'.pc) < Rank(st.procs[id].pc)
    requires KeepsLock(p', st'.owner == Some(id)) == EndsHolding(st, id)
    ensures Onward(st, st', id)
  {
    hide Holding, KeepsLock;
  }

  /** One call. */
  lemma HoldingStep(calls: seq<Call>, locked: bool, owned: bool)
    requires calls != []
    ensures Holding(calls, locked, owned) ==
      match calls[0]
      case TakeLock => Holding(calls[1..], true, true)
      case GiveBack => Holding(calls[1..], false, owned && !locked)
      case ReadRoot => Holding(calls[1..], false, false)
      case UpdateRoot(op) =>
        if op.Write? && op.name == "" then Holding(calls[1..], locked, owned) else Holding(calls[1..], false, false)
      case OpenCache => Holding(calls[1..], locked, owned)
  {
  }

  lemma EnterOn(st: State, id: nat)
    requires id in st.procs && st.procs[id].todo != [] && st.procs[id].pc.Begin?
    requires (st.procs[id].locked ==> st.owner == Some(id)) && Early(st)
    ensures Onward(st, Enter(st, id, Fine), id)
  {
    hide Onward, Holding;
    var p := st.procs[id];
    HoldingStep(p.todo, p.locked, st.owner == Some(id));
    if p.todo[0].OpenCache? || p.todo[0].GiveBack? {
      EnterAround(st, id);
    } else if p.todo[0].UpdateRoot? && p.todo[0].op.Write? && p.todo[0].op.name == "" {
      CallOver(st, Put(st, id, Next(p).(failed := true)), id, Next(p).(failed := true));
    } else {
      CallGoesOn(st, Put(st, id, p.(pc := Locking)), id, p.(pc := Locking));
    }
  }

  lemma EnterAround(st: State, id: nat)
    requires id in st.procs && st.procs[id].todo != [] && st.procs[id].pc.Begin?
    requires (st.procs[id].locked ==> st.owner == Some(id)) && Early(st)
    requires st.procs[id].todo[0].OpenCache? || st.procs[id].todo[0].GiveBack?
    ensures Onward(st, Enter(st, id, Fine), id)
  {
    hide Onward, Holding;
    var p, st' := st.procs[id], Enter(st, id, Fine);
    HoldingStep(p.todo, p.locked, st.owner == Some(id));
    if p.todo[0].GiveBack? {
      CallOver(st, st', id, Next(p).(locked := false));
    } else if st.layout.Absent? {
      assert st.owner != Some(id);
      CallGoesOn(st, st', id, p.(pc := Locking));
    } else {
      CallOver(st, st', id, Next(p).(entered := true));
    }
  }

  lemma LockOn(st: State, id: nat)
    requires id in st.procs && st.procs[id].todo != [] && st.procs[id].pc.Locking? && FreeFor(st, id)
    requires Placed(st.procs[id]) && (st.procs[id].locked ==> st.owner == Some(id))
    ensures Onward(st, LockStep(st, id, Fine), id)
  {
    hide Onward, Holding;
    var p, st' := st.procs[id], LockStep(st, id, Fine);
    assert st'.owner == Some(id);
    if p.todo[0].TakeLock? {
      CallOver(st, st', id, Next(p).(locked := true, pc := Begin));
    } else {
      CallGoesOn(st, st', id, p.(locked := true, pc := AfterLock(p.todo[0])));
    }
  }

  lemma ReleaseOn(st: State, id: nat)
    requires id in st.procs && st.procs[id].todo != [] && st.procs[id].pc.Releasing?
    requires st.procs[id].locked ==> st.owner == Some(id)
    ensures Onward(st, Step(st, id, Fine), id)
  {
    hide Onward, Holding, Enter, LockStep, RemoveStep, AppendStep;
    var p, st' := st.procs[id], Step(st, id, Fine);
    CallOver(st, st', id, st'.procs[id]);
  }

  /** A step inside a call keeps hold of everything and gets nearer to letting go. */
  ghost predicate Inside(st: State, st': State, id: nat) {
    && id in st.procs && id in st'.procs && st'.owner == st.owner && st'.procs == st.procs[id := st'.procs[id]]
    && var p, p' := st.procs[id], st'.procs[id];
       p'.todo == p.todo && p'.locked == p.locked && Rank(p'.pc) < Rank(p.pc) && !p'.pc.Begin? && !p'.pc.Locking?
  }

  lemma UpdateInside(st: State, id: nat)
    requires id in st.procs && st.procs[id].todo != [] && st.procs[id].todo[0].UpdateRoot?
    ensures st.procs[id].pc.Removing? ==> Inside(st, RemoveStep(st, id), id)
    ensures st.procs[id].pc.Appending? ==> Inside(st, AppendStep(st, id), id)
  {
    hide RemoveName, WithName;
  }

  lemma StepInside(st: State, id: nat)
    requires id in st.procs && st.procs[id].todo != [] && Placed(st.procs[id]) && Critical(st.procs[id].pc)
    ensures Inside(st, Step(st, id, Fine), id)
  {
    hide RemoveStep, AppendStep, Enter, LockStep;
    if st.procs[id].pc.Removing? || st.procs[id].pc.Appending? {
      UpdateInside(st, id);
    }
  }

  lemma InsideOn(st: State, id: nat)
    requires id in st.procs && st.procs[id].todo != [] && st.owner == Some(id)
    requires Placed(st.procs[id]) && Critical(st.procs[id].pc) && st.procs[id].locked
    ensures Onward(st, Step(st, id, Fine), id)
  {
    hide Onward, Holding, Step;
    StepInside(st, id);
    CallGoesOn(st, Step(st, id, Fine), id, Step(st, id, Fine).procs[id]);
  }

  /** A step either waits for somebody else's lock or brings its process nearer its end. */
  lemma StepsOn(base: seq<Descriptor>, st: State, id: nat)
    requires Inv(base, st) && Early(st) && id in st.procs && st.procs[id].todo != []
    ensures Onward(st, Step(st, id, Fine), id) || (!FreeFor(st, id) && Step(st, id, Fine) == st)
  {
    hide Inv, Onward, Holding, Enter, Placed, RemoveStep, AppendStep, KeepsLock, Early;
    EachOk(base, st, id);
    if st.procs[id].pc.Begin? {
      EnterOn(st, id);
    } else if st.procs[id].pc.Locking? {
      if FreeFor(st, id) {
        LockOn(st, id);
      }
    } else if st.procs[id].pc.Releasing? {
      ReleaseOn(st, id);
    } else {
      InsideOn(st, id);
    }
  }

  function Turns(id: nat, n: nat): seq<(nat, Outcome)> {
    seq(n, _ => (id, Fine))
  }

  lemma {:induction false} ExecAppend(st: State, a: seq<(nat, Outcome)>, b: seq<(nat, Outcome)>)
    ensures Exec(st, a + b) == Exec(Exec(st, a), b)
  {
    hide Step;
    if b == [] {
      assert a + b == a;
    } else {
      assert (a + b)[..|a + b| - 1] == a + b[..|b| - 1];
      ExecAppend(st, a, b[..|b| - 1]);
    }
  }

  /** On its own a process comes to its end, with the lock exactly if its calls end so. */
  lemma {:induction false} FinishOne(base: seq<Descriptor>, st: State, id: nat) returns (n: nat)
    requires Inv(base, st) && Early(st) && id in st.procs && FreeFor(st, id)
    ensures var st' := Exec(st, Turns(id, n));
      && Inv(base, st') && Early(st') && id in st'.procs && st'.procs == st.procs[id := st'.procs[id]]
      && st'.procs[id].todo == [] && FreeFor(st', id)
      && (st'.owner == Some(id) <==> EndsHolding(st, id))
    decreases StepsLeft(st.procs[id])
  {
    hide Inv, Step, Holding, StepsLeft, Early;
    if st.procs[id].todo == [] {
      n := 0;
      OwnRecord(st, id);
    } else {
      StepsOn(base, st, id);
      StepInv(base, st, id, Fine);
      StepEarly(base, st, id, Fine);
      var next := Step(st, id, Fine);
      var more := FinishOne(base, next, id);
      n := more + 1;
      assert Exec(st, Turns(id, 1)) == next by {
        assert Turns(id, 1)[..0] == [];
      }
      assert Turns(id, n) == Turns(id, 1) + Turns(id, more);
      ExecAppend(st, Turns(id, 1), Turns(id, more));
    }
  }

  predicate AllFine(schedule: seq<(nat, Outcome)>) {
    forall k :: 0 <= k < |schedule| ==> schedule[k].1.Fine?
  }

  ghost predicate AllDone(st: State) {
    forall id :: id in st.procs ==> st.procs[id].todo == []
  }

  /** Processes that do not end with the lock finish one after another. */
  lemma {:induction false} FinishRest(base: seq<Descriptor>, st: State, left: set<nat>) returns (more: seq<(nat, Outcome)>)
    requires Inv(base, st) && Early(st) && st.owner.None?
    requires forall id :: id in left && id in st.procs ==> !EndsHolding(st, id)
    ensures var st' := Exec(st, more);
      && AllFine(more) && Inv(base, st') && Early(st') && st'.owner.None? && st'.procs.Keys == st.procs.Keys
      && forall id :: id in st.procs ==> if id in left then st'.procs[id].todo == [] else st'.procs[id] == st.procs[id]
    decreases left
  {
    hide Inv, Step, KeepsLock, Early;
    if left == {} {
      more := [];
    } else {
      var id :| id in left;
      if id in st.procs {
        var n := FinishOne(base, st, id);
        var next := Exec(st, Turns(id, n));
        var rest := FinishRest(base, next, left - {id});
        more := Turns(id, n) + rest;
        ExecAppend(st, Turns(id, n), rest);
      } else {
        more := FinishRest(base, st, left - {id});
      }
    }
  }

  lemma {:induction false} OwnerIsAProcess(base: seq<Descriptor>, st: State, schedule: seq<(nat, Outcome)>)
    requires Init(base, st)
    ensures var now := Exec(st, schedule); now.owner.Some? ==> now.owner.value in now.procs
  {
    hide Step, Init;
    if schedule == [] {
      StartsUnowned(base, st);
    } else {
      OwnerIsAProcess(base, st, schedule[..|schedule| - 1]);
      StepOwner(Exec(st, schedule[..|schedule| - 1]), schedule[|schedule| - 1].0, schedule[|schedule| - 1].1);
    }
  }

  lemma StartsUnowned(base: seq<Descriptor>, st: State)
    requires Init(base, st)
    ensures st.owner.None?
  {
  }

  /** The lock stays where it was, or passes between nobody and the process that took the step. */
  ghost predicate OwnerOk(st: State, st': State, id: nat) {
    st.procs.Keys <= st'.procs.Keys
    && (st'.owner == st.owner || (st'.owner.None? && id in st.procs && st.procs[id].locked)
        || (st'.owner == Some(id) && id in st.procs && FreeFor(st, id))
        || (st'.owner == Some(id) && id in st.procs && st.procs[id].locked))
  }

  lemma EnterOwner(st: State, id: nat, outcome: Outcome)
    requires id in st.procs && st.procs[id].todo != []
    ensures OwnerOk(st, Enter(st, id, outcome), id) && OwnerOk(st, LockStep(st, id, outcome), id)
  {
  }

  lemma UpdateOwner(st: State, id: nat)
    requires id in st.procs && st.procs[id].todo != [] && st.procs[id].todo[0].UpdateRoot?
    ensures OwnerOk(st, RemoveStep(st, id), id) && OwnerOk(st, AppendStep(st, id), id)
  {
    hide RemoveName, WithName;
  }

  lemma ReleaseOwner(st: State, id: nat, p: Process, error: bool)
    requires id in st.procs && p.locked == st.procs[id].locked
    ensures OwnerOk(st, Unlocked(st, id, p, error), id)
  {
  }

  lemma PutOwner(st: State, id: nat, p: Process)
    ensures forall st': State :: st'.procs == st.procs && st'.owner == st.owner ==> OwnerOk(st, Put(st', id, p), id)
  {
  }

  lemma StepOwner(st: State, id: nat, outcome: Outcome)
    ensures OwnerOk(st, Step(st, id, outcome), id)
  {
    hide RemoveStep, AppendStep, Enter, LockStep, Put, Unlocked, OwnerOk;
    SameOwner(st, id);
    if id in st.procs && st.procs[id].todo != [] {
      var p := st.procs[id];
      EnterOwner(st, id, outcome);
      if p.todo[0].UpdateRoot? {
        UpdateOwner(st, id);
      }
      ReleaseOwner(st, id, Next(p).(entered := p.entered || p.todo[0].OpenCache?), outcome.UnlockError?);
      if p.pc.Rechecking? {
        PutOwner(st, id, p.(pc := if st.layout.Absent? then Creating else Releasing));
      } else if p.pc.Creating? {
        PutOwner(st, id, p.(pc := Filling));
      } else {
        PutOwner(st, id, p.(pc := Releasing));
      }
    }
  }

  lemma SameOwner(st: State, id: nat)
    ensures OwnerOk(st, st, id)
  {
  }

  /** No step without an error changes whether a process ends with the lock. */
  lemma StepEndsHolding(base: seq<Descriptor>, st: State, r: nat, id: nat)
    requires Inv(base, st) && Early(st) && id in st.procs
    ensures var st' := Step(st, r, Fine); id in st'.procs && EndsHolding(st', id) == EndsHolding(st, id)
  {
    hide Inv, Step, KeepsLock, Early;
    if r in st.procs && st.procs[r].todo != [] {
      StepsOn(base, st, r);
      StepOwner(st, r, Fine);
      EachOk(base, st, r);
    } else {
      IdleStep(st, r, Fine);
    }
  }

  lemma {:induction false} ExecEndsHolding(base: seq<Descriptor>, st: State, more: seq<(nat, Outcome)>, id: nat)
    requires Inv(base, st) && Early(st) && id in st.procs && AllFine(more)
    ensures var now := Exec(st, more);
      Inv(base, now) && Early(now) && id in now.procs && EndsHolding(now, id) == EndsHolding(st, id)
  {
    hide Inv, Step, EndsHolding, Early;
    if more != [] {
      var init, last := more[..|more| - 1], more[|more| - 1];
      ExecEndsHolding(base, st, init, id);
      StepEndsHolding(base, Exec(st, init), last.0, id);
      StepInv(base, Exec(st, init), last.0, last.1);
      StepEarly(base, Exec(st, init), last.0, last.1);
    }
  }

  /** At most one process ends with the lock. */
  ghost predicate OneEndsHolding(st: State) {
    forall a, b :: a in st.procs && b in st.procs && EndsHolding(st, a) && EndsHolding(st, b) ==> a == b
  }

  /** The lock is free, or whoever has it gives it back in the end. */
  ghost predicate HolderGivesBack(st: State) {
    st.owner.Some? && st.owner.value in st.procs ==> !EndsHolding(st, st.owner.value)
  }

  lemma FinishAll(base: seq<Descriptor>, st: State) returns (more: seq<(nat, Outcome)>)
    requires Inv(base, st) && Early(st) && st.owner.None? && OneEndsHolding(st)
    ensures AllFine(more) && AllDone(Exec(st, more))
  {
    hide Inv, Step, KeepsLock, Early, Exec;
    var keepers := set id | id in st.procs && EndsHolding(st, id);
    var first := FinishRest(base, st, st.procs.Keys - keepers);
    var next := Exec(st, first);
    if keepers == {} {
      more := first;
    } else {
      var k :| k in keepers;
      var n := FinishOne(base, next, k);
      more := first + Turns(k, n);
      ExecAppend(st, first, Turns(k, n));
    }
  }

  /**
    No deadlock: from a reachable state whose holder, if any, gives the lock back in the end, every
    process can finish if and only if at most one of them ends with the lock.
   */
  lemma EveryoneCanFinishIff(base: seq<Descriptor>, st: State, schedule: seq<(nat, Outcome)>)
    requires Init(base, st) && HolderGivesBack(Exec(st, schedule))
    ensures (exists more :: AllFine(more) && AllDone(Exec(Exec(st, schedule), more))) <==> OneEndsHolding(Exec(st, schedule))
  {
    hide Inv, Step, EndsHolding, Init, Exec, AllDone, AllFine, Early;
    var now := Exec(st, schedule);
    ExecInv(base, st, schedule);
    ExecEarly(base, st, schedule);
    OwnerIsAProcess(base, st, schedule);
    if OneEndsHolding(now) {
      var more := FinishFrom(base, now);
    }
    if more :| AllFine(more) && AllDone(Exec(now, more)) {
      forall a, b | a in now.procs && b in now.procs && EndsHolding(now, a) && EndsHolding(now, b)
        ensures a == b
      {
        ExecEndsHolding(base, now, more, a);
        ExecEndsHolding(base, now, more, b);
        DoneHolds(Exec(now, more), a);
        DoneHolds(Exec(now, more), b);
      }
    }
  }

  lemma DoneHolds(st: State, id: nat)
    requires AllDone(st) && id in st.procs && EndsHolding(st, id)
    ensures st.owner == Some(id)
  {
  }

  lemma FinishFrom(base: seq<Descriptor>, st: State) returns (more: seq<(nat, Outcome)>)
    requires Inv(base, st) && Early(st) && OneEndsHolding(st) && HolderGivesBack(st) && (st.owner.Some? ==> st.owner.value in st.procs)
    ensures AllFine(more) && AllDone(Exec(st, more))
  {
    hide Inv, Step, KeepsLock, Exec, AllDone, Early;
    if st.owner.Some? {
      var id := st.owner.value;
      var n := FinishOne(base, st, id);
      var next := Exec(st, Turns(id, n));
      forall q | q in st.procs
        ensures q in next.procs && EndsHolding(next, q) == EndsHolding(st, q)
      {
        ExecEndsHolding(base, st, Turns(id, n), q);
      }
      var rest := FinishAll(base, next);
      more := Turns(id, n) + rest;
      ExecAppend(st, Turns(id, n), rest);
    } else {
      more := FinishAll(base, st);
    }
  }

  /** A process that has finished has the file lock. */
  ghost predicate KeptBy(st: State, q: nat) {
    st.owner == Some(q) && q in st.procs && st.procs[q].todo == []
  }

  /** While it does, no step without an error changes that, or moves a process that waits for the lock. */
  lemma KeptStep(base: seq<Descriptor>, st: State, q: nat, r: nat, id: nat)
    requires Inv(base, st) && KeptBy(st, q)
    requires id in st.procs && id != q && st.procs[id].todo != [] && st.procs[id].pc.Locking?
    ensures var st' := Step(st, r, Fine);
      KeptBy(st', q) && id in st'.procs && st'.procs[id] == st.procs[id]
  {
    hide Inv, RemoveStep, AppendStep, Placed;
    EachOk(base, st, id);
    if r in st.procs {
      EachOk(base, st, r);
    }
  }

  /** Such a process makes everyone who waits for the lock wait for good. */
  lemma {:induction false} KeptLockBlocks(base: seq<Descriptor>, st: State, q: nat, id: nat, more: seq<(nat, Outcome)>)
    requires Inv(base, st) && KeptBy(st, q) && AllFine(more)
    requires id in st.procs && id != q && st.procs[id].todo != [] && st.procs[id].pc.Locking?
    ensures var now := Exec(st, more); Inv(base, now) && KeptBy(now, q) && id in now.procs && now.procs[id] == st.procs[id]
  {
    hide Inv, Step, KeptBy;
    if more != [] {
      var init, last := more[..|more| - 1], more[|more| - 1];
      KeptLockBlocks(base, st, q, id, init);
      KeptStep(base, Exec(st, init), q, last.0, id);
      StepInv(base, Exec(st, init), last.0, last.1);
    }
  }
}
