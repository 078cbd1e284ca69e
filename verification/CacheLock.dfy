/**
  The file lock around the cache's root index, as a state machine.

  Any number of processes, each with one provider and one goroutine, run the
  calls that the provider's functions are made of. `Lock` returns at once when
  the provider holds the lock already, and any `Unlock` lets go of it, so an
  inner call releases what an outer call took. A schedule interleaves single
  steps of the processes in any order.
 */
module CacheLock {
  import opened Results
  import opened Oci
  import opened RootIndex

  /** One call, outermost or nested. */
  datatype Call =
    | OpenCache           // Get: look, lock, look again, create
    | TakeLock            // Lock, in a function that will make further calls
    | GiveBack            // the deferred Unlock of such a function
    | ReadRoot            // Index
    | UpdateRoot(op: Op)  // DescriptorWrite, RemoveDescriptors

  /** Where a process is inside its current call. */
  datatype Pc = Begin | Locking | Rechecking | Creating | Filling | Reading | Removing | Appending | Releasing

  /** index.json: not there, created but still empty, or holding a list. */
  datatype Layout = Absent | Partial | Ready(root: seq<Descriptor>)

  datatype Process = Process(
    program: seq<Call>,  // all its calls
    todo: seq<Call>,     // those not finished
    pc: Pc,
    locked: bool,        // the provider's lock field is set
    entered: bool,       // OpenCache has returned
    failed: bool,        // some Lock returned an error
    done: seq<Op>)       // the updates it has made

  datatype State = State(
    layout: Layout,
    owner: Option<nat>,                      // the process that the kernel gave the file lock
    procs: map<nat, Process>,
    log: seq<(nat, Op)>,                     // updates in the order they took effect
    seen: seq<(Option<seq<Descriptor>>, nat)>,  // what each read saw, and how long the log was
    overwritten: bool)                       // a layout that was there was created anew

  /** How the environment lets a step end. */
  datatype Outcome = Fine | LockError | UnlockError

  // ----- single steps -----

  function Next(p: Process): Process
    requires p.todo != []
  {
    p.(todo := p.todo[1..], pc := Begin)
  }

  function Put(st: State, id: nat, p: Process): State {
    st.(procs := st.procs[id := p])
  }

  /** `Lock`: at once when held already; else waits for the file lock, which a process never keeps from itself. */
  predicate CanLock(st: State, id: nat)
    requires id in st.procs
  {
    st.procs[id].locked || st.owner.None? || st.owner.value == id
  }

  function Locked(st: State, id: nat, pc: Pc): State
    requires id in st.procs
  {
    var p := st.procs[id];
    Put(if p.locked then st else st.(owner := Some(id)), id, p.(locked := true, pc := pc))
  }

  /** `Unlock`: clears the field; the file lock goes too unless the kernel call fails. */
  function Unlocked(st: State, id: nat, p: Process, error: bool): State {
    var out := Put(st, id, p.(locked := false));
    if p.locked && !error then out.(owner := None) else out
  }

  /** The step that a call takes on entry. */
  function Enter(st: State, id: nat, outcome: Outcome): State
    requires id in st.procs && st.procs[id].todo != []
  {
    var p := st.procs[id];
    match p.todo[0]
    case OpenCache =>
      if st.layout.Absent? then Put(st, id, p.(pc := Locking)) else Put(st, id, Next(p).(entered := true))
    case GiveBack => Unlocked(st, id, Next(p), outcome.UnlockError?)
    case UpdateRoot(op) =>
      if op.Write? && op.name == "" then Put(st, id, Next(p).(failed := true)) else Put(st, id, p.(pc := Locking))
    case TakeLock => Put(st, id, p.(pc := Locking))
    case ReadRoot => Put(st, id, p.(pc := Locking))
  }

  function AfterLock(call: Call): Pc {
    match call
    case OpenCache => Rechecking
    case ReadRoot => Reading
    case UpdateRoot(_) => Removing
    case _ => Begin
  }

  function LockStep(st: State, id: nat, outcome: Outcome): State
    requires id in st.procs && st.procs[id].todo != []
  {
    var p := st.procs[id];
    if outcome.LockError? && !p.locked then
      // OpenCache failing ends the process; any other call returns its error
      Put(st, id, (if p.todo[0].OpenCache? then p.(todo := [], pc := Begin) else Next(p)).(failed := true))
    else if !CanLock(st, id) then st
    else if p.todo[0].TakeLock? then Locked(Put(st, id, Next(p)), id, Begin)
    else Locked(st, id, AfterLock(p.todo[0]))
  }

  /** The parts of an update: drop the name, then append. */
  function RemoveStep(st: State, id: nat): State
    requires id in st.procs && st.procs[id].todo != [] && st.procs[id].todo[0].UpdateRoot?
  {
    var p, op := st.procs[id], st.procs[id].todo[0].op;
    if !st.layout.Ready? then Put(st, id, p.(pc := Releasing, failed := true))
    else
      var after := st.(layout := Ready(RemoveName(st.layout.root, op.name)));
      if op.Write? then Put(after, id, p.(pc := Appending))
      else Put(after.(log := st.log + [(id, op)]), id, p.(pc := Releasing, done := p.done + [op]))
  }

  function AppendStep(st: State, id: nat): State
    requires id in st.procs && st.procs[id].todo != [] && st.procs[id].todo[0].UpdateRoot?
  {
    var p, op := st.procs[id], st.procs[id].todo[0].op;
    if !st.layout.Ready? || !op.Write? then Put(st, id, p.(pc := Releasing, failed := true))
    else
      Put(st.(layout := Ready(st.layout.root + [WithName(op.desc, op.name)]), log := st.log + [(id, op)]),
          id, p.(pc := Releasing, done := p.done + [op]))
  }

  /** One step of process `id`; a process that must wait, or has finished, leaves the state alone. */
  function Step(st: State, id: nat, outcome: Outcome): State {
    if id !in st.procs || st.procs[id].todo == [] then st
    else
      var p := st.procs[id];
      match p.pc
      case Begin => Enter(st, id, outcome)
      case Locking => LockStep(st, id, outcome)
      case Rechecking => Put(st, id, p.(pc := if st.layout.Absent? then Creating else Releasing))
      case Creating =>
        Put(st.(layout := Partial, overwritten := st.overwritten || !st.layout.Absent?), id, p.(pc := Filling))
      case Filling => Put(st.(layout := Ready([])), id, p.(pc := Releasing))
      case Reading =>
        Put(st.(seen := st.seen + [(if st.layout.Ready? then Some(st.layout.root) else None, |st.log|)]),
            id, p.(pc := Releasing))
      case Removing => if p.todo[0].UpdateRoot? then RemoveStep(st, id) else st
      case Appending => if p.todo[0].UpdateRoot? then AppendStep(st, id) else st
      case Releasing =>
        Unlocked(st, id, Next(p).(entered := p.entered || p.todo[0].OpenCache?), outcome.UnlockError?)
  }

  /** A schedule: which process steps next and how that step ends. */
  function Exec(st: State, schedule: seq<(nat, Outcome)>): State {
    if schedule == [] then st
    else
      var before := Exec(st, schedule[..|schedule| - 1]);
      var last := schedule[|schedule| - 1];
      Step(before, last.0, last.1)
  }

  // ----- the invariant -----

  /** Steps that only the holder of the lock may take. */
  predicate Critical(pc: Pc) {
    pc.Rechecking? || pc.Creating? || pc.Filling? || pc.Reading? || pc.Removing? || pc.Appending?
  }

  function Ops(log: seq<(nat, Op)>): seq<Op> {
    seq(|log|, i requires 0 <= i < |log| => log[i].1)
  }

  /** What the updates so far make of the list, applied one after another. */
  function Serial(base: seq<Descriptor>, st: State): seq<Descriptor> {
    Run(base, Ops(st.log))
  }

  /** Which call can be at which point. */
  predicate Placed(p: Process) {
    p.todo != [] ==>
      match p.pc
      case Begin => true
      case Locking => !p.todo[0].GiveBack? && (p.todo[0].UpdateRoot? && p.todo[0].op.Write? ==> p.todo[0].op.name != "")
      case Rechecking => p.todo[0].OpenCache?
      case Creating => p.todo[0].OpenCache?
      case Filling => p.todo[0].OpenCache?
      case Reading => p.todo[0].ReadRoot?
      case Removing => p.todo[0].UpdateRoot? && (p.todo[0].op.Write? ==> p.todo[0].op.name != "")
      case Appending => p.todo[0].UpdateRoot? && p.todo[0].op.Write? && p.todo[0].op.name != ""
      case Releasing => true
  }

  /** What holds of one process, whatever the others do. */
  predicate ProcessOk(p: Process, id: nat, owner: Option<nat>, layout: Layout) {
    && Placed(p)
    && (p.locked ==> owner == Some(id))
    && (p.todo != [] && Critical(p.pc) ==> p.locked)
    && (p.todo == [] ==> p.pc.Begin?)
    && (!p.entered && p.todo != [] ==> p.todo[0].OpenCache?)
    && (p.entered ==> !layout.Absent?)
    && (p.pc.Creating? ==> layout.Absent?)
    && (p.pc.Filling? ==> layout.Partial?)
    && (p.pc.Releasing? ==> !layout.Absent?)
  }

  /** The list on disk: everything applied, save that its holder may be halfway through a write. */
  predicate RootOk(base: seq<Descriptor>, st: State) {
    match st.layout
    case Absent => st.log == [] && base == []
    case Partial => st.log == [] && base == [] && st.owner.Some? && st.owner.value in st.procs && st.procs[st.owner.value].pc.Filling?
    case Ready(root) =>
      if st.owner.Some? && st.owner.value in st.procs && AtAppend(st.procs[st.owner.value]) then
        root == RemoveName(Serial(base, st), st.procs[st.owner.value].todo[0].op.name)
      else root == Serial(base, st)
  }

  predicate AtAppend(p: Process) {
    p.todo != [] && p.pc.Appending? && p.todo[0].UpdateRoot?
  }

  /** Every read saw the list as it was between two updates. */
  predicate ReadsOk(base: seq<Descriptor>, st: State) {
    forall r :: r in st.seen ==> r.1 <= |st.log| && r.0 == Some(Run(base, Ops(st.log[..r.1])))
  }

  ghost predicate Inv(base: seq<Descriptor>, st: State) {
    && (forall id :: id in st.procs ==> ProcessOk(st.procs[id], id, st.owner, st.layout))
    && RootOk(base, st)
    && ReadsOk(base, st)
    && !st.overwritten
  }

  ghost predicate Init(base: seq<Descriptor>, st: State) {
    && st.owner.None? && st.log == [] && st.seen == [] && !st.overwritten
    && (st.layout == Ready(base) || (st.layout.Absent? && base == []))
    && forall id :: id in st.procs ==>
         var p := st.procs[id];
         p.todo == p.program && p.pc.Begin? && !p.locked && !p.entered && !p.failed && p.done == []
         && (p.program != [] ==> p.program[0].OpenCache?)
  }

  // ----- every step keeps it -----

  /** The state after a step by `id` that gave it the record `p` and changed what is shared. */
  function Moved(st: State, id: nat, p: Process, owner: Option<nat>, layout: Layout): State {
    st.(procs := st.procs[id := p], owner := owner, layout := layout)
  }

  /** Only the holder changes the layout, and the lock passes only between `id` and nobody. */
  predicate Allowed(st: State, id: nat, owner: Option<nat>, layout: Layout) {
    && (owner == st.owner || (st.owner.None? && owner == Some(id)) || (st.owner == Some(id) && owner.None?))
    && (layout != st.layout ==> st.owner == Some(id) && !layout.Absent?)
  }

  /** Every process's facts survive such a step. */
  lemma ProcessesOk(st: State, id: nat, p: Process, owner: Option<nat>, layout: Layout)
    requires forall q :: q in st.procs ==> ProcessOk(st.procs[q], q, st.owner, st.layout)
    requires id in st.procs && ProcessOk(p, id, owner, layout) && Allowed(st, id, owner, layout)
    ensures var st' := Moved(st, id, p, owner, layout);
      forall q :: q in st'.procs ==> ProcessOk(st'.procs[q], q, st'.owner, st'.layout)
  {
    hide Placed;
    var st' := Moved(st, id, p, owner, layout);
    forall q | q in st'.procs
      ensures ProcessOk(st'.procs[q], q, st'.owner, st'.layout)
    {
      if q != id {
        assert ProcessOk(st.procs[q], q, st.owner, st.layout);
      }
    }
  }

  /** A step that touches neither the list nor the log, by a process not halfway through writing. */
  lemma QuietInv(base: seq<Descriptor>, st: State, id: nat, p: Process, owner: Option<nat>)
    requires Inv(base, st) && id in st.procs && ProcessOk(p, id, owner, st.layout) && Allowed(st, id, owner, st.layout)
    requires !AtAppend(st.procs[id]) && !AtAppend(p) && !st.procs[id].pc.Filling?
    ensures Inv(base, Moved(st, id, p, owner, st.layout))
  {
    hide ProcessOk, Run, RemoveName, Ops;
    ProcessesOk(st, id, p, owner, st.layout);
  }

  lemma EachOk(base: seq<Descriptor>, st: State, id: nat)
    requires Inv(base, st) && id in st.procs
    ensures ProcessOk(st.procs[id], id, st.owner, st.layout)
  {
  }

  lemma EnterInv(base: seq<Descriptor>, st: State, id: nat, outcome: Outcome)
    requires Inv(base, st) && id in st.procs && st.procs[id].todo != [] && st.procs[id].pc.Begin?
    ensures Inv(base, Enter(st, id, outcome))
  {
    hide Inv;
    EachOk(base, st, id);
    var p := st.procs[id];
    match p.todo[0]
    case OpenCache =>
      QuietInv(base, st, id, if st.layout.Absent? then p.(pc := Locking) else Next(p).(entered := true), st.owner);
    case GiveBack =>
      QuietInv(base, st, id, Next(p).(locked := false), if p.locked && !outcome.UnlockError? then None else st.owner);
    case UpdateRoot(op) =>
      QuietInv(base, st, id, if op.Write? && op.name == "" then Next(p).(failed := true) else p.(pc := Locking), st.owner);
    case TakeLock => QuietInv(base, st, id, p.(pc := Locking), st.owner);
    case ReadRoot => QuietInv(base, st, id, p.(pc := Locking), st.owner);
  }

  lemma LockInv(base: seq<Descriptor>, st: State, id: nat, outcome: Outcome)
    requires Inv(base, st) && id in st.procs && st.procs[id].todo != [] && st.procs[id].pc.Locking?
    ensures Inv(base, LockStep(st, id, outcome))
  {
    hide Inv;
    EachOk(base, st, id);
    var p := st.procs[id];
    var owner := if p.locked then st.owner else Some(id);
    if outcome.LockError? && !p.locked {
      QuietInv(base, st, id,
        (if p.todo[0].OpenCache? then p.(todo := [], pc := Begin) else Next(p)).(failed := true), st.owner);
    } else if CanLock(st, id) {
      if p.todo[0].TakeLock? {
        var p' := Next(p).(locked := true, pc := Begin);
        QuietInv(base, st, id, p', owner);
        assert st.procs[id := Next(p)][id := p'] == st.procs[id := p'];
      } else {
        QuietInv(base, st, id, p.(locked := true, pc := AfterLock(p.todo[0])), owner);
      }
    }
  }

  lemma RecheckInv(base: seq<Descriptor>, st: State, id: nat)
    requires Inv(base, st) && id in st.procs && st.procs[id].todo != [] && st.procs[id].pc.Rechecking?
    ensures Inv(base, Step(st, id, Fine))
  {
    hide Inv;
    EachOk(base, st, id);
    QuietInv(base, st, id, st.procs[id].(pc := if st.layout.Absent? then Creating else Releasing), st.owner);
  }

  lemma ReleaseInv(base: seq<Descriptor>, st: State, id: nat, outcome: Outcome)
    requires Inv(base, st) && id in st.procs && st.procs[id].todo != [] && st.procs[id].pc.Releasing?
    ensures Inv(base, Step(st, id, outcome))
  {
    hide Inv;
    EachOk(base, st, id);
    var p := st.procs[id];
    var p' := Next(p).(entered := p.entered || p.todo[0].OpenCache?, locked := false);
    QuietInv(base, st, id, p', if p.locked && !outcome.UnlockError? then None else st.owner);
  }

  /** Creating the layout: the holder just saw that there was none, and nobody else could make one since. */
  lemma CreateInv(base: seq<Descriptor>, st: State, id: nat)
    requires Inv(base, st) && id in st.procs && st.procs[id].todo != []
    requires st.procs[id].pc.Creating? || st.procs[id].pc.Filling?
    ensures Inv(base, Step(st, id, Fine))
  {
    hide Run, RemoveName;
    EachOk(base, st, id);
    var p := st.procs[id];
    if p.pc.Creating? {
      ProcessesOk(st, id, p.(pc := Filling), st.owner, Partial);
    } else {
      ProcessesOk(st, id, p.(pc := Releasing), st.owner, Ready([]));
      EmptyRun(base, st.log);
    }
  }

  lemma EmptyRun(base: seq<Descriptor>, log: seq<(nat, Op)>)
    requires log == []
    ensures Run(base, Ops(log)) == base
  {
  }

  /** A process inside a read or an update holds the lock on a complete layout. */
  lemma InsideIsReady(base: seq<Descriptor>, st: State, id: nat)
    requires Inv(base, st) && id in st.procs && st.procs[id].todo != []
    requires st.procs[id].pc.Reading? || st.procs[id].pc.Removing? || st.procs[id].pc.Appending?
    ensures st.owner == Some(id) && st.procs[id].entered && st.layout.Ready?
    ensures ProcessOk(st.procs[id], id, st.owner, st.layout)
    ensures st.layout.root == if st.procs[id].pc.Appending? then RemoveName(Serial(base, st), st.procs[id].todo[0].op.name)
                              else Serial(base, st)
  {
    hide Run, RemoveName;
    EachOk(base, st, id);
  }

  /** A read sees the list between two updates. */
  lemma ReadInv(base: seq<Descriptor>, st: State, id: nat)
    requires Inv(base, st) && id in st.procs && st.procs[id].todo != [] && st.procs[id].pc.Reading?
    ensures Inv(base, Step(st, id, Fine))
  {
    hide Run, RemoveName;
    InsideIsReady(base, st, id);
    var p := st.procs[id].(pc := Releasing);
    ProcessesOk(st, id, p, st.owner, st.layout);
    var st' := Step(st, id, Fine);
    assert st.log[..|st.log|] == st.log;
    assert ReadsOk(base, st');
  }

  lemma SerialSnoc(base: seq<Descriptor>, log: seq<(nat, Op)>, entry: (nat, Op))
    ensures Run(base, Ops(log + [entry])) == Apply(Run(base, Ops(log)), entry.1)
  {
    assert Ops(log + [entry]) == Ops(log) + [entry.1];
    assert Ops(log + [entry])[..|log|] == Ops(log);
  }

  lemma ReadsSurvive(base: seq<Descriptor>, st: State, entry: (nat, Op))
    requires ReadsOk(base, st)
    ensures ReadsOk(base, st.(log := st.log + [entry]))
  {
    hide Run, Ops;
    forall r | r in st.seen
      ensures (st.log + [entry])[..r.1] == st.log[..r.1]
    {
    }
  }

  /** Dropping the old name: half of a write, or the whole of a removal. */
  lemma RemoveInv(base: seq<Descriptor>, st: State, id: nat)
    requires Inv(base, st) && id in st.procs && st.procs[id].todo != [] && st.procs[id].pc.Removing?
    ensures Inv(base, Step(st, id, Fine))
  {
    hide Run, RemoveName, Ops;
    InsideIsReady(base, st, id);
    var p, op := st.procs[id], st.procs[id].todo[0].op;
    var layout := Ready(RemoveName(st.layout.root, op.name));
    if op.Write? {
      ProcessesOk(st, id, p.(pc := Appending), st.owner, layout);
    } else {
      ProcessesOk(st, id, p.(pc := Releasing, done := p.done + [op]), st.owner, layout);
      SerialSnoc(base, st.log, (id, op));
      ReadsSurvive(base, st, (id, op));
    }
  }

  /** Appending: the write takes effect as one update. */
  lemma AppendInv(base: seq<Descriptor>, st: State, id: nat)
    requires Inv(base, st) && id in st.procs && st.procs[id].todo != [] && st.procs[id].pc.Appending?
    ensures Inv(base, Step(st, id, Fine))
  {
    hide Run, RemoveName, Ops, WithName;
    InsideIsReady(base, st, id);
    var p, op := st.procs[id], st.procs[id].todo[0].op;
    ProcessesOk(st, id, p.(pc := Releasing, done := p.done + [op]), st.owner, Ready(st.layout.root + [WithName(op.desc, op.name)]));
    SerialSnoc(base, st.log, (id, op));
    ReadsSurvive(base, st, (id, op));
  }

  lemma StepInv(base: seq<Descriptor>, st: State, id: nat, outcome: Outcome)
    requires Inv(base, st)
    ensures Inv(base, Step(st, id, outcome))
  {
    hide Inv, Enter, LockStep, RemoveStep, AppendStep, Unlocked;
    if id in st.procs && st.procs[id].todo != [] {
      match st.procs[id].pc
      case Begin => EnterInv(base, st, id, outcome);
      case Locking => LockInv(base, st, id, outcome);
      case Rechecking => RecheckInv(base, st, id);
      case Creating => CreateInv(base, st, id);
      case Filling => CreateInv(base, st, id);
      case Reading => ReadInv(base, st, id);
      case Removing => RemoveInv(base, st, id);
      case Appending => AppendInv(base, st, id);
      case Releasing => ReleaseInv(base, st, id, outcome);
    }
  }

  lemma {:induction false} ExecInv(base: seq<Descriptor>, st: State, schedule: seq<(nat, Outcome)>)
    requires Init(base, st)
    ensures Inv(base, Exec(st, schedule))
  {
    if schedule == [] {
      EmptyRun(base, st.log);
    } else {
      var last := schedule[|schedule| - 1];
      ExecInv(base, st, schedule[..|schedule| - 1]);
      StepInv(base, Exec(st, schedule[..|schedule| - 1]), last.0, last.1);
    }
  }

  // ----- what every interleaving guarantees -----

  /** Two processes are never inside at the same time, and whoever is inside holds the file lock. */
  lemma MutualExclusion(base: seq<Descriptor>, st: State, schedule: seq<(nat, Outcome)>, a: nat, b: nat)
    requires Init(base, st)
    requires var now := Exec(st, schedule);
      a in now.procs && now.procs[a].todo != [] && Critical(now.procs[a].pc)
      && b in now.procs && now.procs[b].todo != [] && Critical(now.procs[b].pc)
    ensures a == b && Exec(st, schedule).owner == Some(a)
  {
    hide Exec, RootOk, ReadsOk, Init;
    ExecInv(base, st, schedule);
    EachOk(base, Exec(st, schedule), a);
    EachOk(base, Exec(st, schedule), b);
  }

  /**
    The root index is what its updates make of it one after another: whenever no
    process is between removing and appending, the list on disk is the serial run
    of the log; every read saw such a list; and no layout was created over another.
   */
  lemma RootIsSerial(base: seq<Descriptor>, st: State, schedule: seq<(nat, Outcome)>)
    requires Init(base, st)
    ensures var now := Exec(st, schedule);
      && (now.layout.Ready? && (forall id :: id in now.procs ==> !AtAppend(now.procs[id])) ==>
            now.layout.root == Run(base, Ops(now.log)))
      && (forall r :: r in now.seen ==> r.1 <= |now.log| && r.0 == Some(Run(base, Ops(now.log[..r.1]))))
      && !now.overwritten
  {
    hide Exec, Run, RemoveName, Ops, Init, ProcessOk;
    ExecInv(base, st, schedule);
  }

  /** Names stay distinct and the list is the map that the updates compute, whoever made them. */
  lemma RootIsAMap(base: seq<Descriptor>, st: State, schedule: seq<(nat, Outcome)>)
    requires Init(base, st) && DistinctNames(base)
    requires Exec(st, schedule).layout.Ready?
    requires forall id :: id in Exec(st, schedule).procs ==> !AtAppend(Exec(st, schedule).procs[id])
    ensures var now := Exec(st, schedule);
      DistinctNames(now.layout.root) && View(now.layout.root) == RunOnMap(View(base), Ops(now.log))
  {
    hide Exec, Run, Ops, Init, View, RunOnMap, DistinctNames;
    RootIsSerial(base, st, schedule);
    RunRefinesMap(base, Ops(Exec(st, schedule).log));
  }

  /** Waiting never includes the holder: whoever has the file lock and work left can take a step. */
  lemma HolderNeverBlocks(base: seq<Descriptor>, st: State, schedule: seq<(nat, Outcome)>, id: nat)
    requires Init(base, st)
    requires var now := Exec(st, schedule);
      now.owner == Some(id) && id in now.procs && now.procs[id].todo != []
    ensures var now := Exec(st, schedule);
      Step(now, id, Fine) != now
  {
    hide Exec, Inv, Init, RemoveName, WithName;
    var now := Exec(st, schedule);
    ExecInv(base, st, schedule);
    EachOk(base, now, id);
    var p := now.procs[id];
    assert |p.todo[1..]| < |p.todo|;
  }

  /** `n` steps of one process on its own, none failing. */
  function Alone(st: State, id: nat, n: nat): State {
    if n == 0 then st else Step(Alone(st, id, n - 1), id, Fine)
  }

  /**
    A read or an update lets go of the lock after at most three of its own steps,
    even when it was an outer call that took it.
   */
  lemma InnerCallReleases(base: seq<Descriptor>, st: State, id: nat)
    requires Inv(base, st) && id in st.procs && st.procs[id].todo != []
    requires st.procs[id].pc.Reading? || st.procs[id].pc.Removing? || st.procs[id].pc.Appending?
    ensures exists n :: 0 < n <= 3 && Released(Alone(st, id, n), id)
  {
    hide Inv, RemoveName, WithName;
    InsideIsReady(base, st, id);
    var one := Step(st, id, Fine);
    assert Alone(st, id, 0) == st && Alone(st, id, 1) == one;
    if st.procs[id].pc.Removing? && st.procs[id].todo[0].op.Write? {
      var two := Step(one, id, Fine);
      assert Alone(st, id, 2) == two;
      ReleasingReleases(two, id);
      assert Released(Alone(st, id, 3), id);
    } else {
      ReleasingReleases(one, id);
      assert Released(Alone(st, id, 2), id);
    }
  }

  lemma ReleasingReleases(st: State, id: nat)
    requires id in st.procs && st.procs[id].todo != [] && st.procs[id].pc.Releasing? && st.procs[id].locked
    ensures Released(Step(st, id, Fine), id)
  {
  }

  predicate Released(st: State, id: nat) {
    st.owner.None? && id in st.procs && !st.procs[id].locked
  }

  lemma OwnRecord(st: State, id: nat)
    requires id in st.procs
    ensures st.procs == st.procs[id := st.procs[id]]
  {
  }

  lemma IdleStep(st: State, id: nat, outcome: Outcome)
    requires id !in st.procs || st.procs[id].todo == []
    ensures Step(st, id, outcome) == st
  {
  }
}
