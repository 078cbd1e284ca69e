/**
  memlogd: one handler owns a ring of the latest log entries and a list of
  listeners; every query gets a bounded channel that its own goroutine drains
  into a connection. The handler never waits: a full channel drops the message.

  Messages carry the number they were logged under, and listeners what was
  dropped, so that order, repetition and loss can be stated; the code has neither.
 */
module Memlogd {
  import opened Results
  import opened Seqs

  datatype Entry = Entry(time: int, source: string, text: string)

  datatype Message = Message(number: nat, entry: Entry)

  /** Query modes as they come off the wire; any other byte asks for nothing. */
  const DUMP := 0
  const FOLLOW := 1
  const DUMP_FOLLOW := 2

  predicate Dumps(mode: int) {
    mode == DUMP || mode == DUMP_FOLLOW
  }

  predicate Follows(mode: int) {
    mode == FOLLOW || mode == DUMP_FOLLOW
  }

  datatype Listener = Listener(
    mode: int,
    queue: seq<Message>,     // the channel
    received: seq<Message>,  // written to the connection
    dropped: seq<Message>,   // offered when the channel was full
    closed: bool,            // the channel was closed
    failed: bool,            // its goroutine hit a write error and returned
    panicked: bool,          // something was sent on a closed channel
    since: nat,              // how much had been logged when it asked
    snapshot: seq<Message>)  // the ring at that time

  /** What a listener got or will get, as far as has been decided. */
  function Stream(l: Listener): seq<Message> {
    l.received + l.queue
  }

  /** A message on its way round the listeners. */
  datatype Sending = Sending(
    message: Message,
    rest: seq<nat>,          // listeners still to be told
    tested: bool,            // the first of them was found without error
    remove: seq<nat>)        // listeners found with one

  datatype State = State(
    history: seq<Entry>,                     // everything ever logged
    ring: seq<Message>,                      // what the ring holds, oldest first
    conns: seq<Listener>,                    // every query there has been
    listeners: seq<nat>,                     // those registered for new messages
    filling: Option<(nat, seq<Message>)>,    // the handler is dumping the rest of the ring to a new listener
    sending: Option<Sending>)                // the handler is telling its listeners

  datatype Event =
    | Log(entry: Entry)     // the handler takes a message
    | Offer                 // the handler tests or tells the next listener, or removes those with errors
    | Query(mode: int)      // the handler takes a query
    | Fill                  // the handler offers the next ring entry to the new listener, or ends the dump
    | Drain(conn: nat)      // a goroutine writes one message
    | Break(conn: nat)      // a goroutine fails to write one

  // ----- single steps -----

  /** `select { case l.output <- m: default: }` */
  function TrySend(l: Listener, m: Message, chanSize: nat): Listener {
    if l.closed then l.(panicked := true)
    else if |l.queue| < chanSize then l.(queue := l.queue + [m])
    else l.(dropped := l.dropped + [m])
  }

  function LastN(s: seq<Message>, n: nat): seq<Message> {
    if |s| <= n then s else s[|s| - n..]
  }

  predicate Idle(st: State) {
    st.filling.None? && st.sending.None?
  }

  function LogStep(st: State, e: Entry, ringSize: nat): State {
    var m := Message(|st.history|, e);
    st.(history := st.history + [e],
        ring := LastN(st.ring + [m], ringSize),
        sending := Some(Sending(m, st.listeners, false, [])))
  }

  function OfferStep(st: State, chanSize: nat): State
    requires st.sending.Some? && (st.sending.value.rest != [] ==> st.sending.value.rest[0] < |st.conns|)
  {
    var s := st.sending.value;
    if s.rest == [] then
      st.(listeners := Filter(st.listeners, (id: nat) => id !in s.remove), sending := None)
    else
      var id := s.rest[0];
      if s.tested then
        st.(conns := st.conns[id := TrySend(st.conns[id], s.message, chanSize)],
            sending := Some(s.(rest := s.rest[1..], tested := false)))
      else if st.conns[id].failed then
        st.(sending := Some(s.(rest := s.rest[1..], remove := s.remove + [id])))
      else
        st.(sending := Some(s.(tested := true)))
  }

  function QueryStep(st: State, mode: int): State {
    var id := |st.conns|;
    st.(conns := st.conns + [Listener(mode, [], [], [], false, false, false, |st.history|, st.ring)],
        listeners := if Follows(mode) then st.listeners + [id] else st.listeners,
        filling := if Dumps(mode) then Some((id, st.ring)) else None)
  }

  function FillStep(st: State, chanSize: nat): State
    requires st.filling.Some? && st.filling.value.0 < |st.conns|
  {
    var (id, rest) := st.filling.value;
    var l := st.conns[id];
    if rest == [] then
      st.(conns := if l.mode == DUMP then st.conns[id := l.(closed := true)] else st.conns, filling := None)
    else
      st.(conns := st.conns[id := TrySend(l, rest[0], chanSize)], filling := Some((id, rest[1..])))
  }

  /** What a goroutine does to its own listener: write a message, or fail to and return. */
  function Drained(l: Listener, ok: bool): Listener
    requires l.queue != []
  {
    if ok then l.(received := l.received + [l.queue[0]], queue := l.queue[1..])
    else l.(queue := l.queue[1..], failed := true)
  }

  function GoStep(conns: seq<Listener>, id: nat, ok: bool): seq<Listener> {
    if id < |conns| && !conns[id].failed && conns[id].queue != [] then conns[id := Drained(conns[id], ok)] else conns
  }

  /** One step; an event that cannot happen now changes nothing. The handler takes nothing new while it sends or dumps. */
  function Step(st: State, ev: Event, ringSize: nat, chanSize: nat): State {
    match ev
    case Log(e) => if Idle(st) then LogStep(st, e, ringSize) else st
    case Offer =>
      if st.sending.Some? && (st.sending.value.rest != [] ==> st.sending.value.rest[0] < |st.conns|) then OfferStep(st, chanSize) else st
    case Query(mode) => if Idle(st) then QueryStep(st, mode) else st
    case Fill => if st.filling.Some? && st.filling.value.0 < |st.conns| then FillStep(st, chanSize) else st
    case Drain(id) => st.(conns := GoStep(st.conns, id, true))
    case Break(id) => st.(conns := GoStep(st.conns, id, false))
  }

  const START := State([], [], [], [], None, None)

  function RunFrom(st: State, events: seq<Event>, ringSize: nat, chanSize: nat): State {
    if events == [] then st
    else Step(RunFrom(st, events[..|events| - 1], ringSize, chanSize), events[|events| - 1], ringSize, chanSize)
  }

  function Exec(events: seq<Event>, ringSize: nat, chanSize: nat): State {
    RunFrom(START, events, ringSize, chanSize)
  }

  // ----- the ring -----

  function Min(a: nat, b: nat): nat {
    if a < b then a else b
  }

  /** The last `n` entries logged, numbered, oldest first. */
  function Recent(history: seq<Entry>, n: nat): (r: seq<Message>)
    ensures |r| == Min(|history|, n)
  {
    var k := |history| - Min(|history|, n);
    seq(Min(|history|, n), i requires 0 <= i < Min(|history|, n) => Message(k + i, history[k + i]))
  }

  lemma RecentSnoc(history: seq<Entry>, e: Entry, n: nat)
    ensures LastN(Recent(history, n) + [Message(|history|, e)], n) == Recent(history + [e], n)
  {
  }

  // ----- one listener -----

  /** Numbers strictly increase: messages are in the order logged and none comes twice. */
  predicate Increasing(s: seq<Message>) {
    forall i, j :: 0 <= i < j < |s| ==> s[i].number < s[j].number
  }

  /** A message that this listener asked for, and that was really logged. */
  predicate Due(l: Listener, m: Message, history: seq<Entry>) {
    && m.number < |history| && history[m.number] == m.entry
    && (if m.number < l.since then Dumps(l.mode) && m in l.snapshot else Follows(l.mode))
  }

  /** What the dump must have kept: the oldest messages offered, as many as the channel holds. */
  predicate KeepsOldest(l: Listener, rest: seq<Message>, chanSize: nat) {
    |rest| <= |l.snapshot| &&
    var offered := |l.snapshot| - |rest|;
    l.snapshot[..Min(offered, chanSize)] <= Stream(l)
  }

  predicate ListenerOk(l: Listener, history: seq<Entry>, rest: seq<Message>, chanSize: nat) {
    && Increasing(Stream(l))
    && (forall m :: m in Stream(l) ==> Due(l, m, history))
    && |l.queue| <= chanSize && !l.panicked && l.since <= |history|
    && (Dumps(l.mode) && !l.failed ==> KeepsOldest(l, rest, chanSize))
  }

  /** The snapshot is what the ring held when the query came. */
  predicate SnapshotOk(l: Listener, history: seq<Entry>, ringSize: nat) {
    l.since <= |history| && l.snapshot == Recent(history[..l.since], ringSize)
  }

  /** Nothing is lost without trace: what is due and not pending was queued or written or dropped, and no two of these. */
  ghost predicate Accounted(l: Listener, history: seq<Entry>, pending: seq<Message>) {
    && (forall m :: m in l.dropped ==> Due(l, m, history) && m !in Stream(l))
    && (!l.failed ==> forall m :: Due(l, m, history) ==> m in pending || m in Stream(l) || m in l.dropped)
  }

  /** All that this listener was offered is older than `m`. */
  predicate Behind(l: Listener, m: Message) {
    (forall x :: x in Stream(l) ==> x.number < m.number) && (forall x :: x in l.dropped ==> x.number < m.number)
  }

  /** A channel is closed exactly when it was for a dump only and the dump is over. */
  predicate ClosedOk(l: Listener, dumping: bool) {
    l.closed <==> l.mode == DUMP && !dumping
  }

  // ----- all of them -----

  predicate Dumping(st: State, id: nat) {
    st.filling.Some? && st.filling.value.0 == id
  }

  /** Messages of the snapshot still to be offered to connection `id`. */
  function Rest(st: State, id: nat): seq<Message> {
    if Dumping(st, id) then st.filling.value.1 else []
  }

  /** Messages that the handler is about to offer to connection `id`. */
  function Pending(st: State, id: nat): seq<Message> {
    if Dumping(st, id) then st.filling.value.1
    else if st.sending.Some? && id in st.sending.value.rest then [st.sending.value.message]
    else []
  }

  ghost predicate ConnOk(st: State, i: nat, ringSize: nat, chanSize: nat)
    requires i < |st.conns|
  {
    var l := st.conns[i];
    && ListenerOk(l, st.history, Rest(st, i), chanSize)
    && SnapshotOk(l, st.history, ringSize)
    && ClosedOk(l, Dumping(st, i))
    && Accounted(l, st.history, Pending(st, i))
  }

  ghost predicate ConnsOk(st: State, ringSize: nat, chanSize: nat) {
    forall i :: 0 <= i < |st.conns| ==> ConnOk(st, i, ringSize, chanSize)
  }

  /** While the handler dumps: the rest is the end of the snapshot and comes after all that was sent. */
  predicate FillOk(st: State) {
    st.filling.Some? ==>
      var (id, rest) := st.filling.value;
      && st.sending.None? && id < |st.conns|
      && var l := st.conns[id];
         && Dumps(l.mode) && !l.closed && l.since == |st.history|
         && |rest| <= |l.snapshot| && rest == l.snapshot[|l.snapshot| - |rest|..]
         && (forall r :: r in rest ==> Behind(l, r))
         && |Stream(l)| <= |l.snapshot| - |rest|
  }

  /** While the handler sends: the message is the latest, and the listeners to be told are at the end of the list and behind it. */
  predicate SendOk(st: State) {
    st.sending.Some? ==>
      var s := st.sending.value;
      && |st.history| > 0 && s.message == Message(|st.history| - 1, st.history[|st.history| - 1])
      && |s.rest| <= |st.listeners| && s.rest == st.listeners[|st.listeners| - |s.rest|..]
      && (forall id :: id in s.rest ==> id < |st.conns| && Behind(st.conns[id], s.message) && st.conns[id].since < |st.history|)
      && (s.tested ==> s.rest != [])
      && (forall id :: id in s.remove ==> id < |st.conns| && st.conns[id].failed)
  }

  predicate Less(a: nat, b: nat) {
    a < b
  }

  /** The list of listeners: each once, open, following; and every follower without an error is on it. */
  ghost predicate ListOk(st: State) {
    && Pairwise(st.listeners, Less)
    && (forall id :: id in st.listeners ==> id < |st.conns| && !st.conns[id].closed && Follows(st.conns[id].mode))
    && (forall i :: 0 <= i < |st.conns| && Follows(st.conns[i].mode) && !st.conns[i].failed ==> i in st.listeners)
  }

  ghost predicate Inv(st: State, ringSize: nat, chanSize: nat) {
    st.ring == Recent(st.history, ringSize) && ConnsOk(st, ringSize, chanSize) && ListOk(st) && FillOk(st) && SendOk(st)
  }

  // ----- what each step does to one listener -----

  lemma SameDue(l: Listener, l': Listener, m: Message, history: seq<Entry>)
    requires l'.mode == l.mode && l'.since == l.since && l'.snapshot == l.snapshot
    ensures Due(l', m, history) == Due(l, m, history)
  {
  }

  lemma DueExtends(l: Listener, m: Message, history: seq<Entry>, e: Entry)
    requires l.since <= |history|
    ensures Due(l, m, history + [e]) <==> Due(l, m, history) || (m == Message(|history|, e) && Follows(l.mode))
  {
  }

  /** More is logged. */
  lemma LogOk(l: Listener, history: seq<Entry>, e: Entry, ringSize: nat, chanSize: nat)
    requires ListenerOk(l, history, [], chanSize) && SnapshotOk(l, history, ringSize) && Accounted(l, history, [])
    ensures ListenerOk(l, history + [e], [], chanSize) && SnapshotOk(l, history + [e], ringSize)
    ensures Accounted(l, history + [e], [Message(|history|, e)])
    ensures Accounted(l, history + [e], []) || (Follows(l.mode) && !l.failed)
    ensures Behind(l, Message(|history|, e))
  {
    hide Due, KeepsOldest, Recent;
    forall m
      ensures Due(l, m, history + [e]) <==> Due(l, m, history) || (m == Message(|history|, e) && Follows(l.mode))
    {
      DueExtends(l, m, history, e);
    }
    assert (history + [e])[..l.since] == history[..l.since];
    forall m | Due(l, m, history)
      ensures m.number < |history|
    {
      DueIsLogged(l, m, history);
    }
  }

  lemma DueIsLogged(l: Listener, m: Message, history: seq<Entry>)
    requires Due(l, m, history)
    ensures m.number < |history|
  {
  }

  /** Offering a message later than all before it. */
  lemma OfferOk(l: Listener, m: Message, history: seq<Entry>, rest: seq<Message>, rest': seq<Message>, chanSize: nat)
    requires ListenerOk(l, history, rest, chanSize) && !l.closed && Due(l, m, history) && Behind(l, m)
    requires var l' := TrySend(l, m, chanSize); Dumps(l.mode) && !l.failed ==> KeepsOldest(l', rest', chanSize)
    ensures ListenerOk(TrySend(l, m, chanSize), history, rest', chanSize)
  {
    hide KeepsOldest;
    var l' := TrySend(l, m, chanSize);
    if |l.queue| < chanSize {
      assert Stream(l') == Stream(l) + [m];
      assert forall i :: 0 <= i < |Stream(l)| ==> Stream(l)[i] in Stream(l);
    } else {
      assert Stream(l') == Stream(l);
    }
    assert forall x :: x in Stream(l) ==> Due(l', x, history);
  }

  lemma OfferAccounted(l: Listener, m: Message, history: seq<Entry>, pending: seq<Message>, pending': seq<Message>, chanSize: nat)
    requires Accounted(l, history, pending) && !l.closed && Due(l, m, history) && Behind(l, m)
    requires forall x :: x in pending ==> x == m || x in pending'
    ensures Accounted(TrySend(l, m, chanSize), history, pending')
  {
    hide Due;
    var l' := TrySend(l, m, chanSize);
    forall x
      ensures Due(l', x, history) == Due(l, x, history)
    {
      SameDue(l, l', x, history);
    }
    assert Stream(l') == Stream(l) || Stream(l') == Stream(l) + [m];
    assert forall x :: x in Stream(l') || x in l'.dropped <==> x in Stream(l) || x in l.dropped || x == m;
  }

  /** A message to a follower does not touch what the dump kept. */
  lemma SendKeepsOldest(l: Listener, m: Message, chanSize: nat)
    requires KeepsOldest(l, [], chanSize) && !l.closed
    ensures KeepsOldest(TrySend(l, m, chanSize), [], chanSize)
  {
    var l' := TrySend(l, m, chanSize);
    assert Stream(l') == Stream(l) || Stream(l') == Stream(l) + [m];
  }

  /** Offering the next ring entry keeps the oldest ones. */
  lemma FillKeepsOldest(l: Listener, rest: seq<Message>, chanSize: nat)
    requires rest != [] && KeepsOldest(l, rest, chanSize) && !l.closed
    requires rest == l.snapshot[|l.snapshot| - |rest|..] && |Stream(l)| <= |l.snapshot| - |rest|
    ensures KeepsOldest(TrySend(l, rest[0], chanSize), rest[1..], chanSize)
  {
    var offered := |l.snapshot| - |rest|;
    var l' := TrySend(l, rest[0], chanSize);
    if offered < chanSize {
      assert Stream(l) == l.snapshot[..offered];
      assert Stream(l') == l.snapshot[..offered + 1];
    } else {
      assert Stream(l') == Stream(l) || Stream(l') == Stream(l) + [rest[0]];
    }
  }

  lemma DrainedStream(l: Listener, ok: bool)
    requires l.queue != []
    ensures ok ==> Stream(Drained(l, ok)) == Stream(l)
    ensures !ok ==> Stream(Drained(l, ok)) == Stream(l)[..|l.received|] + Stream(l)[|l.received| + 1..]
    ensures forall m :: m in Stream(Drained(l, ok)) ==> m in Stream(l)
  {
  }

  lemma DrainedOk(l: Listener, ok: bool, history: seq<Entry>, rest: seq<Message>, chanSize: nat)
    requires ListenerOk(l, history, rest, chanSize) && l.queue != []
    ensures ListenerOk(Drained(l, ok), history, rest, chanSize)
  {
    hide Due;
    var l' := Drained(l, ok);
    DrainedStream(l, ok);
    forall m | m in Stream(l')
      ensures Due(l', m, history)
    {
      SameDue(l, l', m, history);
    }
  }

  lemma DrainedAccounted(l: Listener, ok: bool, history: seq<Entry>, pending: seq<Message>)
    requires Accounted(l, history, pending) && l.queue != []
    ensures Accounted(Drained(l, ok), history, pending)
  {
    hide Due, Stream;
    var l' := Drained(l, ok);
    DrainedStream(l, ok);
    forall m
      ensures Due(l', m, history) == Due(l, m, history)
    {
      SameDue(l, l', m, history);
    }
  }

  // ----- every step keeps the invariant -----

  lemma LogInv(st: State, e: Entry, ringSize: nat, chanSize: nat)
    requires Inv(st, ringSize, chanSize) && Idle(st)
    ensures Inv(LogStep(st, e, ringSize), ringSize, chanSize)
  {
    hide ListenerOk, SnapshotOk, Accounted, Behind, Recent, LastN, Pairwise, Follows;
    var st' := LogStep(st, e, ringSize);
    RecentSnoc(st.history, e, ringSize);
    forall i | 0 <= i < |st.conns|
      ensures ConnOk(st', i, ringSize, chanSize) && Behind(st'.conns[i], Message(|st.history|, e)) && st.conns[i].since <= |st.history|
    {
      var l := st.conns[i];
      assert ConnOk(st, i, ringSize, chanSize);
      LogOk(l, st.history, e, ringSize, chanSize);
      SinceOk(l, st.history, ringSize);
    }
    assert st.listeners[0..] == st.listeners;
  }

  lemma SinceOk(l: Listener, history: seq<Entry>, ringSize: nat)
    requires SnapshotOk(l, history, ringSize)
    ensures l.since <= |history|
  {
  }

  lemma QueryListOk(st: State, mode: int)
    requires ListOk(st)
    ensures ListOk(QueryStep(st, mode))
  {
    hide Follows, Dumps;
    var st' := QueryStep(st, mode);
    assert forall i :: 0 <= i < |st.conns| ==> st'.conns[i] == st.conns[i];
    forall i, j | 0 <= i < j < |st'.listeners|
      ensures Less(st'.listeners[i], st'.listeners[j])
    {
      if j == |st.listeners| {
        assert st.listeners[i] in st.listeners;
      }
    }
  }

  lemma QueryInv(st: State, mode: int, ringSize: nat, chanSize: nat)
    requires Inv(st, ringSize, chanSize) && Idle(st)
    ensures Inv(QueryStep(st, mode), ringSize, chanSize)
  {
    hide ListOk, Recent;
    var st' := QueryStep(st, mode);
    QueryListOk(st, mode);
    NewListenerOk(mode, st.history, st.ring, ringSize, chanSize);
    forall i | 0 <= i < |st'.conns|
      ensures ConnOk(st', i, ringSize, chanSize)
    {
      if i < |st.conns| {
        assert ConnOk(st, i, ringSize, chanSize);
        SameConnOk(st, st', i, ringSize, chanSize);
      } else {
        assert st'.conns[i] == Listener(mode, [], [], [], false, false, false, |st.history|, st.ring);
      }
    }
    assert st.ring[0..] == st.ring;
  }

  lemma NewListenerOk(mode: int, history: seq<Entry>, ring: seq<Message>, ringSize: nat, chanSize: nat)
    requires ring == Recent(history, ringSize)
    ensures var l := Listener(mode, [], [], [], false, false, false, |history|, ring);
      var rest := if Dumps(mode) then ring else [];
      ListenerOk(l, history, rest, chanSize) && SnapshotOk(l, history, ringSize) && Accounted(l, history, rest)
  {
    hide Recent;
    var l := Listener(mode, [], [], [], false, false, false, |history|, ring);
    assert history[..|history|] == history;
    assert Stream(l) == [];
    assert l.snapshot[..0] == [];
  }

  /** A connection that a step does not touch. */
  lemma SameConnOk(st: State, st': State, i: nat, ringSize: nat, chanSize: nat)
    requires i < |st.conns| && i < |st'.conns| && ConnOk(st, i, ringSize, chanSize)
    requires st'.conns[i] == st.conns[i] && st'.history == st.history
    requires Dumping(st', i) == Dumping(st, i) && Rest(st', i) == Rest(st, i)
    requires Pending(st', i) == Pending(st, i) || (st.conns[i].failed)
    ensures ConnOk(st', i, ringSize, chanSize)
  {
    hide ListenerOk, SnapshotOk, Due;
  }

  /** Changing one connection in a way the list does not depend on. */
  lemma UpdateListOk(st: State, id: nat, l: Listener)
    requires ListOk(st) && id < |st.conns|
    requires l.mode == st.conns[id].mode && (st.conns[id].failed ==> l.failed)
    requires l.closed ==> st.conns[id].closed || !Follows(l.mode)
    ensures forall st': State :: st'.conns == st.conns[id := l] && st'.listeners == st.listeners ==> ListOk(st')
  {
    hide Follows, Pairwise;
  }

  lemma GoInv(st: State, id: nat, ok: bool, ringSize: nat, chanSize: nat)
    requires Inv(st, ringSize, chanSize)
    ensures Inv(st.(conns := GoStep(st.conns, id, ok)), ringSize, chanSize)
  {
    hide ListenerOk, SnapshotOk, Accounted, Recent, ListOk, FillOk, SendOk, Drained;
    var st' := st.(conns := GoStep(st.conns, id, ok));
    if id < |st.conns| && !st.conns[id].failed && st.conns[id].queue != [] {
      var l := st.conns[id];
      var l' := Drained(l, ok);
      assert ConnOk(st, id, ringSize, chanSize);
      DrainedOk(l, ok, st.history, Rest(st, id), chanSize);
      DrainedAccounted(l, ok, st.history, Pending(st, id));
      DrainedKeeps(l, ok, st.history, ringSize);
      UpdateListOk(st, id, l');
      GoFillOk(st, id, ok);
      GoSendOk(st, id, ok);
      forall i | 0 <= i < |st'.conns|
        ensures ConnOk(st', i, ringSize, chanSize)
      {
        assert ConnOk(st, i, ringSize, chanSize);
      }
    } else {
      assert st' == st;
    }
  }

  lemma DrainedKeeps(l: Listener, ok: bool, history: seq<Entry>, ringSize: nat)
    requires l.queue != []
    ensures var l' := Drained(l, ok);
      l'.mode == l.mode && l'.closed == l.closed && (l.failed ==> l'.failed) && l'.since == l.since && l'.snapshot == l.snapshot
    ensures SnapshotOk(l, history, ringSize) ==> SnapshotOk(Drained(l, ok), history, ringSize)
    ensures forall m :: Behind(l, m) ==> Behind(Drained(l, ok), m)
    ensures |Stream(Drained(l, ok))| <= |Stream(l)|
  {
    hide Recent;
    DrainedStream(l, ok);
  }

  lemma GoFillOk(st: State, id: nat, ok: bool)
    requires FillOk(st) && id < |st.conns| && st.conns[id].queue != []
    ensures FillOk(st.(conns := st.conns[id := Drained(st.conns[id], ok)]))
  {
    hide Behind, Drained, Stream;
    var st' := st.(conns := st.conns[id := Drained(st.conns[id], ok)]);
    DrainedKeeps(st.conns[id], ok, st.history, 0);
    if st.filling.Some? {
      var (f, rest) := st.filling.value;
      assert st'.conns[f] == if f == id then Drained(st.conns[id], ok) else st.conns[f];
      assert forall r :: r in rest ==> Behind(st.conns[f], r) && Behind(st'.conns[f], r);
    }
  }

  lemma GoSendOk(st: State, id: nat, ok: bool)
    requires SendOk(st) && id < |st.conns| && st.conns[id].queue != []
    ensures SendOk(st.(conns := st.conns[id := Drained(st.conns[id], ok)]))
  {
    hide Behind, Drained, Stream;
    DrainedKeeps(st.conns[id], ok, st.history, 0);
  }

  lemma FillInv(st: State, ringSize: nat, chanSize: nat)
    requires Inv(st, ringSize, chanSize) && st.filling.Some? && st.filling.value.0 < |st.conns|
    ensures Inv(FillStep(st, chanSize), ringSize, chanSize)
  {
    hide ListenerOk, SnapshotOk, Accounted, Recent, ListOk, Behind, TrySend, Dumps;
    var (id, rest) := st.filling.value;
    var l := st.conns[id];
    var st' := FillStep(st, chanSize);
    assert ConnOk(st, id, ringSize, chanSize);
    if rest == [] {
      var l' := if l.mode == DUMP then l.(closed := true) else l;
      assert st'.conns == st.conns[id := l'];
      CloseOk(l, st.history, ringSize, chanSize);
      UpdateListOk(st, id, l');
    } else {
      FillOne(l, rest, st.history, ringSize, chanSize);
      UpdateListOk(st, id, TrySend(l, rest[0], chanSize));
    }
    forall i | 0 <= i < |st'.conns|
      ensures ConnOk(st', i, ringSize, chanSize)
    {
      assert ConnOk(st, i, ringSize, chanSize);
    }
  }

  lemma CloseOk(l: Listener, history: seq<Entry>, ringSize: nat, chanSize: nat)
    requires ListenerOk(l, history, [], chanSize) && SnapshotOk(l, history, ringSize) && Accounted(l, history, [])
    ensures var l' := l.(closed := true);
      ListenerOk(l', history, [], chanSize) && SnapshotOk(l', history, ringSize) && Accounted(l', history, [])
    ensures l.mode == DUMP ==> !Follows(l.mode)
  {
    hide Recent, Due;
    var l' := l.(closed := true);
    assert Stream(l') == Stream(l);
    forall m
      ensures Due(l', m, history) == Due(l, m, history)
    {
      SameDue(l, l', m, history);
    }
  }

  /** Offering one ring entry. */
  lemma FillOne(l: Listener, rest: seq<Message>, history: seq<Entry>, ringSize: nat, chanSize: nat)
    requires ListenerOk(l, history, rest, chanSize) && SnapshotOk(l, history, ringSize) && Accounted(l, history, rest)
    requires Dumps(l.mode) && !l.closed && l.since == |history|
    requires rest != [] && |rest| <= |l.snapshot| && rest == l.snapshot[|l.snapshot| - |rest|..]
    requires (forall r :: r in rest ==> Behind(l, r)) && |Stream(l)| <= |l.snapshot| - |rest|
    ensures var l' := TrySend(l, rest[0], chanSize);
      && ListenerOk(l', history, rest[1..], chanSize) && SnapshotOk(l', history, ringSize) && Accounted(l', history, rest[1..])
      && l'.mode == l.mode && l'.closed == l.closed && l'.failed == l.failed && l'.since == l.since && l'.snapshot == l.snapshot
      && rest[1..] == l'.snapshot[|l'.snapshot| - |rest[1..]|..] && |Stream(l')| <= |l'.snapshot| - |rest[1..]|
      && forall r :: r in rest[1..] ==> Behind(l', r)
  {
    hide Recent, Accounted, ListenerOk;
    var m := rest[0];
    assert m in rest;
    SnapshotDue(l, history, m, ringSize);
    SnapshotIncreasing(l, history, ringSize);
    KeptWhenFilling(l, history, rest, chanSize);
    OfferOk(l, m, history, rest, rest[1..], chanSize);
    OfferAccounted(l, m, history, rest, rest[1..], chanSize);
    forall r | r in rest[1..]
      ensures Behind(TrySend(l, m, chanSize), r)
    {
      assert m.number < r.number;
    }
  }

  lemma KeptWhenFilling(l: Listener, history: seq<Entry>, rest: seq<Message>, chanSize: nat)
    requires ListenerOk(l, history, rest, chanSize) && !l.closed && rest != []
    requires |rest| <= |l.snapshot| && rest == l.snapshot[|l.snapshot| - |rest|..] && |Stream(l)| <= |l.snapshot| - |rest|
    ensures Dumps(l.mode) && !l.failed ==> KeepsOldest(TrySend(l, rest[0], chanSize), rest[1..], chanSize)
  {
    if Dumps(l.mode) && !l.failed {
      FillKeepsOldest(l, rest, chanSize);
    }
  }

  lemma SnapshotDue(l: Listener, history: seq<Entry>, m: Message, ringSize: nat)
    requires SnapshotOk(l, history, ringSize) && Dumps(l.mode) && m in l.snapshot
    ensures Due(l, m, history) && m.number < l.since
  {
  }

  lemma SnapshotIncreasing(l: Listener, history: seq<Entry>, ringSize: nat)
    requires SnapshotOk(l, history, ringSize)
    ensures Increasing(l.snapshot)
  {
  }

  /** The next listener to be told comes once. */
  lemma NextOnce(st: State)
    requires ListOk(st) && SendOk(st) && st.sending.Some? && st.sending.value.rest != []
    ensures var rest := st.sending.value.rest; rest[0] in st.listeners && rest[0] !in rest[1..]
  {
    hide Behind;
    var rest := st.sending.value.rest;
    var k := |st.listeners| - |rest|;
    forall j | 0 < j < |rest|
      ensures rest[j] != rest[0]
    {
      assert Less(st.listeners[k], st.listeners[k + j]);
    }
  }

  lemma OfferInv(st: State, ringSize: nat, chanSize: nat)
    requires Inv(st, ringSize, chanSize) && st.sending.Some?
    requires st.sending.value.rest != [] ==> st.sending.value.rest[0] < |st.conns|
    ensures Inv(OfferStep(st, chanSize), ringSize, chanSize)
  {
    var s := st.sending.value;
    if s.rest == [] {
      EndSendInv(st, ringSize, chanSize);
    } else if s.tested {
      TellInv(st, ringSize, chanSize);
    } else {
      TestInv(st, ringSize, chanSize);
    }
  }

  lemma EndSendInv(st: State, ringSize: nat, chanSize: nat)
    requires Inv(st, ringSize, chanSize) && st.sending.Some? && st.sending.value.rest == []
    ensures Inv(OfferStep(st, chanSize), ringSize, chanSize)
  {
    hide ListenerOk, SnapshotOk, Accounted, Recent, Behind, Follows;
    var st' := OfferStep(st, chanSize);
    FilterPairwise(st.listeners, (id: nat) => id !in st.sending.value.remove, Less);
    forall i | 0 <= i < |st'.conns|
      ensures ConnOk(st', i, ringSize, chanSize)
    {
      assert ConnOk(st, i, ringSize, chanSize);
    }
  }

  lemma TestInv(st: State, ringSize: nat, chanSize: nat)
    requires Inv(st, ringSize, chanSize) && st.sending.Some? && st.sending.value.rest != [] && !st.sending.value.tested
    requires st.sending.value.rest[0] < |st.conns|
    ensures Inv(OfferStep(st, chanSize), ringSize, chanSize)
  {
    hide ListenerOk, SnapshotOk, Recent, Behind, Pairwise, Follows;
    var st' := OfferStep(st, chanSize);
    forall i | 0 <= i < |st'.conns|
      ensures ConnOk(st', i, ringSize, chanSize)
    {
      assert ConnOk(st, i, ringSize, chanSize);
      SameConnOk(st, st', i, ringSize, chanSize);
    }
  }

  lemma TellInv(st: State, ringSize: nat, chanSize: nat)
    requires Inv(st, ringSize, chanSize) && st.sending.Some? && st.sending.value.rest != [] && st.sending.value.tested
    requires st.sending.value.rest[0] < |st.conns|
    ensures Inv(OfferStep(st, chanSize), ringSize, chanSize)
  {
    hide ListenerOk, SnapshotOk, Accounted, Recent, ListOk, Behind, TrySend;
    var s, st' := st.sending.value, OfferStep(st, chanSize);
    var id := s.rest[0];
    var l := st.conns[id];
    NextOnce(st);
    ListedIsOpen(st, id);
    assert ConnOk(st, id, ringSize, chanSize);
    TellOne(l, s.message, st.history, ringSize, chanSize);
    UpdateListOk(st, id, TrySend(l, s.message, chanSize));
    assert ListOk(st');
    forall i | 0 <= i < |st'.conns|
      ensures ConnOk(st', i, ringSize, chanSize)
    {
      assert ConnOk(st, i, ringSize, chanSize);
    }
    assert s.rest[1..] == st.listeners[|st.listeners| - |s.rest[1..]|..];
    forall k | k in s.rest[1..]
      ensures k < |st'.conns| && Behind(st'.conns[k], s.message) && st'.conns[k].since < |st'.history|
    {
      assert k in s.rest && k != id;
    }
    assert SendOk(st');
  }

  lemma ListedIsOpen(st: State, id: nat)
    requires ListOk(st) && id in st.listeners
    ensures id < |st.conns| && !st.conns[id].closed && Follows(st.conns[id].mode)
  {
  }

  /** Telling a follower the latest message. */
  lemma TellOne(l: Listener, m: Message, history: seq<Entry>, ringSize: nat, chanSize: nat)
    requires ListenerOk(l, history, [], chanSize) && SnapshotOk(l, history, ringSize) && Accounted(l, history, [m])
    requires !l.closed && Follows(l.mode) && Behind(l, m) && l.since < |history|
    requires m == Message(|history| - 1, history[|history| - 1])
    ensures var l' := TrySend(l, m, chanSize);
      && ListenerOk(l', history, [], chanSize) && SnapshotOk(l', history, ringSize) && Accounted(l', history, [])
      && l'.mode == l.mode && l'.closed == l.closed && l'.failed == l.failed
  {
    hide Recent, Accounted, ListenerOk;
    KeptWhenTelling(l, m, history, chanSize);
    OfferOk(l, m, history, [], [], chanSize);
    OfferAccounted(l, m, history, [m], [], chanSize);
  }

  lemma KeptWhenTelling(l: Listener, m: Message, history: seq<Entry>, chanSize: nat)
    requires ListenerOk(l, history, [], chanSize) && !l.closed
    ensures Dumps(l.mode) && !l.failed ==> KeepsOldest(TrySend(l, m, chanSize), [], chanSize)
  {
    if Dumps(l.mode) && !l.failed {
      SendKeepsOldest(l, m, chanSize);
    }
  }

  lemma StepInv(st: State, ev: Event, ringSize: nat, chanSize: nat)
    requires Inv(st, ringSize, chanSize)
    ensures Inv(Step(st, ev, ringSize, chanSize), ringSize, chanSize)
  {
    hide Inv, LogStep, QueryStep, FillStep, OfferStep, GoStep;
    match ev
    case Log(e) => if Idle(st) { LogInv(st, e, ringSize, chanSize); }
    case Offer =>
      if st.sending.Some? && (st.sending.value.rest != [] ==> st.sending.value.rest[0] < |st.conns|) { OfferInv(st, ringSize, chanSize); }
    case Query(mode) => if Idle(st) { QueryInv(st, mode, ringSize, chanSize); }
    case Fill => if st.filling.Some? && st.filling.value.0 < |st.conns| { FillInv(st, ringSize, chanSize); }
    case Drain(id) => GoInv(st, id, true, ringSize, chanSize);
    case Break(id) => GoInv(st, id, false, ringSize, chanSize);
  }

  lemma {:induction false} RunInv(st: State, events: seq<Event>, ringSize: nat, chanSize: nat)
    requires Inv(st, ringSize, chanSize)
    ensures Inv(RunFrom(st, events, ringSize, chanSize), ringSize, chanSize)
  {
    hide Inv, Step;
    if events != [] {
      RunInv(st, events[..|events| - 1], ringSize, chanSize);
      StepInv(RunFrom(st, events[..|events| - 1], ringSize, chanSize), events[|events| - 1], ringSize, chanSize);
    }
  }

  lemma StartInv(ringSize: nat, chanSize: nat)
    ensures Inv(START, ringSize, chanSize)
  {
  }

  lemma {:induction false} ExecInv(events: seq<Event>, ringSize: nat, chanSize: nat)
    ensures Inv(Exec(events, ringSize, chanSize), ringSize, chanSize)
  {
    hide Inv, RunFrom;
    StartInv(ringSize, chanSize);
    RunInv(START, events, ringSize, chanSize);
  }

  // ----- what every interleaving guarantees -----

  /** After any run the ring holds exactly the last messages, as many as fit, oldest first. */
  lemma {:induction false} RingHoldsLast(events: seq<Event>, ringSize: nat, chanSize: nat)
    ensures var st := Exec(events, ringSize, chanSize);
      st.ring == Recent(st.history, ringSize)
  {
    hide Exec, Recent;
    ExecInv(events, ringSize, chanSize);
  }

  /**
    Whatever the order of messages, queries, writes and write errors: what a
    listener got and has queued is in order and free of repetition, comes from the
    ring as it was if the query asks for a dump and from later messages if it asks
    to follow; its channel never exceeds its capacity, is closed exactly when it was
    for a dump only and the dump is over, and is never sent on once closed.
   */
  lemma ListenerGuarantee(events: seq<Event>, ringSize: nat, chanSize: nat, i: nat)
    requires i < |Exec(events, ringSize, chanSize).conns|
    ensures var st := Exec(events, ringSize, chanSize);
      var l := st.conns[i];
      && Increasing(Stream(l))
      && (forall m :: m in Stream(l) ==> Due(l, m, st.history))
      && l.since <= |st.history| && l.snapshot == Recent(st.history[..l.since], ringSize)
      && |l.queue| <= chanSize
      && !l.panicked
      && (l.closed <==> l.mode == DUMP && !Dumping(st, i))
  {
    hide Exec, Recent, Due, FillOk, SendOk, ListOk;
    ExecInv(events, ringSize, chanSize);
    assert ConnOk(Exec(events, ringSize, chanSize), i, ringSize, chanSize);
  }

  /**
    Nothing is lost without trace: when the handler is idle, what a connection without
    an error asked for is exactly what was written to it, waits in its channel or was
    dropped because the channel was full, and nothing is in two of these places.
   */
  lemma Conservation(events: seq<Event>, ringSize: nat, chanSize: nat, i: nat, m: Message)
    requires i < |Exec(events, ringSize, chanSize).conns|
    requires var st := Exec(events, ringSize, chanSize); Idle(st) && !st.conns[i].failed
    ensures var st := Exec(events, ringSize, chanSize);
      var l := st.conns[i];
      && (Due(l, m, st.history) <==> m in Stream(l) || m in l.dropped)
      && !(m in Stream(l) && m in l.dropped)
      && !(m in l.received && m in l.queue)
  {
    hide Exec, Recent, Due, FillOk, SendOk, ListOk, KeepsOldest;
    ExecInv(events, ringSize, chanSize);
    var st := Exec(events, ringSize, chanSize);
    var l := st.conns[i];
    assert ConnOk(st, i, ringSize, chanSize);
    forall u, v | 0 <= u < |l.received| && 0 <= v < |l.queue|
      ensures l.received[u] != l.queue[v]
    {
      assert Stream(l)[u].number < Stream(l)[|l.received| + v].number;
    }
  }

  /** Everything logged, numbered. */
  function Numbered(history: seq<Entry>): seq<Message> {
    Recent(history, |history|)
  }

  // ----- what is offered, and when it is dropped -----

  /** The message that this step offers to connection `i`, if it does. */
  function OfferedTo(st: State, ev: Event, i: nat): Option<Message> {
    if ev.Offer? && st.sending.Some? && st.sending.value.tested && st.sending.value.rest != [] && st.sending.value.rest[0] == i
    then Some(st.sending.value.message)
    else if ev.Fill? && st.filling.Some? && st.filling.value.0 == i && st.filling.value.1 != []
    then Some(st.filling.value.1[0])
    else None
  }

  /** An open channel takes what it is offered, if it has room; else that is dropped. Nothing else is ever dropped. */
  lemma OfferedOrDropped(st: State, ev: Event, ringSize: nat, chanSize: nat, i: nat)
    requires i < |st.conns|
    ensures var l, st' := st.conns[i], Step(st, ev, ringSize, chanSize);
      && i < |st'.conns|
      && var l', offered := st'.conns[i], OfferedTo(st, ev, i);
         && (offered.Some? && !l.closed && |l.queue| < chanSize ==> l'.queue == l.queue + [offered.value] && l'.dropped == l.dropped)
         && (offered.Some? && !l.closed && |l.queue| >= chanSize ==> l'.queue == l.queue && l'.dropped == l.dropped + [offered.value])
         && (offered.None? ==> l'.dropped == l.dropped)
  {
    hide LastN, Follows, Dumps;
  }

  /** Whenever connection `i` was offered a message its channel had room. */
  predicate HadRoom(events: seq<Event>, ringSize: nat, chanSize: nat, i: nat) {
    forall k :: 0 <= k < |events| ==>
      var st := Exec(events[..k], ringSize, chanSize);
      i < |st.conns| && OfferedTo(st, events[k], i).Some? ==> |st.conns[i].queue| < chanSize
  }

  /** Then nothing was dropped. */
  lemma {:induction false} RoomyDropsNothing(events: seq<Event>, ringSize: nat, chanSize: nat, i: nat)
    requires HadRoom(events, ringSize, chanSize, i)
    ensures var st := Exec(events, ringSize, chanSize); i < |st.conns| ==> st.conns[i].dropped == []
  {
    hide Step, OfferedTo;
    if events != [] {
      var init, ev := events[..|events| - 1], events[|events| - 1];
      assert forall k :: 0 <= k < |init| ==> init[..k] == events[..k];
      RoomyDropsNothing(init, ringSize, chanSize, i);
      var st := Exec(init, ringSize, chanSize);
      if i < |st.conns| {
        OfferedOrDropped(st, ev, ringSize, chanSize, i);
        if OfferedTo(st, ev, i).Some? {
          ClosedIsNotOffered(init, ev, ringSize, chanSize, i);
        }
      } else {
        NewDroppedNothing(st, ev, ringSize, chanSize, i);
      }
    }
  }

  lemma NewDroppedNothing(st: State, ev: Event, ringSize: nat, chanSize: nat, i: nat)
    requires i >= |st.conns|
    ensures var st' := Step(st, ev, ringSize, chanSize); i < |st'.conns| ==> st'.conns[i].dropped == []
  {
    hide LastN, Follows, Dumps, TrySend;
  }

  /** A closed channel is never offered anything. */
  lemma ClosedIsNotOffered(events: seq<Event>, ev: Event, ringSize: nat, chanSize: nat, i: nat)
    requires i < |Exec(events, ringSize, chanSize).conns| && OfferedTo(Exec(events, ringSize, chanSize), ev, i).Some?
    ensures !Exec(events, ringSize, chanSize).conns[i].closed
  {
    hide Exec, Recent, ConnsOk, Behind;
    ExecInv(events, ringSize, chanSize);
    var st := Exec(events, ringSize, chanSize);
    if ev.Offer? {
      NextOnce(st);
    }
  }

  /** Taking a message logs it; taking a query opens a connection of that mode from now on; both only when idle. */
  lemma TakenWhenIdle(st: State, e: Entry, mode: int, ringSize: nat, chanSize: nat)
    ensures Idle(st) ==> Step(st, Log(e), ringSize, chanSize).history == st.history + [e]
    ensures Idle(st) ==>
      var st' := Step(st, Query(mode), ringSize, chanSize);
      && |st'.conns| == |st.conns| + 1 && st'.conns[..|st.conns|] == st.conns
      && st'.conns[|st.conns|].mode == mode && st'.conns[|st.conns|].since == |st.history| && Stream(st'.conns[|st.conns|]) == []
    ensures !Idle(st) ==> Step(st, Log(e), ringSize, chanSize) == st == Step(st, Query(mode), ringSize, chanSize)
  {
    hide LastN;
  }

  /** A goroutine writes the message that has waited longest, or fails to and has an error from then on. */
  lemma DrainWrites(st: State, id: nat, ringSize: nat, chanSize: nat)
    requires id < |st.conns| && !st.conns[id].failed && st.conns[id].queue != []
    ensures var l, l' := st.conns[id], Step(st, Drain(id), ringSize, chanSize).conns[id];
      l'.received == l.received + [l.queue[0]] && [l.queue[0]] + l'.queue == l.queue && !l'.failed
    ensures var l, l' := st.conns[id], Step(st, Break(id), ringSize, chanSize).conns[id];
      l'.received == l.received && [l.queue[0]] + l'.queue == l.queue && l'.failed
  {
  }

  /**
    A follower without error whose channel had room whenever it was offered something gets every message
    logged since it asked, in order, after the ring as it was then if it asked for a dump too.
   */
  lemma FollowerMissesNothing(events: seq<Event>, ringSize: nat, chanSize: nat, i: nat)
    requires i < |Exec(events, ringSize, chanSize).conns| && HadRoom(events, ringSize, chanSize, i)
    requires var st := Exec(events, ringSize, chanSize);
      Idle(st) && (st.conns[i].mode == 1 || st.conns[i].mode == 2) && !st.conns[i].failed
    ensures var st := Exec(events, ringSize, chanSize);
      var l := st.conns[i];
      l.since <= |st.history|
      && Stream(l) == (if l.mode == 2 then Recent(st.history[..l.since], ringSize) else []) + Numbered(st.history)[l.since..]
  {
    hide Exec, Due, Recent, Stream, Increasing, HadRoom;
    var st := Exec(events, ringSize, chanSize);
    var l := st.conns[i];
    RoomyDropsNothing(events, ringSize, chanSize, i);
    ListenerGuarantee(events, ringSize, chanSize, i);
    var all := (if Dumps(l.mode) then l.snapshot else []) + Numbered(st.history)[l.since..];
    DueIsAll(l, st.history, ringSize);
    forall m
      ensures m in Stream(l) <==> m in all
    {
      Conservation(events, ringSize, chanSize, i, m);
    }
    IncreasingUnique(Stream(l), all);
  }

  /** What a follower asked for, in order. */
  lemma DueIsAll(l: Listener, history: seq<Entry>, ringSize: nat)
    requires SnapshotOk(l, history, ringSize) && Follows(l.mode)
    ensures var all := (if Dumps(l.mode) then l.snapshot else []) + Numbered(history)[l.since..];
      Increasing(all) && forall m :: m in all <==> Due(l, m, history)
  {
    var later := Numbered(history)[l.since..];
    assert forall k :: 0 <= k < |later| ==> later[k] == Message(l.since + k, history[l.since + k]);
    forall m | Due(l, m, history) && m.number >= l.since
      ensures m in later
    {
      assert later[m.number - l.since] == m;
    }
  }

  lemma {:induction false} IncreasingUnique(a: seq<Message>, b: seq<Message>)
    requires Increasing(a) && Increasing(b) && forall m :: m in a <==> m in b
    ensures a == b
    decreases |a|
  {
    assert |b| == 0 || b[0] in b;
    if a != [] {
      assert a[0] in a;
      var j :| 0 <= j < |b| && b[j] == a[0];
      assert b[0] in b;
      var k :| 0 <= k < |a| && a[k] == b[0];
      assert j == 0 && k == 0;
      forall m
        ensures m in a[1..] <==> m in b[1..]
      {
        TailMembers(a, m);
        TailMembers(b, m);
      }
      IncreasingUnique(a[1..], b[1..]);
    }
  }

  lemma TailMembers(s: seq<Message>, m: Message)
    requires s != [] && Increasing(s)
    ensures m in s[1..] <==> m in s && m != s[0]
  {
  }

  /**
    A dump reaches a healthy connection: at least the oldest messages of the ring,
    as many as the channel holds; all of them when the channel is as large as the
    ring, and then nothing else.
   */
  lemma DumpDelivers(events: seq<Event>, ringSize: nat, chanSize: nat, i: nat)
    requires i < |Exec(events, ringSize, chanSize).conns|
    requires var st := Exec(events, ringSize, chanSize);
      st.filling.None? && (st.conns[i].mode == 0 || st.conns[i].mode == 2) && !st.conns[i].failed
    ensures var st := Exec(events, ringSize, chanSize);
      var l := st.conns[i];
      && |l.snapshot| == Min(l.since, ringSize)
      && l.snapshot[..Min(|l.snapshot|, chanSize)] <= Stream(l)
      && (chanSize >= ringSize ==> l.snapshot <= Stream(l))
      && (chanSize >= ringSize && l.mode == 0 ==> Stream(l) == l.snapshot)
  {
    hide Exec, FillOk, SendOk, ListOk, Accounted;
    ExecInv(events, ringSize, chanSize);
    var st := Exec(events, ringSize, chanSize);
    var l := st.conns[i];
    assert ConnOk(st, i, ringSize, chanSize);
    assert l.snapshot[..|l.snapshot|] == l.snapshot;
    if chanSize >= ringSize && l.mode == DUMP {
      NothingElse(l, st.history, ringSize);
    }
  }

  /** A dump that holds the whole snapshot holds no more. */
  lemma NothingElse(l: Listener, history: seq<Entry>, ringSize: nat)
    requires SnapshotOk(l, history, ringSize) && l.mode == DUMP
    requires Increasing(Stream(l)) && l.snapshot <= Stream(l)
    requires forall m :: m in Stream(l) ==> Due(l, m, history)
    ensures Stream(l) == l.snapshot
  {
    assert forall m :: m in Stream(l) ==> m in l.snapshot;
    if |Stream(l)| > |l.snapshot| {
      assert Stream(l)[|l.snapshot|] in Stream(l);
      LaterIsNew(Stream(l), l.snapshot, |l.snapshot|);
      assert false;
    }
  }

  lemma LaterIsNew(s: seq<Message>, prefix: seq<Message>, k: nat)
    requires Increasing(s) && prefix <= s && |prefix| <= k < |s|
    ensures s[k] !in prefix
  {
    forall j | 0 <= j < |prefix|
      ensures prefix[j] != s[k]
    {
      assert prefix[j] == s[j];
    }
  }

  // ----- listeners with errors -----

  /** A listener with an error that is off the list, or will be when the message on its way is through. */
  predicate OnTheWayOut(st: State, id: nat) {
    id < |st.conns| && st.conns[id].failed
    && (id in st.listeners ==>
          st.sending.Some? && var s := st.sending.value;
          id in s.remove || (id in s.rest && !(s.tested && s.rest[0] == id)))
  }

  lemma StepWayOut(st: State, ev: Event, ringSize: nat, chanSize: nat, id: nat)
    requires OnTheWayOut(st, id)
    ensures OnTheWayOut(Step(st, ev, ringSize, chanSize), id)
  {
    hide LastN, Follows, Dumps;
    if st.sending.Some? && st.sending.value.rest != [] {
      var rest := st.sending.value.rest;
      assert rest == [rest[0]] + rest[1..];
    }
  }

  lemma {:induction false} RunWayOut(st: State, events: seq<Event>, ringSize: nat, chanSize: nat, id: nat)
    requires OnTheWayOut(st, id)
    ensures OnTheWayOut(RunFrom(st, events, ringSize, chanSize), id)
  {
    hide OnTheWayOut, Step;
    if events != [] {
      RunWayOut(st, events[..|events| - 1], ringSize, chanSize, id);
      StepWayOut(RunFrom(st, events[..|events| - 1], ringSize, chanSize), events[|events| - 1], ringSize, chanSize, id);
    }
  }

  /**
    A listener that had an error when a message was taken is off the list once the handler
    is through with that message, whatever happens meanwhile, and for good; one without is on it.
   */
  lemma FailedAreDropped(events: seq<Event>, e: Entry, more: seq<Event>, ringSize: nat, chanSize: nat, id: nat)
    requires Idle(Exec(events, ringSize, chanSize)) && id < |Exec(events, ringSize, chanSize).conns|
    requires RunFrom(Step(Exec(events, ringSize, chanSize), Log(e), ringSize, chanSize), more, ringSize, chanSize).sending.None?
    ensures var st := Exec(events, ringSize, chanSize);
      var now := RunFrom(Step(st, Log(e), ringSize, chanSize), more, ringSize, chanSize);
      && (st.conns[id].failed ==> id !in now.listeners)
      && (id < |now.conns| && Follows(now.conns[id].mode) && !now.conns[id].failed ==> id in now.listeners)
  {
    hide Exec, RunFrom, ListenerOk, SnapshotOk, FillOk, Recent, LastN, Pairwise, ConnsOk;
    var st := Exec(events, ringSize, chanSize);
    var taken := Step(st, Log(e), ringSize, chanSize);
    if st.conns[id].failed {
      assert OnTheWayOut(taken, id);
      RunWayOut(taken, more, ringSize, chanSize, id);
    }
    ExecInv(events, ringSize, chanSize);
    StepInv(st, Log(e), ringSize, chanSize);
    RunInv(taken, more, ringSize, chanSize);
  }

  // ----- the handler does not get stuck -----

  /** How many steps of its own the handler needs at most to be idle again. */
  function Ahead(st: State): nat {
    (if st.filling.Some? then |st.filling.value.1| + 1 else 0)
    + (if st.sending.Some? then 2 * |st.sending.value.rest| + (if st.sending.value.tested then 0 else 1) else 0)
  }

  /** A busy handler always has a next step, and comes nearer its end with each; goroutines do not set it back. */
  lemma HandlerProgresses(events: seq<Event>, ringSize: nat, chanSize: nat)
    ensures var st := Exec(events, ringSize, chanSize);
      && (st.filling.Some? ==> Ahead(Step(st, Fill, ringSize, chanSize)) < Ahead(st))
      && (st.sending.Some? ==> Ahead(Step(st, Offer, ringSize, chanSize)) < Ahead(st))
      && (Ahead(st) == 0 ==> Idle(st))
      && (forall id :: Ahead(Step(st, Drain(id), ringSize, chanSize)) == Ahead(st) == Ahead(Step(st, Break(id), ringSize, chanSize)))
  {
    hide Exec, ListOk, Recent, ConnsOk, Behind, GoStep, TrySend;
    ExecInv(events, ringSize, chanSize);
    var st := Exec(events, ringSize, chanSize);
    assert st.sending.Some? && st.sending.value.rest != [] ==> st.sending.value.rest[0] in st.sending.value.rest;
  }

  // ----- the code -----

  /** `container/ring`: a circle of slots and the one that is written next. */
  class Ring {
    var slots: array<Option<Message>>
    var at: nat
    ghost var items: seq<Message>  // what `Do` visits, oldest first

    function Slot(k: nat): nat
      requires at + k < 2 * slots.Length
      reads this
    {
      if at + k < slots.Length then at + k else at + k - slots.Length
    }

    ghost predicate Valid()
      reads this, slots
    {
      && at < slots.Length && |items| <= slots.Length
      && (forall k :: 0 <= k < slots.Length - |items| ==> slots[Slot(k)] == None)
      && (forall k :: slots.Length - |items| <= k < slots.Length ==>
            slots[Slot(k)] == Some(items[k - (slots.Length - |items|)]))
    }

    constructor (size: nat)
      requires size > 0
      ensures Valid() && fresh(slots) && slots.Length == size && items == []
    {
      slots := new Option<Message>[size](_ => None);
      at := 0;
      items := [];
    }

    /** `ring.Value = m; ring = ring.Next()`. */
    method Put(m: Message)
      requires Valid()
      modifies this, slots
      ensures Valid() && slots == old(slots)
      ensures items == LastN(old(items) + [m], slots.Length)
    {
      ghost var n := slots.Length;
      slots[at] := Some(m);
      at := if at + 1 < slots.Length then at + 1 else 0;
      items := LastN(items + [m], slots.Length);
      forall k | 0 <= k < n
        ensures slots[Slot(k)] == if k < n - |items| then None else Some(items[k - (n - |items|)])
      {
        if k < n - 1 {
          assert Slot(k) == old(Slot(k + 1)) && Slot(k) != old(at);
          assert slots[Slot(k)] == old(slots[Slot(k + 1)]);
        } else {
          assert Slot(k) == old(at);
        }
      }
    }

    /** `ring.Do`, the values that are entries. */
    method Do() returns (visited: seq<Message>)
      requires Valid()
      ensures visited == items
    {
      visited := [];
      for k := 0 to slots.Length
        invariant visited == items[..if k <= slots.Length - |items| then 0 else k - (slots.Length - |items|)]
      {
        var v := slots[Slot(k)];
        if v.Some? {
          visited := visited + [v.value];
        }
      }
    }
  }

  predicate IsGo(ev: Event) {
    ev.Drain? || ev.Break?
  }

  /** What goroutines do, one event after another. */
  function GoRun(conns: seq<Listener>, events: seq<Event>): seq<Listener> {
    if events == [] then conns
    else
      var before := GoRun(conns, events[..|events| - 1]);
      match events[|events| - 1]
      case Drain(id) => GoStep(before, id, true)
      case Break(id) => GoStep(before, id, false)
      case _ => before
  }

  lemma {:induction false} GoRunLength(conns: seq<Listener>, events: seq<Event>)
    ensures |GoRun(conns, events)| == |conns|
  {
    if events != [] {
      GoRunLength(conns, events[..|events| - 1]);
    }
  }

  lemma {:induction false} GoRunIsRun(st: State, events: seq<Event>, ringSize: nat, chanSize: nat)
    requires forall ev :: ev in events ==> IsGo(ev)
    ensures RunFrom(st, events, ringSize, chanSize) == st.(conns := GoRun(st.conns, events))
  {
    hide GoStep;
    if events != [] {
      GoRunIsRun(st, events[..|events| - 1], ringSize, chanSize);
      assert events[|events| - 1] in events;
    }
  }

  lemma {:induction false} RunAppend(st: State, a: seq<Event>, b: seq<Event>, ringSize: nat, chanSize: nat)
    ensures RunFrom(st, a + b, ringSize, chanSize) == RunFrom(RunFrom(st, a, ringSize, chanSize), b, ringSize, chanSize)
  {
    hide Step;
    if b == [] {
      assert a + b == a;
    } else {
      assert (a + b)[..|a + b| - 1] == a + b[..|b| - 1];
      RunAppend(st, a, b[..|b| - 1], ringSize, chanSize);
    }
  }

  /** One more step, after whatever goroutines did. */
  lemma RunPauseStep(st: State, events: seq<Event>, pause: seq<Event>, ev: Event, ringSize: nat, chanSize: nat)
    requires forall g :: g in pause ==> IsGo(g)
    ensures var before := RunFrom(st, events, ringSize, chanSize);
      RunFrom(st, events + pause + [ev], ringSize, chanSize)
        == Step(before.(conns := GoRun(before.conns, pause)), ev, ringSize, chanSize)
  {
    hide Step, GoRun;
    RunAppend(st, events, pause, ringSize, chanSize);
    GoRunIsRun(RunFrom(st, events, ringSize, chanSize), pause, ringSize, chanSize);
    assert (events + pause + [ev])[..|events + pause|] == events + pause;
  }

  /** The handler. Between its steps goroutines run, as `meanwhile` says; the events that took place are returned. */
  class Handler {
    const chanSize: nat
    const ring: Ring
    var conns: seq<Listener>
    var listeners: seq<nat>
    var history: seq<Entry>  // only to number messages and to state what they are

    ghost function With(filling: Option<(nat, seq<Message>)>, sending: Option<Sending>): State
      reads this, ring
    {
      State(history, ring.items, conns, listeners, filling, sending)
    }

    ghost function Now(): State
      reads this, ring
    {
      With(None, None)
    }

    ghost predicate Valid()
      reads this, ring, ring.slots
    {
      ring.Valid() && Inv(Now(), ring.slots.Length, chanSize)
    }

    constructor (ringSize: nat, size: nat)
      requires ringSize > 0
      ensures Valid() && fresh(ring) && fresh(ring.slots)
      ensures Now() == START && ring.slots.Length == ringSize && chanSize == size
    {
      chanSize := size;
      ring := new Ring(ringSize);
      conns, listeners, history := [], [], [];
      StartInv(ringSize, size);
    }

    method Goroutines(events: seq<Event>)
      modifies `conns
      ensures conns == GoRun(old(conns), events) && |conns| == |old(conns)|
    {
      for j := 0 to |events|
        modifies `conns
        invariant conns == GoRun(old(conns), events[..j])
      {
        assert events[..j + 1][..j] == events[..j];
        match events[j]
        case Drain(id) =>
          if id < |conns| && !conns[id].failed && conns[id].queue != [] {
            conns := conns[id := Drained(conns[id], true)];
          }
        case Break(id) =>
          if id < |conns| && !conns[id].failed && conns[id].queue != [] {
            conns := conns[id := Drained(conns[id], false)];
          }
        case _ =>
      }
      assert events[..|events|] == events;
      GoRunLength(old(conns), events);
    }

    /** The loop that removes the listeners noted. */
    method RemoveAll(remove: seq<nat>)
      modifies `listeners
      ensures listeners == Filter(old(listeners), (id: nat) => id !in remove)
    {
      FilterAll(listeners, (id: nat) => id !in remove[..0]);
      for j := 0 to |remove|
        modifies `listeners
        invariant listeners == Filter(old(listeners), (id: nat) => id !in remove[..j])
      {
        var gone := remove[j];
        assert remove[..j + 1] == remove[..j] + [gone];
        FilterFilter(old(listeners), (id: nat) => id !in remove[..j], (id: nat) => id != gone, (id: nat) => id !in remove[..j + 1]);
        listeners := Filter(listeners, (id: nat) => id != gone);
      }
      assert remove[..|remove|] == remove;
    }

    /** The handler's first case: store the message, offer it to every listener, drop those with errors. */
    method TakeLog(e: Entry, meanwhile: nat -> seq<Event>) returns (ghost events: seq<Event>)
      requires Valid() && OnlyGo(meanwhile)
      modifies this, ring, ring.slots
      ensures Valid() && ring.slots == old(ring.slots)
      ensures Now() == RunFrom(old(Now()), events, ring.slots.Length, chanSize)
      ensures Takes(events, Log(e), Offer)
    {
      hide LastN, TrySend, GoRun, Inv, Takes, RunFrom, OnlyGo;
      ghost var st, n := Now(), ring.slots.Length;
      var m := Message(|history|, e);
      ListedExist(st, n, chanSize);
      history := history + [e];
      ring.Put(m);
      events := [Log(e)];
      TakesFirst(st, Log(e), Offer, n, chanSize);
      var remove: seq<nat>;
      remove, events := OfferAll(m, meanwhile, st, events, Log(e));
      RunPauseStep(st, events, [], Offer, n, chanSize);
      GoRunNone(conns);
      TakesMore(events, [], Log(e), Offer);
      events := events + [] + [Offer];
      RemoveAll(remove);
      RunInv(st, events, n, chanSize);
    }

    /** The loop over the listeners: test for an error, offer the message, note those with errors. */
    method OfferAll(m: Message, meanwhile: nat -> seq<Event>, ghost st: State, ghost past: seq<Event>, ghost first: Event)
        returns (remove: seq<nat>, ghost events: seq<Event>)
      requires OnlyGo(meanwhile) && Takes(past, first, Offer)
      requires forall id :: id in listeners ==> id < |conns|
      requires With(None, Some(Sending(m, listeners, false, []))) == RunFrom(st, past, ring.slots.Length, chanSize)
      modifies `conns
      ensures |conns| == |old(conns)| && Takes(events, first, Offer)
      ensures With(None, Some(Sending(m, [], false, remove))) == RunFrom(st, events, ring.slots.Length, chanSize)
    {
      hide LastN, TrySend, GoRun, Inv, Takes, RunFrom, OnlyGo;
      ghost var n := ring.slots.Length;
      remove, events := [], past;
      assert listeners[0..] == listeners;
      for j := 0 to |listeners|
        modifies `conns
        invariant |conns| == |old(conns)| && Takes(events, first, Offer)
        invariant With(None, Some(Sending(m, listeners[j..], false, remove))) == RunFrom(st, events, n, chanSize)
      {
        var id := listeners[j];
        assert id in listeners;
        assert listeners[j..][1..] == listeners[j + 1..];
        Pause(meanwhile, 2 * j);
        RunPauseStep(st, events, meanwhile(2 * j), Offer, n, chanSize);
        TakesMore(events, meanwhile(2 * j), first, Offer);
        Goroutines(meanwhile(2 * j));
        events := events + meanwhile(2 * j) + [Offer];
        if conns[id].failed {
          remove := remove + [id];
          continue;
        }
        Pause(meanwhile, 2 * j + 1);
        RunPauseStep(st, events, meanwhile(2 * j + 1), Offer, n, chanSize);
        TakesMore(events, meanwhile(2 * j + 1), first, Offer);
        Goroutines(meanwhile(2 * j + 1));
        events := events + meanwhile(2 * j + 1) + [Offer];
        conns := conns[id := TrySend(conns[id], m, chanSize)];
      }
    }

    /** The handler's second case: a new listener, registered and filled as its mode asks. */
    method TakeQuery(mode: int, meanwhile: nat -> seq<Event>) returns (ghost events: seq<Event>)
      requires Valid() && OnlyGo(meanwhile)
      modifies this
      ensures Valid()
      ensures Now() == RunFrom(old(Now()), events, ring.slots.Length, chanSize)
      ensures Takes(events, Query(mode), Fill)
    {
      hide TrySend, GoRun, Inv, Takes, RunFrom, OnlyGo;
      ghost var st, n := Now(), ring.slots.Length;
      var id := |conns|;
      var items := ring.Do();
      conns := conns + [Listener(mode, [], [], [], false, false, false, |history|, items)];
      events := [Query(mode)];
      TakesFirst(st, Query(mode), Fill, n, chanSize);
      if mode == DUMP_FOLLOW || mode == FOLLOW {
        listeners := listeners + [id];
      }
      if mode == DUMP_FOLLOW || mode == DUMP {
        events := Dump(id, items, meanwhile, st, events, Query(mode));
        RunPauseStep(st, events, [], Fill, n, chanSize);
        GoRunNone(conns);
        TakesMore(events, [], Query(mode), Fill);
        events := events + [] + [Fill];
      }
      if mode == DUMP {
        conns := conns[id := conns[id].(closed := true)];
      }
      RunInv(st, events, n, chanSize);
    }

    /** The dump of the ring into a new listener. */
    method Dump(id: nat, items: seq<Message>, meanwhile: nat -> seq<Event>, ghost st: State, ghost past: seq<Event>, ghost first: Event)
        returns (ghost events: seq<Event>)
      requires OnlyGo(meanwhile) && Takes(past, first, Fill) && id < |conns|
      requires With(Some((id, items)), None) == RunFrom(st, past, ring.slots.Length, chanSize)
      modifies `conns
      ensures |conns| == |old(conns)| && conns[id].mode == old(conns)[id].mode && Takes(events, first, Fill)
      ensures With(Some((id, [])), None) == RunFrom(st, events, ring.slots.Length, chanSize)
    {
      hide GoRun, Inv, Takes, RunFrom, OnlyGo, GoStep;
      ghost var n := ring.slots.Length;
      events := past;
      assert items[0..] == items;
      for j := 0 to |items|
        modifies `conns
        invariant |conns| == |old(conns)| && conns[id].mode == old(conns)[id].mode && Takes(events, first, Fill)
        invariant With(Some((id, items[j..])), None) == RunFrom(st, events, n, chanSize)
      {
        assert items[j..][1..] == items[j + 1..];
        Pause(meanwhile, j);
        RunPauseStep(st, events, meanwhile(j), Fill, n, chanSize);
        TakesMore(events, meanwhile(j), first, Fill);
        GoRunMode(conns, meanwhile(j), id);
        Goroutines(meanwhile(j));
        events := events + meanwhile(j) + [Fill];
        conns := conns[id := TrySend(conns[id], items[j], chanSize)];
      }
    }
  }

  /** Goroutines do nothing else meanwhile. */
  ghost predicate OnlyGo(meanwhile: nat -> seq<Event>) {
    forall j, ev :: ev in meanwhile(j) ==> IsGo(ev)
  }

  lemma Pause(meanwhile: nat -> seq<Event>, j: nat)
    requires OnlyGo(meanwhile)
    ensures forall ev :: ev in meanwhile(j) ==> IsGo(ev)
  {
  }

  /** The handler takes `first` and then makes only steps of one kind. */
  predicate Takes(events: seq<Event>, first: Event, own: Event) {
    events != [] && events[0] == first && forall k :: 1 <= k < |events| ==> events[k] == own || IsGo(events[k])
  }

  lemma TakesFirst(st: State, first: Event, own: Event, ringSize: nat, chanSize: nat)
    ensures Takes([first], first, own) && RunFrom(st, [first], ringSize, chanSize) == Step(st, first, ringSize, chanSize)
  {
    hide Step;
    assert [first][..0] == [];
  }

  lemma TakesMore(events: seq<Event>, pause: seq<Event>, first: Event, own: Event)
    requires Takes(events, first, own) && forall ev :: ev in pause ==> IsGo(ev)
    ensures Takes(events + pause + [own], first, own)
  {
  }

  lemma {:induction false} GoRunMode(conns: seq<Listener>, events: seq<Event>, id: nat)
    requires id < |conns|
    ensures |GoRun(conns, events)| == |conns| && GoRun(conns, events)[id].mode == conns[id].mode
  {
    if events != [] {
      GoRunMode(conns, events[..|events| - 1], id);
    }
  }

  lemma GoRunNone(conns: seq<Listener>)
    ensures GoRun(conns, []) == conns
  {
  }

  lemma ListedExist(st: State, ringSize: nat, chanSize: nat)
    requires Inv(st, ringSize, chanSize)
    ensures forall id :: id in st.listeners ==> id < |st.conns|
  {
  }

}
