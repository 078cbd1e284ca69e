/**
  logwrite: one file per source, rotated when it grows too large. Rotation shifts
  `path.0`, `path.1`, ... one place up by renaming from the highest number down,
  then starts an empty file. The files together are always the end of what was written.
 */
module LogRotate {
  import opened Results

  type Bytes = seq<bv8>

  datatype Name = Current | Rotated(number: int)

  type Disk = map<Name, Bytes>

  // ----- what the files say -----

  /** All rotated files, oldest (highest number) first, then the current one. */
  function Joined(rotated: seq<Bytes>, current: Bytes): Bytes {
    if rotated == [] then current
    else rotated[|rotated| - 1] + Joined(rotated[..|rotated| - 1], current)
  }

  predicate IsSuffix(a: Bytes, b: Bytes) {
    |a| <= |b| && a == b[|b| - |a|..]
  }

  lemma {:induction false} JoinedAppend(rotated: seq<Bytes>, current: Bytes, more: Bytes)
    ensures Joined(rotated, current + more) == Joined(rotated, current) + more
  {
    if rotated != [] {
      var oldest, rest := rotated[|rotated| - 1], rotated[..|rotated| - 1];
      JoinedAppend(rest, current, more);
      assert oldest + (Joined(rest, current) + more) == oldest + Joined(rest, current) + more;
    }
  }

  /** Moving the current file to the front of the rotated ones and starting afresh changes nothing overall. */
  lemma {:induction false} JoinedShift(rotated: seq<Bytes>, current: Bytes)
    ensures Joined([current] + rotated, []) == Joined(rotated, current)
  {
    var all := [current] + rotated;
    if rotated == [] {
      assert all == [current] && all[..0] == [];
      assert current + [] == current;
    } else {
      assert all[..|all| - 1] == [current] + rotated[..|rotated| - 1];
      JoinedShift(rotated[..|rotated| - 1], current);
    }
  }

  /** Losing the oldest files leaves the end. */
  lemma {:induction false} JoinedDrop(rotated: seq<Bytes>, current: Bytes, keep: nat)
    requires keep <= |rotated|
    ensures IsSuffix(Joined(rotated[..keep], current), Joined(rotated, current))
    decreases |rotated|
  {
    if keep == |rotated| {
      assert rotated[..keep] == rotated;
    } else {
      var rest := rotated[..|rotated| - 1];
      assert rest[..keep] == rotated[..keep];
      JoinedDrop(rest, current, keep);
    }
  }

  lemma SuffixTransitive(a: Bytes, b: Bytes, c: Bytes)
    requires IsSuffix(a, b) && IsSuffix(b, c)
    ensures IsSuffix(a, c)
  {
  }

  lemma SuffixAppend(a: Bytes, b: Bytes, more: Bytes)
    requires IsSuffix(a, b)
    ensures IsSuffix(a + more, b + more)
  {
  }

  // ----- a whole run -----

  datatype Files = Files(rotated: seq<Bytes>, current: Bytes)

  /** A line written whole, or a write that failed after part of it; the file is then closed and opened again later. */
  datatype Event = Line(bytes: Bytes) | Broken(part: Bytes)

  function Limit(maxFiles: int): nat {
    if maxFiles < 0 then 0 else maxFiles
  }

  /** One rotation: everything moves up one place; the file that held the last allowed number is overwritten, files beyond it stay. */
  function Rotate(f: Files, maxFiles: int): Files {
    if maxFiles <= 0 then f.(current := [])
    else if |f.rotated| < maxFiles then Files([f.current] + f.rotated, [])
    else Files([f.current] + f.rotated[..maxFiles - 1] + f.rotated[maxFiles..], [])
  }

  function Handle(f: Files, ev: Event, maxSize: int, maxFiles: int): Files {
    match ev
    case Line(bytes) =>
      var grown := f.(current := f.current + bytes);
      if |grown.current| > maxSize then Rotate(grown, maxFiles) else grown
    case Broken(part) => f.(current := f.current + part)
  }

  function Run(f: Files, events: seq<Event>, maxSize: int, maxFiles: int): Files {
    if events == [] then f else Handle(Run(f, events[..|events| - 1], maxSize, maxFiles), events[|events| - 1], maxSize, maxFiles)
  }

  function Written(ev: Event): Bytes {
    if ev.Line? then ev.bytes else ev.part
  }

  function AllWritten(events: seq<Event>): Bytes {
    if events == [] then [] else AllWritten(events[..|events| - 1]) + Written(events[|events| - 1])
  }

  lemma RotateSuffix(f: Files, maxFiles: int)
    requires |f.rotated| <= Limit(maxFiles)
    ensures IsSuffix(Joined(Rotate(f, maxFiles).rotated, []), Joined(f.rotated, f.current))
    ensures |Rotate(f, maxFiles).rotated| <= Limit(maxFiles)
    ensures |f.rotated| < Limit(maxFiles) ==> Joined(Rotate(f, maxFiles).rotated, []) == Joined(f.rotated, f.current)
  {
    if maxFiles > 0 {
      var all := [f.current] + f.rotated;
      JoinedShift(f.rotated, f.current);
      if |f.rotated| == maxFiles {
        assert [f.current] + f.rotated[..maxFiles - 1] + f.rotated[maxFiles..] == all[..maxFiles];
        JoinedDrop(all, [], maxFiles);
      }
    }
  }

  lemma HandleSuffix(f: Files, ev: Event, maxSize: int, maxFiles: int, all: Bytes)
    requires |f.rotated| <= Limit(maxFiles)
    requires IsSuffix(Joined(f.rotated, f.current), all)
    ensures var f' := Handle(f, ev, maxSize, maxFiles);
      && IsSuffix(Joined(f'.rotated, f'.current), all + Written(ev))
      && |f'.rotated| <= Limit(maxFiles)
      && (ev.Line? ==> |f'.current| <= maxSize || f'.current == [])
  {
    hide Joined, IsSuffix;
    var grown := f.(current := f.current + Written(ev));
    JoinedAppend(f.rotated, f.current, Written(ev));
    SuffixAppend(Joined(f.rotated, f.current), all, Written(ev));
    if ev.Line? && |grown.current| > maxSize {
      RotateSuffix(grown, maxFiles);
      SuffixTransitive(Joined(Rotate(grown, maxFiles).rotated, []), Joined(grown.rotated, grown.current), all + Written(ev));
    }
  }

  /** A line that leaves the file within its limit is only appended. */
  lemma WithinLimitNothingMoves(f: Files, bytes: Bytes, maxSize: int, maxFiles: int)
    requires |f.current + bytes| <= maxSize
    ensures Handle(f, Line(bytes), maxSize, maxFiles) == Files(f.rotated, f.current + bytes)
  {
  }

  /** A line that does not is the end of the newest rotated file, if any may be kept, and a new file begins. */
  lemma AboveLimitRotates(f: Files, bytes: Bytes, maxSize: int, maxFiles: int)
    requires |f.current + bytes| > maxSize
    ensures var f' := Handle(f, Line(bytes), maxSize, maxFiles);
      && f'.current == []
      && (maxFiles > 0 ==>
            |f'.rotated| > 0 && f'.rotated[0] == f.current + bytes
            && forall i :: 0 < i < maxFiles && i <= |f.rotated| ==> i < |f'.rotated| && f'.rotated[i] == f.rotated[i - 1])
      && (maxFiles <= 0 ==> f'.rotated == f.rotated)
  {
  }

  /** A failed write leaves the bytes that got through, and nothing moves. */
  lemma BrokenNothingMoves(f: Files, part: Bytes, maxSize: int, maxFiles: int)
    ensures Handle(f, Broken(part), maxSize, maxFiles) == Files(f.rotated, f.current + part)
  {
  }


  /**
    After any run the files, oldest to newest, are the end of everything written;
    there are at most `maxFiles` rotated ones; and a handled line never leaves the
    current file above its limit.
   */
  lemma {:induction false} RunKeepsTheEnd(f: Files, events: seq<Event>, maxSize: int, maxFiles: int)
    requires |f.rotated| <= Limit(maxFiles)
    ensures var f' := Run(f, events, maxSize, maxFiles);
      && IsSuffix(Joined(f'.rotated, f'.current), Joined(f.rotated, f.current) + AllWritten(events))
      && |f'.rotated| <= Limit(maxFiles)
      && (events != [] && events[|events| - 1].Line? ==> |f'.current| <= maxSize || f'.current == [])
  {
    hide Handle, Joined;
    var base := Joined(f.rotated, f.current);
    if events == [] {
      assert base + [] == base;
    } else {
      var init, last := events[..|events| - 1], events[|events| - 1];
      RunKeepsTheEnd(f, init, maxSize, maxFiles);
      HandleSuffix(Run(f, init, maxSize, maxFiles), last, maxSize, maxFiles, base + AllWritten(init));
      assert base + AllWritten(init) + Written(last) == base + AllWritten(events);
    }
  }

  /** Only one of these files says anything. */
  lemma {:induction false} JoinedOne(rotated: seq<Bytes>, current: Bytes, i: int, b: Bytes)
    requires -1 <= i < |rotated|
    requires current == if i == -1 then b else []
    requires forall j :: 0 <= j < |rotated| ==> rotated[j] == if j == i then b else []
    ensures Joined(rotated, current) == b
  {
    if rotated != [] {
      var k := |rotated| - 1;
      if i == k {
        JoinedOne(rotated[..k], [], -1, []);
        assert b + [] == b;
      } else {
        JoinedOne(rotated[..k], current, i, b);
        assert [] + b == b;
      }
    }
  }

  lemma JoinedTop(rotated: seq<Bytes>, current: Bytes)
    requires rotated != []
    ensures Joined(rotated, current) == rotated[|rotated| - 1] + Joined(rotated[..|rotated| - 1], current)
  {
  }

  /** With more rotated files than allowed, a rotation takes one from the middle: here the only two that say anything. */
  lemma TooManyFiles(f: Files, maxFiles: int, a: bv8, b: bv8)
    requires |f.rotated| > Limit(maxFiles) && a != b
    requires f.current == if maxFiles <= 0 then [b] else []
    requires forall i :: 0 <= i < |f.rotated| - 1 ==> f.rotated[i] == if i == maxFiles - 1 then [b] else []
    requires f.rotated[|f.rotated| - 1] == [a]
    ensures Joined(f.rotated, f.current) == [a, b]
    ensures Joined(Rotate(f, maxFiles).rotated, []) == [a]
  {
    hide Joined, Rotate;
    var k := |f.rotated|;
    JoinedTop(f.rotated, f.current);
    JoinedOne(f.rotated[..k - 1], f.current, Limit(maxFiles) - 1, [b]);
    AfterRotation(f, maxFiles, a, b);
    JoinedOne(Rotate(f, maxFiles).rotated, [], k - 1, [a]);
  }

  lemma AfterRotation(f: Files, maxFiles: int, a: bv8, b: bv8)
    requires |f.rotated| > Limit(maxFiles) && (maxFiles > 0 ==> f.current == [])
    requires forall i :: 0 <= i < |f.rotated| - 1 ==> f.rotated[i] == if i == maxFiles - 1 then [b] else []
    requires f.rotated[|f.rotated| - 1] == [a]
    ensures var after := Rotate(f, maxFiles).rotated;
      |after| == |f.rotated| && forall j :: 0 <= j < |after| ==> after[j] == if j == |f.rotated| - 1 then [a] else []
  {
    if maxFiles > 0 {
      var after := Rotate(f, maxFiles).rotated;
      assert forall j :: 1 <= j < maxFiles ==> after[j] == f.rotated[j - 1];
      assert forall j :: maxFiles <= j < |after| ==> after[j] == f.rotated[j];
    }
  }

  function Telling(k: nat, maxFiles: int): Files {
    Files(seq(k, i => if i == k - 1 then [0] else if i == maxFiles - 1 then [1] else []), if maxFiles <= 0 then [1] else [])
  }

  /** Exactly when a rotation leaves the end of what was there, whatever that was: when there are no more files than allowed. */
  lemma RotateKeepsTheEndIff(k: nat, maxFiles: int)
    ensures (forall f: Files :: |f.rotated| == k ==> IsSuffix(Joined(Rotate(f, maxFiles).rotated, []), Joined(f.rotated, f.current)))
      <==> k <= Limit(maxFiles)
  {
    if k <= Limit(maxFiles) {
      forall f: Files | |f.rotated| == k
        ensures IsSuffix(Joined(Rotate(f, maxFiles).rotated, []), Joined(f.rotated, f.current))
      {
        RotateSuffix(f, maxFiles);
      }
    } else {
      var f := Telling(k, maxFiles);
      TooManyFiles(f, maxFiles, 0, 1);
      assert !IsSuffix([0], [0, 1]);
    }
  }

  // ----- the code -----

  /** The disk shows these files under contiguous numbers from 0, and no others. */
  predicate Shows(disk: Disk, f: Files) {
    && Current in disk && disk[Current] == f.current
    && (forall n :: n in disk && n.Rotated? ==> 0 <= n.number < |f.rotated|)
    && (forall i :: 0 <= i < |f.rotated| ==> Rotated(i) in disk && disk[Rotated(i)] == f.rotated[i])
  }

  function Content(disk: Disk, j: int): Option<Bytes> {
    if Rotated(j) in disk then Some(disk[Rotated(j)]) else None
  }

  function Before(f: Files, j: int): Option<Bytes> {
    if 0 <= j < |f.rotated| then Some(f.rotated[j]) else None
  }

  /** What file `j` holds when the renaming loop has come down to `i`: shifted above `i`, as before below, gone at `i` itself. */
  function Expected(f: Files, maxFiles: int, i: int, j: int): Option<Bytes> {
    if i < j < maxFiles then (if j == 0 then Some(f.current) else Before(f, j - 1))
    else if j == i && i < maxFiles - 1 then None
    else Before(f, j)
  }

  lemma ShiftStep(disk: Disk, disk': Disk, f: Files, maxFiles: int, i: int)
    requires 0 <= i <= maxFiles - 1
    requires Current in disk && disk[Current] == f.current
    requires forall j :: Content(disk, j) == Expected(f, maxFiles, i, j)
    requires var newer := if i == 0 then Current else Rotated(i - 1);
      disk' == if newer in disk then (disk - {newer})[Rotated(i) := disk[newer]] else disk
    ensures i > 0 ==> Current in disk' && disk'[Current] == f.current
    ensures forall j :: Content(disk', j) == Expected(f, maxFiles, i - 1, j)
  {
    forall j
      ensures Content(disk', j) == Expected(f, maxFiles, i - 1, j)
    {
      assert Content(disk, j) == Expected(f, maxFiles, i, j);
      assert Content(disk, i - 1) == Expected(f, maxFiles, i, i - 1);
      assert Content(disk, i) == Expected(f, maxFiles, i, i);
    }
  }

  lemma ShiftDone(disk: Disk, f: Files, maxFiles: int, i: int)
    requires i < 0 && i == if maxFiles <= 0 then maxFiles - 1 else -1
    requires forall j :: Content(disk, j) == Expected(f, maxFiles, i, j)
    ensures Shows(disk[Current := []], Rotate(f, maxFiles))
  {
    var disk', f' := disk[Current := []], Rotate(f, maxFiles);
    forall j
      ensures Content(disk', j) == if 0 <= j < |f'.rotated| then Some(f'.rotated[j]) else None
    {
      assert Content(disk, j) == Expected(f, maxFiles, i, j);
    }
    forall n | n in disk' && n.Rotated?
      ensures 0 <= n.number < |f'.rotated|
    {
      assert Content(disk', n.number).Some?;
    }
    forall j | 0 <= j < |f'.rotated|
      ensures Rotated(j) in disk' && disk'[Rotated(j)] == f'.rotated[j]
    {
      assert Content(disk', j).Some?;
    }
  }

  lemma ShownContent(disk: Disk, f: Files, j: int)
    requires Shows(disk, f)
    ensures Content(disk, j) == Before(f, j)
  {
  }

  class LogFile {
    var disk: Disk         // the files of this log
    var bytesWritten: int

    ghost predicate Valid(f: Files)
      reads this
    {
      Shows(disk, f) && bytesWritten == |f.current|
    }

    /** Opening an existing log appends to it; its size counts. */
    constructor (existing: Disk, ghost f: Files)
      requires Shows(existing, f)
      ensures Valid(f)
    {
      disk := existing;
      bytesWritten := |existing[Current]|;
    }

    method Write(s: Bytes, ghost f: Files)
      requires Valid(f)
      modifies this
      ensures Valid(f.(current := f.current + s))
    {
      disk := disk[Current := disk[Current] + s];
      bytesWritten := bytesWritten + |s|;
    }

    /** `os.Rename`, true unless the file does not exist. */
    method Rename(newer: Name, older: Name) returns (existed: bool)
      modifies `disk
      ensures existed <==> newer in old(disk)
      ensures disk == if existed then (old(disk) - {newer})[older := old(disk)[newer]] else old(disk)
    {
      existed := newer in disk;
      if existed {
        disk := (disk - {newer})[older := disk[newer]];
      }
    }

    /** The descending loop of renames, then a new file. */
    method RotateFiles(maxLogFiles: int, ghost f: Files)
      requires Valid(f)
      modifies this
      ensures Valid(Rotate(f, maxLogFiles))
    {
      var i := maxLogFiles - 1;
      forall j
        ensures Content(disk, j) == Expected(f, maxLogFiles, i, j)
      {
        ShownContent(disk, f, j);
      }
      while i >= 0
        invariant i <= maxLogFiles - 1 && (i >= -1 || maxLogFiles < 0) && (maxLogFiles <= 0 ==> i == maxLogFiles - 1)
        invariant i >= 0 || maxLogFiles <= 0 ==> Current in disk && disk[Current] == f.current
        invariant forall j :: Content(disk, j) == Expected(f, maxLogFiles, i, j)
        decreases i
      {
        var newer := if i == 0 then Current else Rotated(i - 1);
        ghost var was := disk;
        var existed := Rename(newer, Rotated(i));
        ShiftStep(was, disk, f, maxLogFiles, i);
        i := i - 1;
      }
      ShiftDone(disk, f, maxLogFiles, i);
      disk := disk[Current := []];
      bytesWritten := 0;
    }

    /** A message: written, and the log rotated if that made it too large. */
    method HandleLine(s: Bytes, maxLogSize: int, maxLogFiles: int, ghost f: Files)
      requires Valid(f)
      modifies this
      ensures Valid(Handle(f, Line(s), maxLogSize, maxLogFiles))
      ensures bytesWritten <= maxLogSize || bytesWritten == 0
    {
      Write(s, f);
      if bytesWritten > maxLogSize {
        RotateFiles(maxLogFiles, f.(current := f.current + s));
      }
    }

    /** A write that fails partway; the file is closed and, for the next message, opened again. */
    method HandleBroken(part: Bytes, ghost f: Files)
      requires Valid(f)
      modifies this
      ensures Valid(Handle(f, Broken(part), 0, 0))
    {
      disk := disk[Current := disk[Current] + part];
      bytesWritten := |disk[Current]|;
    }
  }
}
