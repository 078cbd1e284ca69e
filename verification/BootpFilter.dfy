/**
  The packet filter of the DHCP client: eleven classic BPF instructions. The
  machine is modelled for the instructions that occur, and the program is shown
  to accept exactly the UDP datagrams to the BOOTP client port.
 */
module BootpFilter {
  import opened Results

  type Packet = seq<bv8>

  datatype Instruction =
    | LoadHalfAbs(k: nat)                     // A := half word at k
    | LoadByteAbs(k: nat)                     // A := byte at k
    | LoadHalfInd(k: nat)                     // A := half word at X + k
    | LoadIndexMsh(k: nat)                    // X := 4 * (low four bits of the byte at k)
    | JumpEq(value: bv32, jt: nat, jf: nat)   // skip jt instructions if A == value, else jf
    | JumpSet(value: bv32, jt: nat, jf: nat)  // skip jt instructions if A & value != 0, else jf
    | Return(k: nat)                          // accept that many bytes

  const ETHERTYPE_IP: bv32 := 0x0800
  const IPPROTO_UDP: bv32 := 17
  const BOOTPC: bv32 := 68
  const WHOLE_PACKET := 0x0fff_ffff

  const PROGRAM: seq<Instruction> := [
    LoadHalfAbs(12), JumpEq(ETHERTYPE_IP, 0, 8),
    LoadByteAbs(23), JumpEq(IPPROTO_UDP, 0, 6),
    LoadHalfAbs(20), JumpSet(0x1fff, 4, 0),
    LoadIndexMsh(14),
    LoadHalfInd(16), JumpEq(BOOTPC, 0, 1),
    Return(WHOLE_PACKET),
    Return(0)]

  // ----- the machine -----

  function Word(hi: bv8, lo: bv8): bv32 {
    ((hi as bv32) << 8) | (lo as bv32)
  }

  /** Two bytes in network order. */
  function Half(p: Packet, i: nat): bv32
    requires i + 1 < |p|
  {
    Word(p[i], p[i + 1])
  }

  function HeaderLength(b: bv8): nat {
    4 * ((b & 0x0f) as nat)
  }

  datatype Machine = Machine(a: bv32, x: nat)

  /** What one instruction does: go on elsewhere, always further down, or stop with a result. */
  datatype Move = Go(pc: nat, m: Machine) | Stop(k: nat)

  /** A load outside the packet stops with 0. */
  function Step(i: Instruction, p: Packet, pc: nat, m: Machine): (r: Move)
    ensures r.Go? ==> r.pc > pc
  {
    match i
    case LoadHalfAbs(k) => if k + 1 < |p| then Go(pc + 1, m.(a := Half(p, k))) else Stop(0)
    case LoadByteAbs(k) => if k < |p| then Go(pc + 1, m.(a := p[k] as bv32)) else Stop(0)
    case LoadHalfInd(k) => if m.x + k + 1 < |p| then Go(pc + 1, m.(a := Half(p, m.x + k))) else Stop(0)
    case LoadIndexMsh(k) => if k < |p| then Go(pc + 1, m.(x := HeaderLength(p[k]))) else Stop(0)
    case JumpEq(value, jt, jf) => Go(pc + 1 + if m.a == value then jt else jf, m)
    case JumpSet(value, jt, jf) => Go(pc + 1 + if m.a & value != 0 then jt else jf, m)
    case Return(k) => Stop(k)
  }

  /** What the program returns from instruction `pc` on; None if it runs off the end. */
  function Run(program: seq<Instruction>, p: Packet, pc: nat, m: Machine): Option<nat>
    decreases |program| - pc
  {
    if pc >= |program| then None
    else
      match Step(program[pc], p, pc, m)
      case Go(pc', m') => Run(program, p, pc', m')
      case Stop(k) => Some(k)
  }

  // ----- what the kernel checks before it accepts a program -----

  /** Every jump lands inside the program and the last instruction returns. */
  predicate Checked(program: seq<Instruction>) {
    && program != [] && program[|program| - 1].Return?
    && forall i :: 0 <= i < |program| ==>
         match program[i]
         case JumpEq(_, jt, jf) => i + 1 + jt < |program| && i + 1 + jf < |program|
         case JumpSet(_, jt, jf) => i + 1 + jt < |program| && i + 1 + jf < |program|
         case _ => true
  }

  /** The values a program can return. */
  function Returns(program: seq<Instruction>): set<nat> {
    set i | 0 <= i < |program| && program[i].Return? :: program[i].k
  }

  lemma StaysInside(program: seq<Instruction>, p: Packet, pc: nat, m: Machine)
    requires Checked(program) && pc < |program|
    ensures match Step(program[pc], p, pc, m)
      case Go(pc', _) => pc' < |program|
      case Stop(k) => k == 0 || k in Returns(program)
  {
    hide Half, HeaderLength;
  }

  /** A checked program never runs off its end: it returns 0 for a bad load or what some return instruction says. */
  lemma {:induction false} CheckedHalts(program: seq<Instruction>, p: Packet, pc: nat, m: Machine)
    requires Checked(program) && pc < |program|
    ensures var r := Run(program, p, pc, m);
      r.Some? && (r.value == 0 || r.value in Returns(program))
    decreases |program| - pc
  {
    hide Checked, Step, Returns;
    StaysInside(program, p, pc, m);
    match Step(program[pc], p, pc, m)
    case Go(pc', m') => CheckedHalts(program, p, pc', m');
    case Stop(k) =>
  }

  lemma ProgramIsChecked()
    ensures Checked(PROGRAM) && Returns(PROGRAM) == {0, WHOLE_PACKET}
  {
    assert PROGRAM[9] == Return(WHOLE_PACKET) && PROGRAM[10] == Return(0);
  }

  // ----- what the filter is for -----

  /**
    An Ethernet frame holding an IPv4 packet (type 0x0800), protocol UDP, fragment
    offset zero, whose UDP header, found behind an IP header of the length it
    states, names port 68 as destination.
   */
  predicate IsForBootpClient(p: Packet) {
    && |p| >= 24
    && p[12] == 0x08 && p[13] == 0x00
    && p[23] == 17
    && p[20] & 0x1f == 0 && p[21] == 0
    && var udp := 14 + 4 * ((p[14] & 0x0f) as nat);
       udp + 3 < |p| && p[udp + 2] == 0 && p[udp + 3] == 68
  }

  lemma HalfEquals(hi: bv8, lo: bv8, h: bv8, l: bv8)
    ensures Word(hi, lo) == Word(h, l) <==> hi == h && lo == l
  {
  }

  lemma OffsetBits(hi: bv8, lo: bv8)
    ensures Word(hi, lo) & 0x1fff == 0 <==> hi & 0x1f == 0 && lo == 0
  {
  }

  lemma Constants()
    ensures Word(0x08, 0x00) == ETHERTYPE_IP && Word(0, 68) == BOOTPC
  {
  }

  /** The same with the length as the machine's load gives it. */
  lemma BootpByLoad(p: Packet)
    requires |p| >= 24
    ensures IsForBootpClient(p) <==>
      && p[12] == 0x08 && p[13] == 0x00 && p[23] == 17 && p[20] & 0x1f == 0 && p[21] == 0
      && var udp := 14 + HeaderLength(p[14]); udp + 3 < |p| && p[udp + 2] == 0 && p[udp + 3] == 68
  {
  }

  lemma TooShort(p: Packet)
    requires |p| < 24
    ensures !IsForBootpClient(p)
  {
  }

  /** From the header length on. */
  lemma PortAccepts(p: Packet, m: Machine)
    requires |p| >= 24
    ensures var udp := 14 + HeaderLength(p[14]);
      Run(PROGRAM, p, 6, m) == if udp + 3 < |p| && p[udp + 2] == 0 && p[udp + 3] == 68 then Some(WHOLE_PACKET) else Some(0)
  {
    hide Word, HeaderLength;
    Constants();
    var x := HeaderLength(p[14]);
    var b := m.(x := x);
    assert Run(PROGRAM, p, 6, m) == Run(PROGRAM, p, 7, b);
    if x + 17 < |p| {
      HalfEquals(p[x + 16], p[x + 17], 0, 68);
      var c := b.(a := Half(p, x + 16));
      assert Run(PROGRAM, p, 7, b) == Run(PROGRAM, p, 8, c);
      assert Run(PROGRAM, p, 9, c) == Some(WHOLE_PACKET);
      assert Run(PROGRAM, p, 10, c) == Some(0);
    }
  }

  /** From the fragment check on. */
  lemma TailAccepts(p: Packet, m: Machine)
    requires |p| >= 24
    ensures var udp := 14 + HeaderLength(p[14]);
      Run(PROGRAM, p, 4, m) == if p[20] & 0x1f == 0 && p[21] == 0 && udp + 3 < |p| && p[udp + 2] == 0 && p[udp + 3] == 68
                               then Some(WHOLE_PACKET) else Some(0)
  {
    hide Word, HeaderLength;
    OffsetBits(p[20], p[21]);
    var a := m.(a := Half(p, 20));
    assert Run(PROGRAM, p, 4, m) == Run(PROGRAM, p, 5, a);
    assert Run(PROGRAM, p, 10, a) == Some(0);
    PortAccepts(p, a);
  }

  /** On every packet, of any length, the filter accepts exactly the datagrams it is for. */
  lemma FilterAccepts(p: Packet, m: Machine)
    ensures Run(PROGRAM, p, 0, m) == if IsForBootpClient(p) then Some(0x0fff_ffff) else Some(0)
  {
    hide Word, HeaderLength, IsForBootpClient;
    if |p| < 24 {
      TooShort(p);
      ShortDropped(p, m);
    } else {
      BootpByLoad(p);
      Constants();
      HalfEquals(p[12], p[13], 0x08, 0x00);
      var a := m.(a := Half(p, 12));
      assert Run(PROGRAM, p, 0, m) == Run(PROGRAM, p, 1, a);
      assert Run(PROGRAM, p, 10, a) == Some(0);
      assert Run(PROGRAM, p, 1, a) == Run(PROGRAM, p, if a.a == ETHERTYPE_IP then 2 else 10, a);
      var b := a.(a := p[23] as bv32);
      assert Run(PROGRAM, p, 2, a) == Run(PROGRAM, p, 3, b);
      assert Run(PROGRAM, p, 10, b) == Some(0);
      assert Run(PROGRAM, p, 3, b) == Run(PROGRAM, p, if b.a == IPPROTO_UDP then 4 else 10, b);
      assert p[23] as bv32 == IPPROTO_UDP <==> p[23] == 17;
      TailAccepts(p, b);
    }
  }

  lemma ShortDropped(p: Packet, m: Machine)
    requires |p| < 24
    ensures Run(PROGRAM, p, 0, m) == Some(0)
  {
    hide Word;
    if 13 < |p| {
      var a := m.(a := Half(p, 12));
      assert Run(PROGRAM, p, 0, m) == Run(PROGRAM, p, 1, a);
      assert Run(PROGRAM, p, 10, a) == Some(0) && Run(PROGRAM, p, 2, a) == Some(0);
    }
  }
}
