/**
  start-stop-daemon's `--retry` schedule: the text is compiled into an array of
  items in which `forever` has become a goto at the end, and the array is then
  interpreted. The meaning of a schedule is given here on its own, and both the
  compiler and the interpreter are proved against it.
 */
module StopSchedule {
  import opened Results
  import opened Text
  import opened Polling

  datatype Item = Timeout(value: int) | Signal(value: int) | Goto(value: int) | Forever

  const INT_MAX := 0x7fff_ffff
  const ULONG_MAX := 0xffff_ffff_ffff_ffff
  const SIGKILL := 9
  const ITEM_BUF := 20

  // ----- single items -----

  predicate IsDigit(c: char) {
    '0' <= c <= '9'
  }

  predicate IsSpace(c: char) {
    c == ' ' || '\t' <= c <= '\r'
  }

  function SkipSpaces(s: string): string {
    if s != "" && IsSpace(s[0]) then SkipSpaces(s[1..]) else s
  }

  function Decimal(s: string): nat
    requires forall c :: c in s ==> IsDigit(c)
  {
    if s == "" then 0 else 
      assert s[|s| - 1] in s;
      assert IsDigit(s[|s| - 1]);
      10 * Decimal(s[..|s| - 1]) + (s[|s| - 1] as int - '0' as int)
  }

  /** `parse_integer`: what `strtoul` reads must be the whole text and fit an int; a minus sign wraps around. */
  function ParseInteger(s: string): Option<int> {
    var t := SkipSpaces(s);
    var negative := t != "" && t[0] == '-';
    var digits := if t != "" && (t[0] == '-' || t[0] == '+') then t[1..] else t;
    if digits == "" || exists c :: c in digits && !IsDigit(c) then None
    else
      var v := Decimal(digits);
      var ul := if v > ULONG_MAX then ULONG_MAX else if negative && v != 0 then ULONG_MAX + 1 - v else v;
      if ul > INT_MAX then None else Some(ul)
  }

  const SIGNALS: seq<(string, int)> := [
    ("ABRT", 6), ("ALRM", 14), ("FPE", 8), ("HUP", 1), ("ILL", 4), ("INT", 2), ("KILL", 9), ("PIPE", 13),
    ("QUIT", 3), ("SEGV", 11), ("TERM", 15), ("USR1", 10), ("USR2", 12), ("CHLD", 17), ("CONT", 18),
    ("STOP", 19), ("TSTP", 20), ("TTIN", 21), ("TTOU", 22)]

  function FindSignal(name: string, table: seq<(string, int)>): Option<int> {
    if table == [] then None
    else if table[0].0 == name then Some(table[0].1)
    else FindSignal(name, table[1..])
  }

  function ParseSignal(s: string): Option<int> {
    var n := ParseInteger(s);
    if n.Some? then n else FindSignal(s, SIGNALS)
  }

  /** `parse_schedule_item`: None is a usage error. */
  function ParseItem(s: string): (r: Option<Item>)
    ensures r.Some? ==> !r.value.Goto?
  {
    if s == "forever" then Some(Forever)
    else if s != "" && IsDigit(s[0]) then
      var n := ParseInteger(s);
      if n.Some? then Some(Timeout(n.value)) else None
    else
      var n := ParseSignal(if s != "" && s[0] == '-' then s[1..] else s);
      if n.Some? then Some(Signal(n.value)) else None
  }

  lemma {:induction false} SignalsFit(name: string, table: seq<(string, int)>)
    requires forall i :: 0 <= i < |table| ==> 0 <= table[i].1 <= INT_MAX
    ensures FindSignal(name, table).Some? ==> 0 <= FindSignal(name, table).value <= INT_MAX
  {
    if table != [] {
      SignalsFit(name, table[1..]);
    }
  }

  /** Timeouts and signal numbers fit a C int and are not negative, however the text was signed or wrapped. */
  lemma ItemValuesFit(s: string)
    ensures match ParseItem(s)
      case Some(Timeout(value)) => 0 <= value <= INT_MAX
      case Some(Signal(value)) => 0 <= value <= INT_MAX
      case _ => true
  {
    hide SkipSpaces, Decimal;
    SignalsFit(if s != "" && s[0] == '-' then s[1..] else s, SIGNALS);
  }

  // ----- items written out are read back -----

  /** A number in decimal. */
  function Digits(n: nat): (s: string)
    ensures s != "" && forall c :: c in s ==> IsDigit(c)
  {
    var last := ['0' + (n % 10) as char];
    if n < 10 then last else Digits(n / 10) + last
  }

  lemma {:induction false} DigitsRead(n: nat)
    ensures Decimal(Digits(n)) == n
  {
    var s := Digits(n);
    assert s[|s| - 1] as int - '0' as int == n % 10;
    if n >= 10 {
      assert s[..|s| - 1] == Digits(n / 10);
      DigitsRead(n / 10);
    } else {
      assert s[..|s| - 1] == "";
    }
  }

  /** The whole of a text of digits is read, if the number fits. */
  lemma IntegerOfDigits(s: string)
    requires s != "" && forall c :: c in s ==> IsDigit(c)
    ensures ParseInteger(s) == if Decimal(s) <= INT_MAX then Some(Decimal(s)) else None
  {
    hide Decimal;
    assert s[0] in s;
    assert SkipSpaces(s) == s;
  }

  /** A timeout is exactly a non-empty text of digits for a number that fits an int. */
  lemma TimeoutIff(s: string, v: int)
    ensures ParseItem(s) == Some(Timeout(v)) <==> s != "" && (forall c :: c in s ==> IsDigit(c)) && Decimal(s) == v <= INT_MAX
  {
    hide Decimal, ParseInteger, ParseSignal;
    if s != "" && IsDigit(s[0]) {
      DigitIsNotForever(s);
      if forall c :: c in s ==> IsDigit(c) {
        IntegerOfDigits(s);
      } else {
        NotAllDigits(s);
      }
    } else {
      assert s != "" ==> s[0] in s;
    }
  }

  lemma DigitIsNotForever(s: string)
    requires s != "" && IsDigit(s[0])
    ensures s != "forever"
  {
    assert "forever"[0] == 'f';
  }

  lemma NotAllDigits(s: string)
    requires s != "" && IsDigit(s[0]) && exists c :: c in s && !IsDigit(c)
    ensures ParseInteger(s).None?
  {
    hide Decimal;
    assert SkipSpaces(s) == s;
  }

  lemma NumbersReadBack(n: nat)
    ensures ParseItem(Digits(n)) == if n <= INT_MAX then Some(Timeout(n)) else None
    ensures n <= INT_MAX ==> ParseItem("-" + Digits(n)) == Some(Signal(n))
  {
    hide Decimal, Digits, SkipSpaces;
    var s := Digits(n);
    DigitsRead(n);
    IntegerOfDigits(s);
    assert s[0] in s;
    DigitIsNotForever(s);
    assert ("-" + s)[0] == '-' && ("-" + s)[1..] == s && "forever"[0] == 'f';
  }

  /** A signed number: a plus changes nothing, a minus wraps around in 64 bits before the value must fit an int. */
  lemma SignedNumbers(n: nat)
    ensures ParseInteger("+" + Digits(n)) == if n <= INT_MAX then Some(n) else None
    ensures ParseInteger("-" + Digits(n)) ==
      if n == 0 then Some(0)
      else if n <= 0xffff_ffff_ffff_ffff && 0x1_0000_0000_0000_0000 - n <= INT_MAX then Some(0x1_0000_0000_0000_0000 - n)
      else None
  {
    hide Decimal, Digits;
    var s := Digits(n);
    DigitsRead(n);
    assert ("+" + s)[0] == '+' && ("+" + s)[1..] == s && ("-" + s)[0] == '-' && ("-" + s)[1..] == s;
    assert SkipSpaces("+" + s) == "+" + s && SkipSpaces("-" + s) == "-" + s;
  }

  lemma ForeverReadsBack()
    ensures ParseItem("forever") == Some(Forever)
  {
  }

  /** Signals go by their Linux numbers, with or without a hyphen. */
  lemma SignalsByName()
    ensures ParseItem("TERM") == Some(Signal(15)) && ParseItem("-TERM") == Some(Signal(15))
    ensures ParseItem("KILL") == Some(Signal(9)) && ParseItem("HUP") == Some(Signal(1)) && ParseItem("INT") == Some(Signal(2))
  {
    hide ParseInteger, FindSignal;
    SignalAt("TERM", 10);
    SignalAt("KILL", 6);
    SignalAt("HUP", 3);
    SignalAt("INT", 5);
    assert "TERM"[0] == 'T' && "-TERM"[0] == '-' && "-TERM"[1..] == "TERM" && "KILL"[0] == 'K' && "HUP"[0] == 'H' && "INT"[0] == 'I';
    assert "forever"[0] == 'f';
  }

  lemma SignalAt(name: string, i: nat)
    requires i < |SIGNALS| && SIGNALS[i].0 == name && name != "" && 'A' <= name[0] <= 'Z'
    requires forall j :: 0 <= j < i ==> SIGNALS[j].0 != name
    ensures ParseSignal(name) == Some(SIGNALS[i].1)
  {
    hide FindSignal, ParseInteger;
    FindsAt(name, SIGNALS, i);
    NotANumber(name);
  }

  lemma NotANumber(s: string)
    requires s != "" && 'A' <= s[0] <= 'Z'
    ensures ParseInteger(s).None?
  {
    hide Decimal;
    assert SkipSpaces(s) == s;
    assert s[0] in s && !IsDigit(s[0]);
  }

  lemma {:induction false} FindsAt(name: string, table: seq<(string, int)>, i: nat)
    requires i < |table| && table[i].0 == name && forall j :: 0 <= j < i ==> table[j].0 != name
    ensures FindSignal(name, table) == Some(table[i].1)
  {
    if i > 0 {
      FindsAt(name, table[1..], i - 1);
    }
  }

  // ----- what a schedule says -----

  /** The items between the slashes; one that is too long or malformed spoils the schedule. */
  function ParseItems(parts: seq<string>): (r: Option<seq<Item>>)
    ensures r.Some? ==> |r.value| == |parts| && forall i :: 0 <= i < |parts| ==> !r.value[i].Goto?
  {
    if parts == [] then Some([])
    else if |parts[0]| >= ITEM_BUF then None
    else
      var item, rest := ParseItem(parts[0]), ParseItems(parts[1..]);
      if item.Some? && rest.Some? then Some([item.value] + rest.value) else None
  }

  /** The items to carry out, in order. */
  function Plain(items: seq<Item>): (r: seq<Item>)
    ensures |r| <= |items|
    ensures forall x :: x in r ==> x in items && !x.Forever?
  {
    if items == [] then []
    else (if items[0].Forever? then [] else [items[0]]) + Plain(items[1..])
  }

  predicate HasForever(items: seq<Item>) {
    Forever in items
  }

  /** How many items stand before the first `forever`. */
  function ForeverAt(items: seq<Item>): (f: nat)
    ensures f <= |items|
    ensures HasForever(items) ==> f < |items| && items[f] == Forever
    ensures forall i :: 0 <= i < f ==> items[i] != Forever
  {
    if items == [] || items[0].Forever? then 0 else 1 + ForeverAt(items[1..])
  }

  predicate ForeverOnce(items: seq<Item>) {
    forall i, j :: 0 <= i < j < |items| ==> !(items[i].Forever? && items[j].Forever?)
  }

  /** What is asked for: a lone timeout stands for signal, wait, kill, wait. */
  function Program(text: string, signalNr: int): Option<seq<Item>> {
    var parts := Split(text, '/');
    if |parts| == 1 then
      var item := ParseItem(text);
      if item.Some? && item.value.Timeout? then Some([Signal(signalNr), item.value, Signal(SIGKILL), item.value]) else None
    else
      var items := ParseItems(parts);
      if items.Some? && ForeverOnce(items.value) then items else None
  }

  // ----- schedules written out are read back -----

  /** An item as it can be written. */
  function ItemText(item: Item): string
    requires Writable(item)
  {
    match item
    case Timeout(value) => Digits(value)
    case Signal(value) => "-" + Digits(value)
    case Forever => "forever"
  }

  predicate Writable(item: Item) {
    item.Forever? || ((item.Timeout? || item.Signal?) && 0 <= item.value <= INT_MAX)
  }

  function ScheduleText(items: seq<Item>): string
    requires items != [] && forall i :: 0 <= i < |items| ==> Writable(items[i])
  {
    if |items| == 1 then ItemText(items[0]) else ItemText(items[0]) + "/" + ScheduleText(items[1..])
  }

  lemma {:induction false} DigitsLength(n: nat, k: nat, limit: nat)
    requires k > 0 && limit == Power10(k) && n < limit
    ensures |Digits(n)| <= k
  {
    if n >= 10 {
      DigitsLength(n / 10, k - 1, Power10(k - 1));
    }
  }

  function Power10(k: nat): nat {
    if k == 0 then 1 else 10 * Power10(k - 1)
  }

  lemma ItemReadsBack(item: Item)
    requires Writable(item)
    ensures ParseItem(ItemText(item)) == Some(item) && '/' !in ItemText(item) && |ItemText(item)| < ITEM_BUF
  {
    hide ParseItem, Digits;
    if item.Forever? {
      ForeverReadsBack();
    } else {
      NumbersReadBack(item.value);
      assert Power10(10) == 10_000_000_000 by {
        assert Power10(5) == 100_000;
      }
      DigitsLength(item.value, 10, Power10(10));
    }
  }

  lemma {:induction false} ScheduleSplits(items: seq<Item>)
    requires items != [] && forall i :: 0 <= i < |items| ==> Writable(items[i])
    ensures |Split(ScheduleText(items), '/')| == |items|
    ensures ParseItems(Split(ScheduleText(items), '/')) == Some(items)
  {
    hide Split, ParseItem, ItemText, Writable;
    var first := ItemText(items[0]);
    ItemReadsBack(items[0]);
    if |items| == 1 {
      SplitWhole(first, '/');
      NoItems();
      assert [first][1..] == [];
      assert items == [items[0]] + [];
    } else {
      ScheduleSplits(items[1..]);
      var rest := ScheduleText(items[1..]);
      SplitAtFirst(first, rest, '/');
      assert first + "/" + rest == first + ['/'] + rest;
      var parts := [first] + Split(rest, '/');
      assert parts[1..] == Split(rest, '/');
      assert items == [items[0]] + items[1..];
    }
  }

  /** Every schedule of at least two items with at most one `forever` is read back as it is written. */
  lemma ScheduleReadsBack(items: seq<Item>, signalNr: int)
    requires |items| >= 2 && ForeverOnce(items) && forall i :: 0 <= i < |items| ==> Writable(items[i])
    ensures Program(ScheduleText(items), signalNr) == Some(items)
  {
    hide Split, ParseItem, ItemText, Writable, ParseItems, ScheduleText;
    ScheduleSplits(items);
  }

  /** One part of 20 characters or more, or one that is no item, spoils the whole schedule; so does a second `forever`. */
  lemma BadPartSpoils(text: string, signalNr: int, i: nat)
    requires |Split(text, '/')| >= 2 && i < |Split(text, '/')|
    requires |Split(text, '/')[i]| >= 20 || ParseItem(Split(text, '/')[i]).None?
      || exists j :: i < j < |Split(text, '/')| && Split(text, '/')[i] == Split(text, '/')[j] == "forever"
    ensures Program(text, signalNr) == None
  {
    hide Split, ParseItem;
    var parts := Split(text, '/');
    ForeverReadsBack();
    ItemsAreParsed(parts);
  }

  /** The items are those of the parts, if each is short enough and is one. */
  lemma {:induction false} ItemsAreParsed(parts: seq<string>)
    ensures ParseItems(parts).Some? <==> forall i :: 0 <= i < |parts| ==> |parts[i]| < 20 && ParseItem(parts[i]).Some?
    ensures ParseItems(parts).Some? ==>
      |ParseItems(parts).value| == |parts| && forall i :: 0 <= i < |parts| ==> ParseItem(parts[i]) == Some(ParseItems(parts).value[i])
  {
    hide ParseItem;
    if parts != [] {
      ItemsAreParsed(parts[1..]);
      assert forall i :: 0 < i < |parts| ==> parts[i] == parts[1..][i - 1];
    }
  }

  /** A lone timeout stands for the signal, a wait, SIGKILL and another wait; no other lone item is a schedule. */
  lemma LoneItem(text: string, signalNr: int, n: nat)
    requires '/' !in text
    ensures Program(text, signalNr) ==
      match ParseItem(text)
      case Some(Timeout(v)) => Some([Signal(signalNr), Timeout(v), Signal(9), Timeout(v)])
      case _ => None
    ensures n <= INT_MAX ==> Program(Digits(n), signalNr) == Some([Signal(signalNr), Timeout(n), Signal(9), Timeout(n)])
  {
    hide Split, ParseItem, Digits;
    SplitWhole(text, '/');
    NumbersReadBack(n);
    SplitWhole(Digits(n), '/');
  }

  /** Counting on from `f` to `n` and round again. */
  function Circle(k: nat, f: nat, n: nat): (r: nat)
    requires f < n
    ensures r < n && (k >= f ==> r >= f)
  {
    if k < n then k else Circle(k - (n - f), f, n)
  }

  lemma {:induction false} CircleNext(k: nat, f: nat, n: nat)
    requires f < n
    ensures Circle(k + 1, f, n) == if Circle(k, f, n) + 1 == n then f else Circle(k, f, n) + 1
  {
    if k >= n {
      CircleNext(k - (n - f), f, n);
    }
  }

  /** The `k`th item that a schedule asks for: straight through, then the part after `forever` again and again. */
  function Nth(items: seq<Item>, k: nat): Option<Item>
    requires ForeverOnce(items)
  {
    var plain := Plain(items);
    if k < |plain| then Some(plain[k])
    else if !HasForever(items) then None
    else
      PlainLength(items);
      var f := ForeverAt(items);
      if f == |plain| then None else Some(plain[Circle(k, f, |plain|)])
  }

  lemma {:induction false} PlainNoForever(items: seq<Item>)
    requires !HasForever(items)
    ensures Plain(items) == items
  {
    if items != [] {
      assert items[0] in items;
      PlainNoForever(items[1..]);
    }
  }

  lemma {:induction false} PlainLength(items: seq<Item>)
    requires ForeverOnce(items)
    ensures |Plain(items)| == if HasForever(items) then |items| - 1 else |items|
    ensures HasForever(items) ==> ForeverAt(items) <= |Plain(items)|
  {
    if items != [] {
      if items[0].Forever? {
        assert !HasForever(items[1..]);
        PlainNoForever(items[1..]);
      } else {
        assert ForeverOnce(items[1..]);
        assert HasForever(items) <==> HasForever(items[1..]);
        PlainLength(items[1..]);
      }
    }
  }

  /** After `q` rounds. */
  lemma {:induction false} CircleRounds(f: nat, n: nat, q: nat, r: nat)
    requires f < n && r < n - f
    ensures Circle(f + q * (n - f) + r, f, n) == f + r
  {
    if q > 0 {
      OneRoundLess(q, n - f);
      CircleRounds(f, n, q - 1, r);
    }
  }

  lemma OneRoundLess(q: nat, m: nat)
    requires q > 0
    ensures q * m == (q - 1) * m + m
  {
  }

  lemma {:induction false} PlainParts(a: seq<Item>, b: seq<Item>)
    requires !HasForever(a) && !HasForever(b)
    ensures Plain(a + [Forever] + b) == a + b
  {
    var items := a + [Forever] + b;
    if a == [] {
      assert items[1..] == b;
      PlainNoForever(b);
    } else {
      assert a[0] in a;
      assert items[1..] == a[1..] + [Forever] + b;
      PlainParts(a[1..], b);
      assert a == [a[0]] + a[1..];
    }
  }

  lemma ForeverAtPart(a: seq<Item>, b: seq<Item>)
    requires !HasForever(a) && !HasForever(b)
    ensures ForeverAt(a + [Forever] + b) == |a| && ForeverOnce(a + [Forever] + b)
  {
    var items := a + [Forever] + b;
    assert items[|a|] == Forever;
    assert forall i :: 0 <= i < |items| && i != |a| ==> items[i] in a || items[i] in b;
  }

  /** What a schedule asks for, in full: straight through, and with `a/forever/b` then `b` round and round. */
  lemma NthMeans(a: seq<Item>, b: seq<Item>, k: nat, q: nat, r: nat)
    requires !HasForever(a) && !HasForever(b)
    ensures ForeverOnce(a) && Nth(a, k) == (if k < |a| then Some(a[k]) else None)
    ensures ForeverOnce(a + [Forever] + b)
    ensures k < |a| ==> Nth(a + [Forever] + b, k) == Some(a[k])
    ensures r < |b| ==> Nth(a + [Forever] + b, |a| + q * |b| + r) == Some(b[r])
    ensures b == [] && k >= |a| ==> Nth(a + [Forever] + b, k) == None
  {
    hide Plain, ForeverAt, Circle;
    PlainNoForever(a);
    PlainParts(a, b);
    ForeverAtPart(a, b);
    if r < |b| {
      CircleRounds(|a|, |a + b|, q, r);
      CircleSmall(|a|, |a + b|, |a| + q * |b| + r);
    }
  }

  lemma CircleSmall(f: nat, n: nat, k: nat)
    requires f < n
    ensures k < n ==> Circle(k, f, n) == k
  {
  }

  // ----- the compiled form -----

  /** The array that the parser builds. */
  function Compile(items: seq<Item>): seq<Item> {
    if HasForever(items) then Plain(items) + [Goto(ForeverAt(items))] else Plain(items)
  }

  // ----- the interpreter -----

  datatype Status =
    | Running
    | Waiting(item: Item, seen: seq<nat>)  // within a timeout, with no more known
    | Finished(anyKilled: bool)            // nothing left to stop; exit 0 if something was killed, else exitnodo
    | RefusedToDie                         // the schedule is used up; exit 2

  /** One item carried out: what each look for processes found, and whether the schedule went on after it. */
  datatype Act = Act(item: Item, seen: seq<nat>, wentOn: bool)

  datatype Machine = Machine(position: int, trace: seq<Act>, anyKilled: bool, status: Status)

  const BEGIN := Machine(0, [], false, Running)

  /** What the world has for one turn: how many processes a signal would reach, or when a wait begins and what it sees. */
  datatype Answer = Answer(killed: nat, start: Timeval, looks: seq<Look>)

  function Found(looks: seq<Look>, n: nat): (r: seq<nat>)
    requires n <= |looks|
    ensures |r| == n
  {
    seq(n, i requires 0 <= i < n => looks[i].found)
  }

  /** One turn of the interpreter's loop. */
  function Turn(schedule: seq<Item>, m: Machine, answer: Answer): Machine {
    if !m.status.Running? then m
    else if !(0 <= m.position < |schedule|) then m.(status := RefusedToDie)
    else
      var item := schedule[m.position];
      match item
      case Goto(value) => m.(position := value)
      case Signal(_) =>
        var acted := m.(trace := m.trace + [Act(item, [answer.killed], answer.killed > 0)]);
        if answer.killed == 0 then acted.(status := Finished(m.anyKilled)) else acted.(anyKilled := true, position := m.position + 1)
      case Timeout(value) =>
        var (outcome, polls) := Watch(answer.looks, StopAt(answer.start, value), 0);
        var seen := Found(answer.looks, polls);
        (match outcome
         case Waiting => m.(status := Status.Waiting(item, seen))
         case AllGone => m.(trace := m.trace + [Act(item, seen, false)], status := Finished(m.anyKilled))
         case Expired => m.(trace := m.trace + [Act(item, seen, true)], position := m.position + 1))
      case Forever => m  // never compiled
  }

  function Exec(schedule: seq<Item>, answers: seq<Answer>): Machine {
    if answers == [] then BEGIN
    else Turn(schedule, Exec(schedule, answers[..|answers| - 1]), answers[|answers| - 1])
  }

  // ----- the interpreter follows the schedule -----

  /** Where the interpreter stands after `k` items: at the `k`th, counting round the repeated part. */
  predicate At(items: seq<Item>, position: int, k: nat)
    requires ForeverOnce(items)
  {
    PlainLength(items);
    var n := |Plain(items)|;
    if k < n then position == k
    else if !HasForever(items) then k == n && position == n
    else
      var f := ForeverAt(items);
      if f == n then k == n && position == n
      else position == Circle(k, f, n) || (position == n && Circle(k, f, n) == f)
  }

  ghost predicate Inv(items: seq<Item>, m: Machine)
    requires ForeverOnce(items)
  {
    && (m.status.Running? || m.status.Waiting? ==> At(items, m.position, |m.trace|))
    && (forall k :: 0 <= k < |m.trace| ==> Nth(items, k) == Some(m.trace[k].item))
    && TraceOk(m)
    && (m.status.RefusedToDie? ==> !HasForever(items) && |m.trace| == |items|)
    && (m.status.Waiting? ==> Nth(items, |m.trace|) == Some(m.status.item))
  }

  predicate SignalFound(trace: seq<Act>) {
    exists k :: 0 <= k < |trace| && trace[k].item.Signal? && trace[k].wentOn
  }

  predicate AllFound(seen: seq<nat>) {
    forall k :: 0 <= k < |seen| ==> seen[k] > 0
  }

  /** The looks of one item: as long as they find something the schedule can go on, and the first that does not ends the run. */
  predicate ActOk(act: Act) {
    && (act.wentOn ==> AllFound(act.seen))
    && (!act.wentOn ==> |act.seen| > 0 && act.seen[|act.seen| - 1] == 0 && AllFound(act.seen[..|act.seen| - 1]))
    && (act.item.Signal? ==> |act.seen| == 1)
  }

  /** What the trace tells: only its last item may have found nothing left, and then the run is over. */
  predicate TraceOk(m: Machine) {
    && (m.anyKilled <==> SignalFound(m.trace))
    && (forall k :: 0 <= k < |m.trace| ==> ActOk(m.trace[k]))
    && (forall k :: 0 <= k < |m.trace| - 1 ==> m.trace[k].wentOn)
    && (m.status.Finished? <==> |m.trace| > 0 && !m.trace[|m.trace| - 1].wentOn)
    && (m.status.Finished? ==> m.status.anyKilled == m.anyKilled)
    && (m.status.Waiting? ==> AllFound(m.status.seen))
  }

  lemma {:induction false} CompiledItem(items: seq<Item>, position: int)
    requires ForeverOnce(items) && (forall i :: 0 <= i < |items| ==> !items[i].Goto?)
    ensures |Compile(items)| == |items|
    ensures 0 <= position < |Plain(items)| ==>
      Compile(items)[position] == Plain(items)[position] && (Plain(items)[position].Signal? || Plain(items)[position].Timeout?)
    ensures HasForever(items) ==> Compile(items)[|Plain(items)|] == Goto(ForeverAt(items))
  {
    PlainLength(items);
    if 0 <= position < |Plain(items)| {
      assert Plain(items)[position] in Plain(items);
    }
  }

  /** After an item the interpreter stands at the next one. */
  lemma AtNext(items: seq<Item>, position: int, k: nat)
    requires ForeverOnce(items) && At(items, position, k) && 0 <= position < |Plain(items)|
    ensures Nth(items, k) == Some(Plain(items)[position])
    ensures At(items, position + 1, k + 1)
  {
    PlainLength(items);
    var n, f := |Plain(items)|, ForeverAt(items);
    if HasForever(items) && f < n {
      CircleNext(k, f, n);
    }
  }

  /** The goto leads to where the repetition starts. */
  lemma AtGoto(items: seq<Item>, position: int, k: nat)
    requires ForeverOnce(items) && At(items, position, k) && HasForever(items) && position == |Plain(items)|
    ensures At(items, ForeverAt(items), k)
    ensures ForeverAt(items) < |Plain(items)| ==> ForeverAt(items) != position
  {
    PlainLength(items);
  }

  lemma TurnInv(items: seq<Item>, m: Machine, answer: Answer)
    requires ForeverOnce(items) && (forall i :: 0 <= i < |items| ==> !items[i].Goto?)
    requires Inv(items, m)
    ensures Inv(items, Turn(Compile(items), m, answer))
  {
    hide Nth, Compile, Plain, ForeverAt, TraceOk, At, Watch;
    if m.status.Running? {
      CompiledItem(items, m.position);
      PlainLength(items);
      PositionInRange(items, m.position, |m.trace|);
      TurnTraceOk(Compile(items), m, answer);
      if 0 <= m.position < |Plain(items)| {
        AtNext(items, m.position, |m.trace|);
      } else if HasForever(items) {
        AtGoto(items, m.position, |m.trace|);
      }
    }
  }

  lemma TurnTraceOk(schedule: seq<Item>, m: Machine, answer: Answer)
    requires TraceOk(m)
    ensures TraceOk(Turn(schedule, m, answer))
  {
    hide TraceOk, Watch;
    if m.status.Running? {
      StatusChange(m);
      if 0 <= m.position < |schedule| {
        var item := schedule[m.position];
        match item
        case Goto(value) => Moved(m, value);
        case Signal(_) => ActInv(m, Turn(schedule, m, answer), Act(item, [answer.killed], answer.killed > 0));
        case Timeout(value) =>
          WaitMeans(answer, value);
          var (outcome, polls) := Watch(answer.looks, StopAt(answer.start, value), 0);
          var seen := Found(answer.looks, polls);
          if outcome.Waiting? {
            WaitingOk(m, item, seen);
          } else {
            ActInv(m, Turn(schedule, m, answer), Act(item, seen, outcome.Expired?));
          }
        case Forever =>
      }
    }
  }

  lemma StatusChange(m: Machine)
    requires TraceOk(m) && m.status.Running?
    ensures TraceOk(m.(status := RefusedToDie))
  {
  }

  lemma Moved(m: Machine, position: int)
    requires TraceOk(m)
    ensures TraceOk(m.(position := position))
  {
  }

  lemma WaitingOk(m: Machine, item: Item, seen: seq<nat>)
    requires TraceOk(m) && m.status.Running? && AllFound(seen)
    ensures TraceOk(m.(status := Status.Waiting(item, seen)))
  {
  }

  /** What the looks of one wait found. */
  lemma WaitMeans(answer: Answer, value: int)
    ensures var (outcome, polls) := Watch(answer.looks, StopAt(answer.start, value), 0);
      var seen := Found(answer.looks, polls);
      && (!outcome.AllGone? ==> AllFound(seen))
      && (outcome.AllGone? ==> |seen| > 0 && seen[|seen| - 1] == 0 && AllFound(seen[..|seen| - 1]))
  {
    hide Later, Watch;
    WatchMeans(answer.looks, StopAt(answer.start, value), 0);
  }

  lemma PositionInRange(items: seq<Item>, position: int, k: nat)
    requires ForeverOnce(items) && At(items, position, k)
    ensures 0 <= position <= |Plain(items)|
    ensures position == |Plain(items)| && !HasForever(items) ==> k == |Plain(items)|
  {
    PlainLength(items);
  }

  lemma ActInv(m: Machine, m': Machine, act: Act)
    requires TraceOk(m) && m.status.Running? && ActOk(act)
    requires m'.trace == m.trace + [act]
    requires m'.anyKilled == (m.anyKilled || (act.item.Signal? && act.wentOn))
    requires m'.status == if act.wentOn then Running else Finished(m.anyKilled)
    ensures TraceOk(m')
  {
    hide ActOk;
    var n := |m.trace|;
    assert forall k :: 0 <= k < n ==> m'.trace[k] == m.trace[k];
    if act.item.Signal? && act.wentOn {
      assert m'.trace[n].item.Signal? && m'.trace[n].wentOn;
    }
    if SignalFound(m.trace) {
      var k :| 0 <= k < n && m.trace[k].item.Signal? && m.trace[k].wentOn;
      assert m'.trace[k].item.Signal? && m'.trace[k].wentOn;
    }
  }

  lemma {:induction false} ExecInv(items: seq<Item>, answers: seq<Answer>)
    requires ForeverOnce(items) && (forall i :: 0 <= i < |items| ==> !items[i].Goto?)
    ensures Inv(items, Exec(Compile(items), answers))
  {
    hide Turn, Compile, Nth;
    if answers == [] {
      PlainLength(items);
    } else {
      ExecInv(items, answers[..|answers| - 1]);
      TurnInv(items, Exec(Compile(items), answers[..|answers| - 1]), answers[|answers| - 1]);
    }
  }

  /** A schedule that the parser can have accepted. */
  predicate Accepted(items: seq<Item>) {
    ForeverOnce(items) && forall i :: 0 <= i < |items| ==> !items[i].Goto?
  }

  lemma {:induction false} ProgramsAreAccepted(text: string, signalNr: int)
    ensures Program(text, signalNr).Some? ==> Accepted(Program(text, signalNr).value)
  {
    hide ParseItem, Split;
  }

  /** Whatever is found on the way, the items carried out are those the schedule asks for, in order. */
  lemma TraceFollowsSchedule(items: seq<Item>, answers: seq<Answer>)
    requires Accepted(items)
    ensures var m := Exec(Compile(items), answers);
      forall k :: 0 <= k < |m.trace| ==> Nth(items, k) == Some(m.trace[k].item)
  {
    hide Exec, Compile;
    ExecInv(items, answers);
  }

  /** The part after `forever` comes round without end. */
  lemma NthRepeats(items: seq<Item>, k: nat)
    requires Accepted(items) && HasForever(items) && ForeverAt(items) < |Plain(items)| && k >= ForeverAt(items)
    ensures Nth(items, k + (|Plain(items)| - ForeverAt(items))) == Nth(items, k)
    ensures Nth(items, k).Some?
  {
    PlainLength(items);
    var n, f := |Plain(items)|, ForeverAt(items);
    assert Circle(k + (n - f), f, n) == Circle(k, f, n);
  }

  /** Processes are still there after the item that the machine is at. */
  predicate LastsTurn(schedule: seq<Item>, m: Machine, answer: Answer) {
    m.status.Running? && 0 <= m.position < |schedule| ==>
      match schedule[m.position]
      case Signal(_) => answer.killed > 0
      case Timeout(value) => Watch(answer.looks, StopAt(answer.start, value), 0).0.Expired?
      case _ => true
  }

  /** Processes stay alive through the whole run. */
  predicate Lasts(schedule: seq<Item>, answers: seq<Answer>) {
    forall k :: 0 <= k < |answers| ==> LastsTurn(schedule, Exec(schedule, answers[..k]), answers[k])
  }

  lemma LastsInit(schedule: seq<Item>, answers: seq<Answer>)
    requires Lasts(schedule, answers) && answers != []
    ensures var init := answers[..|answers| - 1];
      Lasts(schedule, init) && LastsTurn(schedule, Exec(schedule, init), answers[|answers| - 1])
      && Exec(schedule, answers) == Turn(schedule, Exec(schedule, init), answers[|answers| - 1])
  {
    hide LastsTurn, Turn;
    var init := answers[..|answers| - 1];
    assert forall k :: 0 <= k < |init| ==> init[..k] == answers[..k];
  }

  /** While processes stay alive, an endless schedule goes on: any number of its items gets carried out. */
  lemma {:induction false} ForeverGoesOn(items: seq<Item>, answers: seq<Answer>)
    requires Accepted(items) && HasForever(items) && ForeverAt(items) < |Plain(items)| && Lasts(Compile(items), answers)
    ensures var m := Exec(Compile(items), answers);
      m.status.Running? && |answers| + (if m.position == |Plain(items)| then 1 else 0) <= 2 * |m.trace|
  {
    hide Exec, Turn, Compile, Plain, ForeverAt, Lasts, LastsTurn;
    if answers == [] {
      StartsRunning(Compile(items));
    } else {
      LastsInit(Compile(items), answers);
      var init := answers[..|answers| - 1];
      ForeverGoesOn(items, init);
      ExecInv(items, init);
      OneTurn(items, Exec(Compile(items), init), answers[|answers| - 1]);
    }
  }

  lemma StartsRunning(schedule: seq<Item>)
    ensures Exec(schedule, []) == BEGIN
  {
  }

  lemma OneTurn(items: seq<Item>, m: Machine, answer: Answer)
    requires Accepted(items) && HasForever(items) && ForeverAt(items) < |Plain(items)|
    requires Inv(items, m) && m.status.Running? && LastsTurn(Compile(items), m, answer)
    ensures var m' := Turn(Compile(items), m, answer);
      && m'.status.Running?
      && if m.position == |Plain(items)| then m'.trace == m.trace && m'.position != |Plain(items)| else |m'.trace| == |m.trace| + 1
  {
    hide Nth, Compile, Plain, ForeverAt, At, TraceOk, Watch;
    PlainLength(items);
    PositionInRange(items, m.position, |m.trace|);
    CompiledItem(items, m.position);
  }

  /** Without `forever` the schedule is used up after its last item, if processes stay alive that long. */
  lemma {:induction false} StraightThrough(items: seq<Item>, answers: seq<Answer>)
    requires Accepted(items) && !HasForever(items) && Lasts(Compile(items), answers) && |answers| <= |items| + 1
    ensures var m := Exec(Compile(items), answers);
      if |answers| <= |items| then m.status.Running? && |m.trace| == |answers| == m.position
      else m.status.RefusedToDie? && |m.trace| == |items|
  {
    hide Exec, Compile, Plain, Lasts, Watch;
    PlainLength(items);
    if answers == [] {
      StartsRunning(Compile(items));
    } else {
      LastsInit(Compile(items), answers);
      var init := answers[..|answers| - 1];
      StraightThrough(items, init);
      CompiledItem(items, |init|);
    }
  }

  /** A schedule that ends in `forever` comes to rest on its own goto and does nothing more. */
  lemma TrailingForeverHangs(items: seq<Item>, answers: seq<Answer>, answer: Answer)
    requires Accepted(items) && HasForever(items) && ForeverAt(items) == |Plain(items)|
    requires var m := Exec(Compile(items), answers); m.status.Running? && |m.trace| == |Plain(items)|
    ensures var m := Exec(Compile(items), answers);
      Turn(Compile(items), m, answer) == m
  {
    hide Exec, Compile, Plain, ForeverAt;
    ExecInv(items, answers);
    PlainLength(items);
    CompiledItem(items, 0);
  }

  lemma NthStraight(items: seq<Item>, k: nat)
    requires Accepted(items) && !HasForever(items) && k < |items|
    ensures Nth(items, k) == Some(items[k])
  {
    PlainNoForever(items);
  }

  /**
    How a run with a schedule can end. Stopped (exit 0): an earlier signal killed
    something and the last look found nothing. None killed (exitnodo): no signal
    ever killed anything and the last look found nothing. Refused to die (exit 2):
    every item was used up, each signal killed something and every look that was
    made found processes; with `forever` in the schedule that never happens.
   */
  lemma StopOutcome(items: seq<Item>, answers: seq<Answer>)
    requires Accepted(items)
    ensures var m := Exec(Compile(items), answers);
      var last := |m.trace| - 1;
      && (forall k :: 0 <= k <= last ==> ActOk(m.trace[k]))
      && (m.status == Finished(true) ==>
            last > 0 && !m.trace[last].wentOn && exists i :: 0 <= i < last && m.trace[i].item.Signal? && m.trace[i].wentOn)
      && (m.status == Finished(false) ==> last >= 0 && !m.trace[last].wentOn && !SignalFound(m.trace))
      && (m.status == RefusedToDie ==>
            !HasForever(items) && last == |items| - 1
            && forall k :: 0 <= k <= last ==> m.trace[k].item == items[k] && m.trace[k].wentOn && AllFound(m.trace[k].seen))
      && (HasForever(items) ==> m.status != RefusedToDie)
  {
    hide Exec, Compile, At, Nth;
    ExecInv(items, answers);
    var m := Exec(Compile(items), answers);
    if m.status == RefusedToDie {
      forall k | 0 <= k < |items|
        ensures Nth(items, k) == Some(items[k])
      {
        NthStraight(items, k);
      }
      assert forall k :: 0 <= k < |m.trace| ==> ActOk(m.trace[k]);
    }
    if m.status == Finished(true) {
      var k :| 0 <= k < |m.trace| && m.trace[k].item.Signal? && m.trace[k].wentOn;
      assert k < |m.trace| - 1;
    }
  }

  /** The trace tells what was seen: a signal what it reached, a wait what its looks found; and nothing left ends the run. */
  lemma TurnSees(schedule: seq<Item>, m: Machine, answer: Answer)
    requires m.status.Running? && 0 <= m.position < |schedule| && (schedule[m.position].Signal? || schedule[m.position].Timeout?)
    ensures var item, m' := schedule[m.position], Turn(schedule, m, answer);
      && (item.Signal? ==>
            |m'.trace| == |m.trace| + 1 && m'.trace[|m.trace|].seen == [answer.killed]
            && (m'.status.Finished? <==> answer.killed == 0) && (m'.status.Running? <==> answer.killed > 0))
      && (item.Timeout? && !m'.status.Waiting? ==>
            |m'.trace| == |m.trace| + 1
            && |m'.trace[|m.trace|].seen| <= |answer.looks|
            && (forall k :: 0 <= k < |m'.trace[|m.trace|].seen| ==> m'.trace[|m.trace|].seen[k] == answer.looks[k].found)
            && (m'.status.Finished? <==> exists k :: 0 <= k < |m'.trace[|m.trace|].seen| && answer.looks[k].found == 0))
  {
    hide Watch;
    if schedule[m.position].Timeout? {
      WaitMeans(answer, schedule[m.position].value);
    }
  }

  // ----- how long it takes -----

  /** The turn after a timeout begins no earlier than the clock readings of the timeout. */
  predicate Follows(answer: Answer, next: Answer) {
    forall k :: 0 <= k < |answer.looks| ==>
      Micros(next.start) >= Micros(answer.looks[k].after) && Micros(next.start) >= Micros(answer.looks[k].before)
  }

  /** A timeout of v seconds that the schedule goes on after took at least v seconds. */
  lemma TimeoutLasts(schedule: seq<Item>, answers: seq<Answer>, k: nat)
    requires k + 1 < |answers| && Normal(answers[k].start) && AllNormal(answers[k].looks) && Follows(answers[k], answers[k + 1])
    requires var m := Exec(schedule, answers[..k]);
      m.status.Running? && 0 <= m.position < |schedule| && schedule[m.position].Timeout?
    requires Exec(schedule, answers[..k + 1]).status.Running?
    ensures var v := schedule[Exec(schedule, answers[..k]).position].value;
      Micros(answers[k + 1].start) >= Micros(answers[k].start) + v * 1_000_000
  {
    hide Watch, Micros, Later;
    var m := Exec(schedule, answers[..k]);
    var v := schedule[m.position].value;
    assert answers[..k + 1][..k] == answers[..k];
    WaitLasts(answers[k].start, v, answers[k].looks);
    WatchMeans(answers[k].looks, StopAt(answers[k].start, v), 0);
  }

  // ----- how often it looks -----

  /** The most looks that an item may make. */
  function Quota(item: Item): nat {
    match item
    case Timeout(value) => if value >= 0 then 50 * value + 1 else 1
    case _ => 1
  }

  function Budget(items: seq<Item>): nat {
    if items == [] then 0 else Budget(items[..|items| - 1]) + Quota(items[|items| - 1])
  }

  function Looks(trace: seq<Act>): nat {
    if trace == [] then 0 else Looks(trace[..|trace| - 1]) + |trace[|trace| - 1].seen|
  }

  /** All looks of a run, the wait it is in included. */
  function LooksMade(m: Machine): nat {
    Looks(m.trace) + if m.status.Waiting? then |m.status.seen| else 0
  }

  /** The items begun. */
  function Begun(m: Machine): seq<Item> {
    seq(|m.trace|, k requires 0 <= k < |m.trace| => m.trace[k].item) + if m.status.Waiting? then [m.status.item] else []
  }

  /** The clock does not go back and sleeps are not cut short, in the wait that the machine is about to make if any. */
  predicate TimelyTurn(schedule: seq<Item>, m: Machine, answer: Answer) {
    m.status.Running? && 0 <= m.position < |schedule| && schedule[m.position].Timeout? ==>
      schedule[m.position].value >= 0
      && Clock(answer.start, answer.looks, StopAt(answer.start, schedule[m.position].value))
  }

  predicate Timely(schedule: seq<Item>, answers: seq<Answer>) {
    forall k :: 0 <= k < |answers| ==> TimelyTurn(schedule, Exec(schedule, answers[..k]), answers[k])
  }

  /** A run makes no more looks than the items it began allow. */
  lemma {:induction false} LooksWithinBudget(schedule: seq<Item>, answers: seq<Answer>)
    requires Timely(schedule, answers)
    ensures LooksMade(Exec(schedule, answers)) <= Budget(Begun(Exec(schedule, answers)))
  {
    hide Turn, TimelyTurn, LooksMade, Begun, Budget;
    if answers == [] {
      NoLooks();
    } else {
      var init := answers[..|answers| - 1];
      assert forall k :: 0 <= k < |init| ==> init[..k] == answers[..k];
      LooksWithinBudget(schedule, init);
      TurnBudget(schedule, Exec(schedule, init), answers[|answers| - 1]);
    }
  }

  lemma NoLooks()
    ensures LooksMade(BEGIN) == 0
  {
  }

  lemma TurnBudget(schedule: seq<Item>, m: Machine, answer: Answer)
    requires LooksMade(m) <= Budget(Begun(m)) && TimelyTurn(schedule, m, answer)
    ensures var m' := Turn(schedule, m, answer); LooksMade(m') <= Budget(Begun(m'))
  {
    hide Watch, Clock, Looks, Budget;
    var m' := Turn(schedule, m, answer);
    if m.status.Running? && 0 <= m.position < |schedule| {
      var item := schedule[m.position];
      if item.Timeout? {
        PollBound(answer.start, item.value, answer.looks);
      }
      if item.Timeout? || item.Signal? {
        BudgetSnoc(Begun(m), item);
        assert Begun(m') == Begun(m) + [item];
        if !m'.status.Waiting? {
          LooksSnoc(m.trace, m'.trace[|m.trace|]);
        }
      }
    }
    assert m'.trace == m.trace && !m'.status.Waiting? && !m.status.Waiting? ==> Begun(m') == Begun(m);
  }

  lemma BudgetSnoc(items: seq<Item>, item: Item)
    ensures Budget(items + [item]) == Budget(items) + Quota(item)
  {
    assert (items + [item])[..|items|] == items;
  }

  lemma LooksSnoc(trace: seq<Act>, act: Act)
    ensures Looks(trace + [act]) == Looks(trace) + |act.seen|
  {
    assert (trace + [act])[..|trace|] == trace;
  }

  /** Without `forever` all looks together are at most one per signal and 50 v + 1 per timeout of v seconds. */
  lemma RunLooksBound(items: seq<Item>, answers: seq<Answer>)
    requires Accepted(items) && !HasForever(items) && Timely(Compile(items), answers)
    ensures LooksMade(Exec(Compile(items), answers)) <= Budget(items)
  {
    hide Exec, Compile, Timely, LooksMade, Nth, Budget, TraceOk;
    LooksWithinBudget(Compile(items), answers);
    ExecInv(items, answers);
    var m := Exec(Compile(items), answers);
    PlainLength(items);
    BegunIsPrefix(items, m);
    BudgetPrefix(Begun(m), items);
  }

  lemma BegunAt(items: seq<Item>, m: Machine, k: nat)
    requires Accepted(items) && !HasForever(items) && Inv(items, m) && k < |Begun(m)|
    ensures k < |items| && Begun(m)[k] == items[k]
  {
    hide TraceOk, At;
    PlainNoForever(items);
    assert Nth(items, k) == Some(Begun(m)[k]);
  }

  lemma BegunIsPrefix(items: seq<Item>, m: Machine)
    requires Accepted(items) && !HasForever(items) && Inv(items, m)
    ensures Begun(m) <= items
  {
    hide Inv, Begun;
    if |Begun(m)| > 0 {
      BegunAt(items, m, |Begun(m)| - 1);
    }
    forall k | 0 <= k < |Begun(m)|
      ensures Begun(m)[k] == items[k]
    {
      BegunAt(items, m, k);
    }
  }

  lemma {:induction false} BudgetPrefix(a: seq<Item>, b: seq<Item>)
    requires a <= b
    ensures Budget(a) <= Budget(b)
  {
    if |a| < |b| {
      assert a <= b[..|b| - 1];
      BudgetPrefix(a, b[..|b| - 1]);
    } else {
      assert a == b;
    }
  }

  // ----- the code -----

  lemma {:induction false} SplitCounts(text: string)
    ensures |Split(text, '/')| == |Slashes(text)| + 1
  {
    if text != "" {
      SplitCounts(text[1..]);
    }
  }

  /** The slashes of a text. */
  function Slashes(text: string): string {
    if text == "" then "" else (if text[0] == '/' then "/" else "") + Slashes(text[1..])
  }

  method CountSlashes(text: string) returns (count: nat)
    ensures count + 1 == |Split(text, '/')|
  {
    count := 0;
    SplitCounts(text);
    assert text[0..] == text;
    for i := 0 to |text|
      invariant count + |Slashes(text[i..])| == |Slashes(text)|
    {
      assert text[i..][1..] == text[i + 1..];
      if text[i] == '/' {
        count := count + 1;
      }
    }
  }

  /** `strchr`: the text up to the next slash, and what follows it. */
  method CutItem(text: string) returns (item: string, rest: Option<string>)
    ensures Split(text, '/') == [item] + if rest.Some? then Split(rest.value, '/') else []
    ensures rest.Some? ==> |rest.value| < |text|
  {
    var i := 0;
    while i < |text| && text[i] != '/'
      invariant 0 <= i <= |text| && '/' !in text[..i]
    {
      i := i + 1;
    }
    item := text[..i];
    if i < |text| {
      rest := Some(text[i + 1..]);
      SplitAtFirst(item, text[i + 1..], '/');
      assert text == item + ['/'] + text[i + 1..];
    } else {
      rest := None;
      assert item == text;
      SplitWhole(text, '/');
    }
  }

  lemma {:induction false} ParseItemsSnoc(parts: seq<string>, p: string)
    ensures var before, after := ParseItems(parts), ParseItems(parts + [p]);
      after == if before.Some? && |p| < ITEM_BUF && ParseItem(p).Some? then Some(before.value + [ParseItem(p).value]) else None
  {
    hide ParseItem;
    if parts != [] {
      assert (parts + [p])[1..] == parts[1..] + [p];
      ParseItemsSnoc(parts[1..], p);
      assert forall a: Item, s: seq<Item>, b: Item :: [a] + (s + [b]) == [a] + s + [b];
    } else {
      assert [] + [p] == [p] && [p][1..] == [];
      assert ParseItem(p).Some? ==> [ParseItem(p).value] + [] == [] + [ParseItem(p).value];
    }
  }

  /** A malformed item anywhere spoils the whole. */
  lemma {:induction false} ParseItemsPrefix(parts: seq<string>, more: seq<string>)
    ensures ParseItems(parts + more).Some? ==>
      ParseItems(parts).Some? && ParseItems(parts).value <= ParseItems(parts + more).value
  {
    hide ParseItem;
    if parts != [] {
      assert (parts + more)[1..] == parts[1..] + more;
      ParseItemsPrefix(parts[1..], more);
    }
  }

  lemma {:induction false} PlainSnoc(items: seq<Item>, item: Item)
    ensures Plain(items + [item]) == Plain(items) + if item.Forever? then [] else [item]
  {
    if items != [] {
      assert (items + [item])[1..] == items[1..] + [item];
      PlainSnoc(items[1..], item);
    } else {
      assert [] + [item] == [item];
    }
  }

  lemma {:induction false} ForeverAtSnoc(items: seq<Item>, item: Item)
    ensures ForeverAt(items + [item]) == if HasForever(items) || item.Forever? then ForeverAt(items) else |items| + 1
    ensures !HasForever(items) ==> ForeverAt(items) == |items|
  {
    if items != [] {
      assert (items + [item])[1..] == items[1..] + [item];
      ForeverAtSnoc(items[1..], item);
      assert items == [items[0]] + items[1..];
    } else {
      assert [] + [item] == [item];
    }
  }

  /** The parser's loop, one item on: what is counted, stored and remembered. */
  lemma ScheduleSnoc(items: seq<Item>, item: Item)
    requires ForeverOnce(items)
    ensures ForeverOnce(items + [item]) <==> !(HasForever(items) && item.Forever?)
    ensures Plain(items + [item]) == Plain(items) + if item.Forever? then [] else [item]
    ensures HasForever(items + [item]) <==> HasForever(items) || item.Forever?
    ensures HasForever(items) ==> ForeverAt(items + [item]) == ForeverAt(items)
    ensures !HasForever(items) && item.Forever? ==> ForeverAt(items + [item]) == |Plain(items)|
  {
    PlainSnoc(items, item);
    ForeverAtSnoc(items, item);
    PlainLength(items);
    var all := items + [item];
    assert forall k :: 0 <= k < |items| ==> all[k] == items[k];
    assert all[|items|] == item;
    if HasForever(items) {
      assert all[ForeverAt(items)].Forever?;
    }
  }

  /** All array writes are in bounds and the final count is the length computed at first. */
  method ParseSchedule(text: string, signalNr: int) returns (ok: bool, schedule: array<Item>)
    ensures ok <==> Program(text, signalNr).Some?
    ensures ok ==> schedule[..] == Compile(Program(text, signalNr).value)
  {
    hide ParseItem, Split, ParseItems, Plain, ForeverAt;
    var slashes := CountSlashes(text);
    schedule := new Item[if slashes == 0 then 4 else slashes + 1](_ => Forever);
    ok := false;
    if slashes == 0 {
      schedule[0] := Signal(signalNr);
      var item := ParseItem(text);
      if item.None? || !item.value.Timeout? {
        return;
      }
      schedule[1] := item.value;
      schedule[2] := Signal(SIGKILL);
      schedule[3] := schedule[1];
      assert schedule[..] == [Signal(signalNr), item.value, Signal(SIGKILL), item.value];
      PlainNoForever(schedule[..]);
      ok := true;
    } else {
      ok := ParseList(text, schedule);
    }
  }

  /** The loop over the items between slashes. */
  method ParseList(text: string, schedule: array<Item>) returns (ok: bool)
    requires schedule.Length == |Split(text, '/')|
    modifies schedule
    ensures ok <==> ParseItems(Split(text, '/')).Some? && ForeverOnce(ParseItems(Split(text, '/')).value)
    ensures ok ==> schedule[..] == Compile(ParseItems(Split(text, '/')).value)
  {
    hide ParseItem, Split, ParseItems, Plain, ForeverAt, HasForever, ForeverOnce;
    ghost var parts := Split(text, '/');
    var count, repeatAt := 0, -1;
    var rest := Some(text);
    ghost var past: seq<string>, items: seq<Item> := [], [];
    NoItems();
    while rest.Some?
      invariant parts == past + if rest.Some? then Split(rest.value, '/') else []
      invariant ParseItems(past) == Some(items) && ForeverOnce(items)
      invariant count == |Plain(items)| <= |past| && schedule[..count] == Plain(items)
      invariant repeatAt == if HasForever(items) then ForeverAt(items) else -1
      decreases if rest.Some? then |rest.value| + 1 else 0
    {
      var buf;
      buf, rest := CutItem(rest.value);
      NextPart(past, buf, if rest.Some? then Split(rest.value, '/') else []);
      past := past + [buf];
      if |buf| >= ITEM_BUF {
        return false;
      }
      var item := ParseItem(buf);
      if item.None? {
        return false;
      }
      ScheduleSnoc(items, item.value);
      schedule[count] := item.value;
      if item.value.Forever? {
        if repeatAt >= 0 {
          StaysTwice(items + [item.value], ParseItems(parts));
          return false;
        }
        repeatAt := count;
        items := items + [item.value];
        continue;
      }
      items := items + [item.value];
      count := count + 1;
    }
    PlainLength(items);
    if repeatAt >= 0 {
      schedule[count] := Goto(repeatAt);
      count := count + 1;
    }
    assert parts == past;
    assert count == schedule.Length && schedule[..] == schedule[..count];
    return true;
  }

  lemma NextPart(past: seq<string>, buf: string, after: seq<string>)
    ensures past + ([buf] + after) == past + [buf] + after
    ensures var before, now := ParseItems(past), ParseItems(past + [buf]);
      now == if before.Some? && |buf| < ITEM_BUF && ParseItem(buf).Some? then Some(before.value + [ParseItem(buf).value]) else None
    ensures var now, all := ParseItems(past + [buf]), ParseItems(past + [buf] + after);
      all.Some? ==> now.Some? && now.value <= all.value
  {
    hide ParseItem, ParseItems;
    ParseItemsSnoc(past, buf);
    ParseItemsPrefix(past + [buf], after);
  }

  lemma NoItems()
    ensures ParseItems([]) == Some([]) && Plain([]) == [] && !HasForever([]) && ForeverOnce([])
  {
  }

  lemma StaysTwice(items: seq<Item>, all: Option<seq<Item>>)
    requires !ForeverOnce(items)
    requires all.Some? ==> items <= all.value
    ensures all.Some? ==> !ForeverOnce(all.value)
  {
    var i, j :| 0 <= i < j < |items| && items[i].Forever? && items[j].Forever?;
    if all.Some? {
      assert all.value[i] == items[i] && all.value[j] == items[j];
    }
  }

  /** `run_stop_schedule` from its loop on, fed with what each look for processes gives. */
  method RunStopSchedule(schedule: array<Item>, answers: seq<Answer>) returns (m: Machine)
    ensures m == Exec(schedule[..], answers)
  {
    hide Watch;
    var position, trace, anyKilled, status := 0, [], false, Running;
    for i := 0 to |answers|
      invariant Machine(position, trace, anyKilled, status) == Exec(schedule[..], answers[..i])
    {
      assert answers[..i + 1][..i] == answers[..i];
      if !status.Running? {
        continue;
      }
      if position < 0 || position >= schedule.Length {
        status := RefusedToDie;
        continue;
      }
      var item, answer := schedule[position], answers[i];
      match item
      case Goto(value) => position := value;
      case Signal(_) =>
        var killed := answer.killed;
        trace := trace + [Act(item, [killed], killed > 0)];
        if killed == 0 {
          status := Finished(anyKilled);
        } else {
          anyKilled := true;
          position := position + 1;
        }
      case Timeout(value) =>
        var outcome, polls, sleeps := Wait(answer.start, value, answer.looks);
        var seen := Found(answer.looks, polls);
        match outcome {
          case Waiting => status := Status.Waiting(item, seen);
          case AllGone =>
            trace := trace + [Act(item, seen, false)];
            status := Finished(anyKilled);
          case Expired =>
            trace := trace + [Act(item, seen, true)];
            position := position + 1;
        }
      case Forever =>
    }
    assert answers[..|answers|] == answers;
    return Machine(position, trace, anyKilled, status);
  }
}
