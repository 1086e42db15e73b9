/** dbus/framework_debus.c, first half: from the arguments of a D-Bus signal to the three strings
    the watcher looks at. */
module Signals {
  import opened MachineIntegers

  /** An argument as the message iterator presents it. Other: any type the parser skips. */
  datatype Arg =
    | Text(text: string)
    | DictEntry(args: seq<Arg>)
    | Array(args: seq<Arg>)
    | Variant(args: seq<Arg>)
    | Other
  {
    predicate IsContainer() {
      DictEntry? || Array? || Variant?
    }
  }

  // ----- C strings in fixed buffers

  /** Size of each buffer; one character is kept for the terminator. */
  const BUFFER_LENGTH: nat := 255
  const MAX_TEXT: nat := 254

  /** The string a character buffer holds: everything before the first NUL. */
  function CString(chars: seq<char>): string {
    if chars == [] || chars[0] == '\0' then [] else [chars[0]] + CString(chars[1..])
  }

  function Truncated(s: string): string {
    if |s| <= MAX_TEXT then s else s[..MAX_TEXT]
  }

  function UpperChar(c: char): char {
    if 'a' <= c <= 'z' then ((c as int) - ('a' as int) + ('A' as int)) as char else c
  }

  function Upper(s: string): (u: string)
    ensures |u| == |s|
  {
    if s == [] then [] else [UpperChar(s[0])] + Upper(s[1..])
  }

  lemma {:induction false} UpperAt(s: string, i: nat)
    requires i < |s|
    ensures Upper(s)[i] == UpperChar(s[i])
  {
    if i == 0 {
    } else {
      UpperAt(s[1..], i - 1);
    }
  }

  /** Every small letter becomes its capital, ... */
  lemma {:induction false} UpperOfAnyCase(s: string, u: string)
    requires |s| == |u| && forall i :: 0 <= i < |u| ==> 'A' <= u[i] <= 'Z'
    requires forall i :: 0 <= i < |s| ==> s[i] == u[i] || s[i] as int == u[i] as int + 32
    ensures Upper(s) == u
  {
    if s == [] {
    } else {
      UpperOfAnyCase(s[1..], u[1..]);
    }
  }

  /** ... and everything else stays. */
  lemma {:induction false} UpperLeavesOthers(s: string)
    requires forall i :: 0 <= i < |s| ==> !('a' <= s[i] <= 'z')
    ensures Upper(s) == s
  {
    if s == [] {
    } else {
      UpperLeavesOthers(s[1..]);
    }
  }

  /** What `bzero` and a bounded `strncpy` leave in a buffer. */
  function Stored(text: string): string {
    Truncated(CString(text))
  }

  lemma {:induction false} CStringPrefix(chars: seq<char>)
    ensures |CString(chars)| <= |chars| && CString(chars) == chars[..|CString(chars)|]
    ensures forall i :: 0 <= i < |CString(chars)| ==> chars[i] != '\0'
    ensures |CString(chars)| < |chars| ==> chars[|CString(chars)|] == '\0'
  {
    if chars == [] || chars[0] == '\0' {
    } else {
      CStringPrefix(chars[1..]);
    }
  }

  lemma {:induction false} CStringIs(chars: seq<char>, n: nat)
    requires n <= |chars| && forall i :: 0 <= i < n ==> chars[i] != '\0'
    requires n < |chars| ==> chars[n] == '\0'
    ensures CString(chars) == chars[..n]
  {
    if n == 0 {
    } else {
      CStringIs(chars[1..], n - 1);
    }
  }

  /** The stored text is the longest beginning of the text without a NUL that fits in 254 characters. */
  lemma StoredIsLongest(text: string)
    ensures Stored(text) <= text && |Stored(text)| <= 254
    ensures forall i :: 0 <= i < |Stored(text)| ==> text[i] != '\0'
    ensures |Stored(text)| < 254 && |Stored(text)| < |text| ==> text[|Stored(text)|] == '\0'
  {
    CStringPrefix(text);
  }

  method BZero(a: array<char>)
    modifies a
    ensures forall i :: 0 <= i < a.Length ==> a[i] == '\0'
  {
    var i := 0;
    while i < a.Length
      invariant 0 <= i <= a.Length
      invariant forall k :: 0 <= k < i ==> a[k] == '\0'
    {
      a[i] := '\0';
      i := i + 1;
    }
  }

  /** Copies up to n characters of a C string and fills up with NUL. */
  method StrNCpy(a: array<char>, text: string, n: nat)
    requires n <= a.Length
    modifies a
    ensures forall i :: 0 <= i < n ==> a[i] == if i < |CString(text)| then CString(text)[i] else '\0'
    ensures forall i :: n <= i < a.Length ==> a[i] == old(a[i])
  {
    CStringPrefix(text);
    var i := 0;
    while i < n && i < |text| && text[i] != '\0'
      invariant 0 <= i <= n && i <= |CString(text)|
      invariant forall k :: 0 <= k < i ==> a[k] == CString(text)[k]
      invariant forall k :: n <= k < a.Length ==> a[k] == old(a[k])
    {
      a[i] := text[i];
      i := i + 1;
    }
    while i < n
      invariant 0 <= i <= n
      invariant forall k :: 0 <= k < i ==> a[k] == if k < |CString(text)| then CString(text)[k] else '\0'
      invariant i < n ==> i >= |CString(text)|
      invariant forall k :: n <= k < a.Length ==> a[k] == old(a[k])
    {
      a[i] := '\0';
      i := i + 1;
    }
  }

  method MakeUpper(a: array<char>)
    requires |CString(a[..])| < a.Length
    modifies a
    ensures CString(a[..]) == Upper(old(CString(a[..])))
    ensures forall i :: |CString(old(a[..]))| <= i < a.Length ==> a[i] == old(a[i])
  {
    ghost var was := a[..];
    ghost var s := CString(was);
    CStringPrefix(was);
    var i := 0;
    while a[i] != '\0'
      invariant 0 <= i <= |s| < a.Length
      invariant forall k :: 0 <= k < i ==> a[k] == UpperChar(was[k]) && a[k] != '\0'
      invariant forall k :: i <= k < a.Length ==> a[k] == was[k]
      decreases |s| - i
    {
      a[i] := UpperChar(a[i]);
      i := i + 1;
    }
    CStringIs(a[..], i);
    forall k | 0 <= k < i
      ensures a[k] == Upper(s)[k]
    {
      UpperAt(s, k);
    }
    assert a[..][..i] == Upper(s);
  }

  /** `bzero` followed by `strncpy`, as done for each of the three strings. */
  method Store(a: array<char>, text: string)
    requires a.Length == BUFFER_LENGTH
    modifies a
    ensures CString(a[..]) == Stored(text) && a[MAX_TEXT] == '\0'
  {
    BZero(a);
    StrNCpy(a, text, MAX_TEXT);
    CStringPrefix(text);
    CStringIs(a[..], |Stored(text)|);
    assert a[..][..|Stored(text)|] == Stored(text);
  }

  // ----- What the parser is to find

  /** A string in visiting order, with its nesting depth and its position among its siblings. */
  datatype Leaf = Leaf(depth: nat, index: nat, text: string)

  function Leaves(args: seq<Arg>, depth: nat, index: nat): seq<Leaf>
    decreases args
  {
    if args == [] then [] else LeavesOf(args[0], depth, index) + Leaves(args[1..], depth, index + 1)
  }

  function LeavesOf(arg: Arg, depth: nat, index: nat): seq<Leaf>
    decreases arg
  {
    match arg
    case Text(s) => [Leaf(depth, index, s)]
    case DictEntry(args) => Leaves(args, depth + 1, 0)
    case Array(args) => Leaves(args, depth + 1, 0)
    case Variant(args) => Leaves(args, depth + 1, 0)
    case Other => []
  }

  datatype Fields = Fields(name: string, param2: string, status: string)

  const NOTHING: Fields := Fields("", "", "")

  /** Depth and position are counted in `uint8_t`. */
  predicate Selects(leaf: Leaf, level: uint8) {
    Wrap8(leaf.depth) == level && Wrap8(leaf.index) == 0
  }

  function Record(f: Fields, leaf: Leaf): Fields {
    if Selects(leaf, 0) then f.(name := Stored(leaf.text))
    else if Selects(leaf, 2) then f.(param2 := Stored(leaf.text))
    else if Selects(leaf, 3) then f.(status := Upper(Stored(leaf.text)))
    else f
  }

  function RecordAll(f: Fields, leaves: seq<Leaf>): Fields
    decreases |leaves|
  {
    if leaves == [] then f else RecordAll(Record(f, leaves[0]), leaves[1..])
  }

  lemma RecordOne(f: Fields, leaf: Leaf)
    ensures RecordAll(f, [leaf]) == Record(f, leaf)
  {
    assert [leaf][1..] == [];
  }

  lemma {:induction false} RecordAllAppend(f: Fields, a: seq<Leaf>, b: seq<Leaf>)
    ensures RecordAll(f, a + b) == RecordAll(RecordAll(f, a), b)
    decreases |a|
  {
    if a == [] {
      assert a + b == b;
    } else {
      assert (a + b)[1..] == a[1..] + b;
      RecordAllAppend(Record(f, a[0]), a[1..], b);
    }
  }

  /** The text of the last leaf selected at a level. */
  function LastAt(leaves: seq<Leaf>, level: uint8): Option<string> {
    if leaves == [] then None
    else
      var n := |leaves| - 1;
      if Selects(leaves[n], level) then Some(leaves[n].text) else LastAt(leaves[..n], level)
  }

  lemma {:induction false} LastAtIsLast(leaves: seq<Leaf>, level: uint8)
    ensures match LastAt(leaves, level)
            case None => forall k :: 0 <= k < |leaves| ==> !Selects(leaves[k], level)
            case Some(text) =>
              exists k :: 0 <= k < |leaves| && Selects(leaves[k], level) && leaves[k].text == text
                && forall m :: k < m < |leaves| ==> !Selects(leaves[m], level)
  {
    if leaves == [] {
    } else {
      var n := |leaves| - 1;
      if !Selects(leaves[n], level) {
        LastAtIsLast(leaves[..n], level);
        if LastAt(leaves, level).Some? {
          var front := leaves[..n];
          var k :| 0 <= k < |front| && Selects(front[k], level) && front[k].text == LastAt(leaves, level).value
            && forall m :: k < m < |front| ==> !Selects(front[m], level);
          assert Selects(leaves[k], level);
          forall m | k < m < |leaves|
            ensures !Selects(leaves[m], level)
          {
            if m < n {
              assert front[m] == leaves[m];
            }
          }
        } else {
          forall k | 0 <= k < |leaves|
            ensures !Selects(leaves[k], level)
          {
            if k < n {
              assert leaves[..n][k] == leaves[k];
            }
          }
        }
      }
    }
  }

  function StoredOr(o: Option<string>, default: string): string {
    match o
    case Some(s) => Stored(s)
    case None => default
  }

  function UpperOr(o: Option<string>, default: string): string {
    match o
    case Some(s) => Upper(Stored(s))
    case None => default
  }

  /** Each string is the last one visited at its depth in first position, and untouched if there is
      none; the status is in upper case. */
  lemma {:induction false} EachFieldIsTheLast(f: Fields, leaves: seq<Leaf>)
    ensures RecordAll(f, leaves) ==
            Fields(StoredOr(LastAt(leaves, 0), f.name), StoredOr(LastAt(leaves, 2), f.param2),
                   UpperOr(LastAt(leaves, 3), f.status))
    decreases |leaves|
  {
    if leaves == [] {
    } else {
      var n := |leaves| - 1;
      EachFieldIsTheLast(f, leaves[..n]);
      assert leaves == leaves[..n] + [leaves[n]];
      RecordAllAppend(f, leaves[..n], [leaves[n]]);
      RecordOne(RecordAll(f, leaves[..n]), leaves[n]);
    }
  }

  // ----- The parser

  class ParsedSignal {
    const name: array<char>
    const param2: array<char>
    const status: array<char>

    ghost predicate Valid()
      reads this, name, param2, status
    {
      && name != param2 && name != status && param2 != status
      && name.Length == param2.Length == status.Length == BUFFER_LENGTH
      && name[MAX_TEXT] == param2[MAX_TEXT] == status[MAX_TEXT] == '\0'
    }

    function View(): Fields
      reads this, name, param2, status
    {
      Fields(CString(name[..]), CString(param2[..]), CString(status[..]))
    }

    constructor ()
      ensures Valid() && View() == NOTHING
      ensures fresh(name) && fresh(param2) && fresh(status)
    {
      name := new char[BUFFER_LENGTH](_ => '\0');
      param2 := new char[BUFFER_LENGTH](_ => '\0');
      status := new char[BUFFER_LENGTH](_ => '\0');
    }

    /** The whole structure is zeroed before every message. */
    method Reset()
      requires Valid()
      modifies name, param2, status
      ensures Valid() && View() == NOTHING
    {
      BZero(name);
      BZero(param2);
      BZero(status);
    }

    /** One string, at the given nesting level and position. */
    method OnText(text: string, subLevel: uint8, counter: uint8, ghost leaf: Leaf)
      requires Valid()
      requires text == leaf.text && subLevel == Wrap8(leaf.depth) && counter == Wrap8(leaf.index)
      modifies name, param2, status
      ensures Valid() && View() == Record(old(View()), leaf)
    {
      if 0 == subLevel && 0 == counter {
        Store(name, text);
      }
      if 2 == subLevel && 0 == counter {
        Store(param2, text);
      }
      if 3 == subLevel && 0 == counter {
        Store(status, text);
        CStringPrefix(text);
        MakeUpper(status);
      }
    }

    /** The switch on one argument's type. */
    method ParseOne(arg: Arg, subLevel: uint8, counter: uint8, ghost depth: nat, ghost index: nat) returns (result: int)
      requires Valid() && subLevel == Wrap8(depth) && counter == Wrap8(index)
      modifies name, param2, status
      ensures Valid() && View() == RecordAll(old(View()), LeavesOf(arg, depth, index))
      ensures result == 0
      decreases arg
    {
      result := 0;
      match arg
      case Text(text) =>
        RecordOne(View(), Leaf(depth, index, text));
        OnText(text, subLevel, counter, Leaf(depth, index, text));
      case DictEntry(args) =>
        NextCounter(depth);
        result := ParseIter(args, Wrap8(subLevel + 1), depth + 1);
      case Array(args) =>
        NextCounter(depth);
        result := ParseIter(args, Wrap8(subLevel + 1), depth + 1);
      case Variant(args) =>
        NextCounter(depth);
        result := ParseIter(args, Wrap8(subLevel + 1), depth + 1);
      case Other =>
    }

    /** The argument at one position: what is left to record afterwards is what follows it. */
    method ParseAt(args: seq<Arg>, i: nat, subLevel: uint8, counter: uint8, ghost depth: nat) returns (result: int)
      requires Valid() && subLevel == Wrap8(depth) && counter == Wrap8(i) && i < |args|
      modifies name, param2, status
      ensures Valid()
      ensures RecordAll(View(), LeavesFrom(args, depth, i + 1)) == RecordAll(old(View()), LeavesFrom(args, depth, i))
      ensures result == 0
      decreases args, 0
    {
      NextLeaves(args, depth, i);
      RecordAllAppend(View(), LeavesOf(args[i], depth, i), LeavesFrom(args, depth, i + 1));
      result := ParseOne(args[i], subLevel, counter, depth, i);
    }

    /** `parse_signal_iter`: the iterator is a position in a list of siblings; on an empty container
        the body runs once and finds no argument. */
    method ParseIter(args: seq<Arg>, subLevel: uint8, ghost depth: nat) returns (result: int)
      requires Valid() && subLevel == Wrap8(depth)
      modifies name, param2, status
      ensures Valid() && View() == RecordAll(old(View()), Leaves(args, depth, 0))
      ensures result == 0
      decreases args, 1
    {
      var counter: uint8 := 0;
      result := 0;
      var i := 0;
      var more := true;
      assert args[0..] == args;
      ghost var goal := RecordAll(View(), Leaves(args, depth, 0));
      while more
        invariant 0 <= i && counter == Wrap8(i) && result == 0
        invariant if more then i <= |args| else i >= |args|
        invariant Valid() && RecordAll(View(), LeavesFrom(args, depth, i)) == goal
        decreases |args| - i, more
      {
        if i < |args| {
          var r := ParseAt(args, i, subLevel, counter, depth);
          result := if r != 0 then r else result;
        }
        NextCounter(i);
        counter := Wrap8(counter + 1);
        i := i + 1;
        more := i < |args|;
      }
    }
  }

  lemma NextCounter(i: nat)
    ensures Wrap8(Wrap8(i) + 1) == Wrap8(i + 1)
  {
  }

  /** The leaves from position i on; none past the end. */
  function LeavesFrom(args: seq<Arg>, depth: nat, i: nat): seq<Leaf> {
    if i < |args| then Leaves(args[i..], depth, i) else []
  }

  lemma NextLeaves(args: seq<Arg>, depth: nat, i: nat)
    requires i < |args|
    ensures LeavesFrom(args, depth, i) == LeavesOf(args[i], depth, i) + LeavesFrom(args, depth, i + 1)
  {
    var rest := args[i..];
    assert rest[0] == args[i] && rest[1..] == args[i + 1..];
    assert Leaves(rest, depth, i) == LeavesOf(rest[0], depth, i) + Leaves(rest[1..], depth, i + 1);
    if i + 1 == |args| {
      assert rest[1..] == [];
    }
  }

  // ----- Which positions count

  function Skipped(n: nat): seq<Arg> {
    seq(n, _ => Other)
  }

  lemma {:induction false} SkippedHasNoLeaves(n: nat, rest: seq<Arg>, depth: nat, index: nat)
    ensures Leaves(Skipped(n) + rest, depth, index) == Leaves(rest, depth, index + n)
    decreases n
  {
    if n == 0 {
      assert Skipped(0) + rest == rest;
    } else {
      assert (Skipped(n) + rest)[0] == Other && (Skipped(n) + rest)[1..] == Skipped(n - 1) + rest;
      SkippedHasNoLeaves(n - 1, rest, depth, index + 1);
    }
  }

  /** At the top level a string is taken for the name in first position, and again in every 256th
      after it, since positions are counted in eight bits; in any other position it is skipped. */
  lemma NameIsAtEvery256th(n: nat, text: string)
    ensures RecordAll(NOTHING, Leaves(Skipped(n) + [Text(text)], 0, 0)) ==
            if n % 256 == 0 then Fields(Stored(text), "", "") else NOTHING
  {
    SkippedHasNoLeaves(n, [Text(text)], 0, 0);
    assert [Text(text)][1..] == [];
    assert Leaves([Text(text)], 0, n) == [Leaf(0, n, text)];
    RecordOne(NOTHING, Leaf(0, n, text));
  }

  /** A string inside n arrays. */
  function Nested(n: nat, text: string): Arg {
    if n == 0 then Text(text) else Array([Nested(n - 1, text)])
  }

  lemma {:induction false} NestedLeaf(n: nat, text: string, depth: nat)
    ensures LeavesOf(Nested(n, text), depth, 0) == [Leaf(depth + n, 0, text)]
    decreases n
  {
    if n == 0 {
    } else {
      var inner := [Nested(n - 1, text)];
      NestedLeaf(n - 1, text, depth + 1);
      assert inner[1..] == [] && Leaves(inner, depth + 1, 0) == LeavesOf(inner[0], depth + 1, 0) + [];
    }
  }

  /** Nesting is counted in eight bits too: 256 levels down a string is taken for the name again. */
  lemma DepthIsModulo256(n: nat, text: string)
    ensures RecordAll(NOTHING, Leaves([Nested(n, text)], 0, 0)) ==
            if n % 256 == 0 then Fields(Stored(text), "", "")
            else if n % 256 == 2 then Fields("", Stored(text), "")
            else if n % 256 == 3 then Fields("", "", Upper(Stored(text)))
            else NOTHING
  {
    NestedLeaf(n, text, 0);
    assert [Nested(n, text)][1..] == [];
    assert Leaves([Nested(n, text)], 0, 0) == [Leaf(n, 0, text)] + [] == [Leaf(n, 0, text)];
    RecordOne(NOTHING, Leaf(n, 0, text));
  }

  // ----- The PropertiesChanged signal

  /** The arguments of org.freedesktop.DBus.Properties.PropertiesChanged, signature sa{sv}as: the
      interface, the changed properties with their values, and the names of invalidated ones. */
  function PropertiesChanged(iface: string, changed: seq<(string, Arg)>, invalidated: seq<string>): seq<Arg> {
    [Text(iface), Array(Entries(changed)), Array(Texts(invalidated))]
  }

  function Entries(changed: seq<(string, Arg)>): seq<Arg> {
    if changed == [] then []
    else [DictEntry([Text(changed[0].0), Variant([changed[0].1])])] + Entries(changed[1..])
  }

  function Texts(names: seq<string>): seq<Arg> {
    if names == [] then [] else [Text(names[0])] + Texts(names[1..])
  }

  /** The value of the last changed property whose value is a string. */
  function LastText(changed: seq<(string, Arg)>): Option<string> {
    if changed == [] then None
    else
      match LastText(changed[1..])
      case Some(s) => Some(s)
      case None => if changed[0].1.Text? then Some(changed[0].1.text) else None
  }

  function LastName(changed: seq<(string, Arg)>): Option<string> {
    if changed == [] then None else Some(changed[|changed| - 1].0)
  }

  function Max(a: nat, b: nat): nat {
    if a < b then b else a
  }

  /** Nesting depth of a list of arguments. */
  function Height(args: seq<Arg>): nat
    decreases args
  {
    if args == [] then 0 else Max(HeightOf(args[0]), Height(args[1..]))
  }

  function HeightOf(arg: Arg): nat
    decreases arg
  {
    match arg
    case Text(_) => 1
    case DictEntry(args) => 1 + Height(args)
    case Array(args) => 1 + Height(args)
    case Variant(args) => 1 + Height(args)
    case Other => 1
  }

  /** All leaves lie between depths lo and hi-1. */
  predicate Between(leaves: seq<Leaf>, lo: nat, hi: nat) {
    forall i :: 0 <= i < |leaves| ==> lo <= leaves[i].depth < hi
  }

  lemma {:induction false} LeavesBetween(args: seq<Arg>, depth: nat, index: nat)
    ensures Between(Leaves(args, depth, index), depth, depth + Height(args))
    decreases args
  {
    if args == [] {
    } else {
      LeavesOfBetween(args[0], depth, index);
      LeavesBetween(args[1..], depth, index + 1);
    }
  }

  lemma {:induction false} LeavesOfBetween(arg: Arg, depth: nat, index: nat)
    ensures Between(LeavesOf(arg, depth, index), depth, depth + HeightOf(arg))
    decreases arg
  {
    if !arg.IsContainer() {
    } else {
      LeavesBetween(arg.args, depth + 1, 0);
    }
  }

  lemma {:induction false} UnselectedDepths(f: Fields, leaves: seq<Leaf>)
    requires Between(leaves, 4, 256) || Between(leaves, 1, 2)
    ensures RecordAll(f, leaves) == f
    decreases |leaves|
  {
    if leaves == [] {
    } else {
      assert leaves[0].depth == 1 || 4 <= leaves[0].depth < 256;
      assert forall i :: 0 <= i < |leaves[1..]| ==> leaves[1..][i] == leaves[i + 1];
      UnselectedDepths(f, leaves[1..]);
    }
  }

  /** A value below a changed property counts only if it is itself a string. */
  lemma ValueRecorded(f: Fields, value: Arg)
    requires HeightOf(value) <= 250
    ensures RecordAll(f, Leaves([value], 3, 0)) ==
            if value.Text? then f.(status := Upper(Stored(value.text))) else f
  {
    var leaves := LeavesOf(value, 3, 0);
    assert [value][1..] == [] && Leaves([value], 3, 0) == leaves + [];
    assert leaves + [] == leaves;
    if value.Text? {
      assert leaves[1..] == [];
    } else if value.IsContainer() {
      LeavesBetween(value.args, 4, 0);
      UnselectedDepths(f, leaves);
    }
  }

  lemma EntryRecorded(f: Fields, name: string, value: Arg, index: nat)
    requires HeightOf(value) <= 250
    ensures RecordAll(f, LeavesOf(DictEntry([Text(name), Variant([value])]), 1, index)) ==
            Fields(f.name, Stored(name), if value.Text? then Upper(Stored(value.text)) else f.status)
  {
    var args := [Text(name), Variant([value])];
    assert args[1..] == [Variant([value])] && args[1..][1..] == [];
    var inner := Leaves([value], 3, 0);
    assert Leaves(args[1..], 2, 1) == inner + [] == inner;
    assert Leaves(args, 2, 0) == [Leaf(2, 0, name)] + inner;
    RecordAllAppend(f, [Leaf(2, 0, name)], inner);
    assert [Leaf(2, 0, name)][1..] == [];
    ValueRecorded(f.(param2 := Stored(name)), value);
  }

  lemma {:induction false} EntriesRecorded(f: Fields, changed: seq<(string, Arg)>, index: nat)
    requires forall i :: 0 <= i < |changed| ==> HeightOf(changed[i].1) <= 250
    ensures RecordAll(f, Leaves(Entries(changed), 1, index)) ==
            Fields(f.name, StoredOr(LastName(changed), f.param2), UpperOr(LastText(changed), f.status))
    decreases |changed|
  {
    if changed == [] {
    } else {
      var (name, value) := changed[0];
      var entry := DictEntry([Text(name), Variant([value])]);
      var rest := Leaves(Entries(changed[1..]), 1, index + 1);
      assert Entries(changed)[1..] == Entries(changed[1..]);
      RecordAllAppend(f, LeavesOf(entry, 1, index), rest);
      EntryRecorded(f, name, value, index);
      var f1 := Fields(f.name, Stored(name), if value.Text? then Upper(Stored(value.text)) else f.status);
      EntriesRecorded(f1, changed[1..], index + 1);
    }
  }

  lemma {:induction false} TextsHeight(names: seq<string>)
    ensures Height(Texts(names)) <= 1
  {
    if names == [] {
    } else {
      assert Texts(names)[1..] == Texts(names[1..]);
      TextsHeight(names[1..]);
    }
  }

  /** The leaves of the three arguments, one after the other. */
  lemma PropertiesChangedLeaves(iface: string, props: Arg, names: Arg)
    ensures Leaves([Text(iface), props, names], 0, 0) ==
            [Leaf(0, 0, iface)] + (LeavesOf(props, 0, 1) + LeavesOf(names, 0, 2))
  {
    LeavesCons(names, [], 0, 2);
    LeavesCons(props, [names], 0, 1);
    LeavesCons(Text(iface), [props, names], 0, 0);
    assert LeavesOf(names, 0, 2) + [] == LeavesOf(names, 0, 2);
    assert [Text(iface)] + [props, names] == [Text(iface), props, names];
    assert [props] + [names] == [props, names] && [names] + [] == [names];
  }

  /** The names of invalidated properties lie too high to be recorded. */
  lemma {:induction false} InvalidatedUnrecorded(f: Fields, invalidated: seq<string>)
    ensures RecordAll(f, Leaves(Texts(invalidated), 1, 0)) == f
  {
    LeavesBetween(Texts(invalidated), 1, 0);
    TextsHeight(invalidated);
    UnselectedDepths(f, Leaves(Texts(invalidated), 1, 0));
  }

  /** For a PropertiesChanged signal the parser finds the interface as the name, and as the status
      the last changed property that has a string value, whatever that property is. */
  lemma {:induction false} PropertiesChangedParsed(iface: string, changed: seq<(string, Arg)>, invalidated: seq<string>)
    requires forall i :: 0 <= i < |changed| ==> HeightOf(changed[i].1) <= 250
    ensures RecordAll(NOTHING, Leaves(PropertiesChanged(iface, changed, invalidated), 0, 0)) ==
            Fields(Stored(iface), StoredOr(LastName(changed), ""), UpperOr(LastText(changed), ""))
  {
    var b, c := Leaves(Entries(changed), 1, 0), Leaves(Texts(invalidated), 1, 0);
    PropertiesChangedLeaves(iface, Array(Entries(changed)), Array(Texts(invalidated)));
    RecordAllAppend(NOTHING, [Leaf(0, 0, iface)], b + c);
    RecordOne(NOTHING, Leaf(0, 0, iface));
    var f := Fields(Stored(iface), "", "");
    RecordAllAppend(f, b, c);
    EntriesRecorded(f, changed, 0);
    InvalidatedUnrecorded(RecordAll(f, b), invalidated);
  }

  lemma LeavesCons(arg: Arg, rest: seq<Arg>, depth: nat, index: nat)
    ensures Leaves([arg] + rest, depth, index) == LeavesOf(arg, depth, index) + Leaves(rest, depth, index + 1)
  {
    assert ([arg] + rest)[1..] == rest;
  }
}
