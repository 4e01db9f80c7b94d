/** Run IDs of child workflows: printing them and reading them back. */
module ChildIds {
  import opened Events

  /** One step down from a run: a child started by Run, or an item of a Map call. */
  datatype Segment = RunChild(index: nat) | MapChild(mapIndex: nat, item: nat)

  predicate IsDigit(c: char) {
    '0' <= c <= '9'
  }

  function Digit(d: nat): (c: char)
    requires d < 10
    ensures IsDigit(c)
  {
    '0' + d as char
  }

  /** Decimal notation without leading zeros. */
  function Decimal(n: nat): string {
    if n < 10 then [Digit(n)] else Decimal(n / 10) + [Digit(n % 10)]
  }

  function Print(s: Segment): string {
    match s
    case RunChild(index) => "-child-" + Decimal(index)
    case MapChild(mapIndex, item) => "-map-" + Decimal(mapIndex) + "-" + Decimal(item)
  }

  /** The run ID reached from `root`: each level appends its own suffix to the ID above it. */
  function RunId(root: string, path: seq<Segment>): string {
    if path == [] then root else RunId(root, path[..|path| - 1]) + Print(path[|path| - 1])
  }

  // ---------------------------------------------------------------------------------------------
  // Reading numbers

  /** The length of the run of digits at the start of a string. */
  function DigitRun(s: string): (k: nat)
    ensures k <= |s|
  {
    if s != "" && IsDigit(s[0]) then 1 + DigitRun(s[1..]) else 0
  }

  function Value(s: string): nat {
    if s == "" then 0
    else Value(s[..|s| - 1]) * 10 + if IsDigit(s[|s| - 1]) then (s[|s| - 1] - '0') as nat else 0
  }

  /** The number at the start of a string, and what follows it. */
  function ReadNumber(s: string): (nat, string) {
    (Value(s[..DigitRun(s)]), s[DigitRun(s)..])
  }

  lemma {:induction false} DecimalValue(n: nat)
    ensures Value(Decimal(n)) == n && Decimal(n) != ""
    ensures forall i :: 0 <= i < |Decimal(n)| ==> IsDigit(Decimal(n)[i])
  {
    if n >= 10 {
      DecimalValue(n / 10);
      var s := Decimal(n);
      assert s[..|s| - 1] == Decimal(n / 10);
      DigitValue(n % 10);
    } else {
      DigitValue(n);
      assert Decimal(n)[..0] == "";
    }
  }

  lemma DigitValue(d: nat)
    requires d < 10
    ensures (Digit(d) - '0') as nat == d
  {}

  lemma {:induction false} DigitRunOf(digits: string, rest: string)
    requires forall i :: 0 <= i < |digits| ==> IsDigit(digits[i])
    requires rest == "" || !IsDigit(rest[0])
    ensures DigitRun(digits + rest) == |digits|
  {
    if digits == "" {
      assert digits + rest == rest;
    } else {
      assert (digits + rest)[1..] == digits[1..] + rest;
      DigitRunOf(digits[1..], rest);
    }
  }

  lemma NumberReadsBack(n: nat, rest: string)
    requires rest == "" || !IsDigit(rest[0])
    ensures ReadNumber(Decimal(n) + rest) == (n, rest)
  {
    DecimalValue(n);
    DigitRunOf(Decimal(n), rest);
    var s := Decimal(n) + rest;
    assert s[..|Decimal(n)|] == Decimal(n) && s[|Decimal(n)|..] == rest;
  }

  // ---------------------------------------------------------------------------------------------
  // Reading paths

  function Text(path: seq<Segment>): string {
    if path == [] then "" else Print(path[0]) + Text(path[1..])
  }

  const CHILD: string := "-child-"
  const MAP: string := "-map-"

  /** Read the suffixes of a run ID from left to right. */
  function ReadPath(s: string): Option<seq<Segment>>
    decreases |s|
  {
    if s == "" then Some([])
    else if CHILD <= s then
      var (index, rest) := ReadNumber(s[|CHILD|..]);
      match ReadPath(rest)
      case None => None
      case Some(path) => Some([RunChild(index)] + path)
    else if MAP <= s then
      var (mapIndex, middle) := ReadNumber(s[|MAP|..]);
      if middle == "" || middle[0] != '-' then None
      else
        var (item, rest) := ReadNumber(middle[1..]);
        match ReadPath(rest)
        case None => None
        case Some(path) => Some([MapChild(mapIndex, item)] + path)
    else None
  }

  lemma TextStarts(path: seq<Segment>)
    ensures Text(path) == "" || Text(path)[0] == '-'
  {}

  lemma ReadsRunChild(index: nat, rest: string)
    requires rest == "" || !IsDigit(rest[0])
    ensures ReadPath(Print(RunChild(index)) + rest) ==
            if ReadPath(rest).Some? then Some([RunChild(index)] + ReadPath(rest).value) else None
  {
    hide ReadNumber, Decimal, IsDigit;
    var s := Print(RunChild(index)) + rest;
    assert s == CHILD + (Decimal(index) + rest);
    assert s[|CHILD|..] == Decimal(index) + rest;
    NumberReadsBack(index, rest);
  }

  lemma ReadsMapChild(mapIndex: nat, item: nat, rest: string)
    requires rest == "" || !IsDigit(rest[0])
    ensures ReadPath(Print(MapChild(mapIndex, item)) + rest) ==
            if ReadPath(rest).Some? then Some([MapChild(mapIndex, item)] + ReadPath(rest).value) else None
  {
    hide ReadNumber, Decimal;
    var s, tail := Print(MapChild(mapIndex, item)) + rest, "-" + (Decimal(item) + rest);
    assert s == MAP + (Decimal(mapIndex) + tail);
    assert s[|MAP|..] == Decimal(mapIndex) + tail;
    assert s[1] == 'm' && !(CHILD <= s);
    NumberReadsBack(mapIndex, tail);
    assert tail[1..] == Decimal(item) + rest;
    NumberReadsBack(item, rest);
  }

  /** Reading is the inverse of printing, at any nesting depth. */
  lemma {:induction false} PathReadsBack(path: seq<Segment>)
    ensures ReadPath(Text(path)) == Some(path)
  {
    if path != [] {
      hide ReadPath, Print;
      PathReadsBack(path[1..]);
      TextStarts(path[1..]);
      assert path == [path[0]] + path[1..];
      match path[0]
      case RunChild(index) => ReadsRunChild(index, Text(path[1..]));
      case MapChild(mapIndex, item) => ReadsMapChild(mapIndex, item, Text(path[1..]));
    }
  }

  lemma {:induction false} RunIdText(root: string, path: seq<Segment>)
    ensures RunId(root, path) == root + Text(path)
  {
    if path == [] {
      assert root + "" == root;
    } else {
      hide RunId, Text, Print;
      RunIdText(root, path[..|path| - 1]);
      RunIdPush(root, path);
      TextLast(path);
      Associate(root, Text(path[..|path| - 1]), Print(path[|path| - 1]));
    }
  }

  lemma TextLast(path: seq<Segment>)
    requires path != []
    ensures Text(path) == Text(path[..|path| - 1]) + Print(path[|path| - 1])
  {
    hide Text, Print;
    TextPush(path[..|path| - 1], path[|path| - 1]);
    assert path == path[..|path| - 1] + [path[|path| - 1]];
  }

  lemma RunIdPush(root: string, path: seq<Segment>)
    requires path != []
    ensures RunId(root, path) == RunId(root, path[..|path| - 1]) + Print(path[|path| - 1])
  {}

  lemma Associate(a: string, b: string, c: string)
    ensures a + b + c == a + (b + c)
  {}

  lemma {:induction false} TextPush(path: seq<Segment>, s: Segment)
    ensures Text(path + [s]) == Text(path) + Print(s)
  {
    if path == [] {
      assert [] + [s] == [s] && [s][1..] == [];
      assert Print(s) + "" == Print(s) && "" + Print(s) == Print(s);
    } else {
      assert (path + [s])[1..] == path[1..] + [s];
      TextPush(path[1..], s);
      assert Print(path[0]) + (Text(path[1..]) + Print(s)) == Print(path[0]) + Text(path[1..]) + Print(s);
    }
  }

  /** From one root run, distinct paths of children and map items have distinct run IDs. */
  lemma RunIdsDistinct(root: string, p: seq<Segment>, q: seq<Segment>)
    ensures RunId(root, p) == RunId(root, q) <==> p == q
  {
    RunIdText(root, p);
    RunIdText(root, q);
    PathReadsBack(p);
    PathReadsBack(q);
    if RunId(root, p) == RunId(root, q) {
      assert Text(p) == RunId(root, p)[|root|..] == Text(q);
    }
  }

  /** The children of one run: two items of map calls share an ID only if they are the same item. */
  lemma ItemIdsDistinct(run: string, m: nat, i: nat, m': nat, i': nat)
    ensures run + Print(MapChild(m, i)) == run + Print(MapChild(m', i')) <==> m == m' && i == i'
  {
    RunIdsDistinct(run, [MapChild(m, i)], [MapChild(m', i')]);
    assert [MapChild(m, i)][..0] == [] && [MapChild(m', i')][..0] == [];
    assert [MapChild(m, i)][0] == MapChild(m, i) && [MapChild(m', i')][0] == MapChild(m', i');
  }

  lemma SegmentsDistinct(run: string, a: Segment, b: Segment)
    ensures run + Print(a) == run + Print(b) <==> a == b
  {
    hide Print;
    RunIdsDistinct(run, [a], [b]);
    assert [a][..0] == [] && [b][..0] == [] && [a][0] == a && [b][0] == b;
  }

  /** The two counters of a replayer, and the child run IDs it has handed out. */
  class Counters {
    const run: string
    var children: nat
    var maps: nat
    ghost var issued: set<string>

    predicate Taken(s: Segment)
      reads this
    {
      match s
      case RunChild(index) => index < children
      case MapChild(mapIndex, _) => mapIndex < maps
    }

    ghost predicate Valid()
      reads this
    {
      forall id :: id in issued ==> exists s :: id == run + Print(s) && Taken(s)
    }

    constructor (run: string)
      ensures Valid() && this.run == run && issued == {}
    {
      this.run, children, maps, issued := run, 0, 0, {};
    }

    /** An ID for a segment that is not taken yet was never handed out. */
    lemma Unused(s: Segment)
      requires Valid() && !Taken(s)
      ensures run + Print(s) !in issued
    {
      hide Print;
      if run + Print(s) in issued {
        var t :| run + Print(s) == run + Print(t) && Taken(t);
        SegmentsDistinct(run, s, t);
      }
    }

    /** The ID of the next child of a Run call: new, whatever calls came before. */
    method NextChild() returns (id: string)
      requires Valid()
      modifies this
      ensures Valid() && id !in old(issued) && issued == old(issued) + {id}
      ensures id == run + Print(RunChild(old(children))) && children == old(children) + 1 && maps == old(maps)
    {
      hide Print;
      Unused(RunChild(children));
      id := run + Print(RunChild(children));
      children := children + 1;
      assert Taken(RunChild(children - 1));
      issued := issued + {id};
      assert forall s :: old(Taken(s)) ==> Taken(s);
    }

    /** The IDs of the children of the next Map call: all new, and no two alike. */
    method NextMap(items: nat) returns (ids: seq<string>)
      requires Valid()
      modifies this
      ensures Valid() && |ids| == items && issued == old(issued) + (set i | 0 <= i < items :: ids[i])
      ensures forall i :: 0 <= i < items ==> ids[i] == run + Print(MapChild(old(maps), i)) && ids[i] !in old(issued)
      ensures forall i, j :: 0 <= i < j < items ==> ids[i] != ids[j]
      ensures children == old(children) && maps == old(maps) + 1
    {
      hide Print;
      var mapIndex := maps;
      maps := maps + 1;
      ids := [];
      for i := 0 to items
        invariant |ids| == i && forall j :: 0 <= j < i ==> ids[j] == run + Print(MapChild(mapIndex, j))
      {
        ids := ids + [run + Print(MapChild(mapIndex, i))];
      }
      forall i | 0 <= i < items ensures ids[i] !in old(issued) {
        if ids[i] in old(issued) {
          var t :| ids[i] == run + Print(t) && old(Taken(t));
          SegmentsDistinct(run, MapChild(mapIndex, i), t);
        }
      }
      forall i, j | 0 <= i < j < items ensures ids[i] != ids[j] {
        SegmentsDistinct(run, MapChild(mapIndex, i), MapChild(mapIndex, j));
      }
      issued := issued + set i | 0 <= i < items :: ids[i];
      forall id | id in issued ensures exists s :: id == run + Print(s) && Taken(s) {
        if id in old(issued) {
          var t :| id == run + Print(t) && old(Taken(t));
          assert Taken(t);
        } else {
          var i :| 0 <= i < items && ids[i] == id;
          assert Taken(MapChild(mapIndex, i));
        }
      }
    }
  }
}
