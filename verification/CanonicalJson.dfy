/** Canonical JSON trees. */
module CanonicalJson {
  // The budgets the canonicalizer enforces, and the exact number of UTF-8 bytes
  // of the canonical text.
  //
  // Strings are sequences of Unicode scalar values, so every string here is well
  // formed; object members are listed in canonical key order.

  import opened Util

  const MAX_JSON_DEPTH: nat := 32
  const MAX_JSON_ITEMS: nat := 10_000
  const MAX_JSON_STRING_BYTES: nat := 1024 * 1024

  datatype Json =
    | Null
    | Bool(b: bool)
    | Number(text: string)
    | Text(s: string)
    | Array(items: seq<Json>)
    | Object(members: seq<Member>)

  datatype Member = Member(key: string, value: Json)

  /** What a tree costs: nodes, UTF-8 bytes of all strings and keys, bytes of its text, nesting depth. */
  datatype Cost = Cost(items: nat, strings: nat, bytes: nat, depth: nat) {
    function Plus(other: Cost): Cost {
      Cost(items + other.items, strings + other.strings, bytes + other.bytes, Max(depth, other.depth))
    }

    predicate AtMost(other: Cost) {
      items <= other.items && strings <= other.strings && bytes <= other.bytes && depth <= other.depth
    }
  }

  const FREE := Cost(0, 0, 0, 0)

  function Utf8Width(c: char): nat {
    if c as int < 0x80 then 1 else if c as int < 0x800 then 2 else if c as int < 0x1_0000 then 3 else 4
  }

  function Utf8Bytes(s: string): nat {
    if s == "" then 0 else Utf8Bytes(s[..|s| - 1]) + Utf8Width(s[|s| - 1])
  }

  /** The UTF-8 bytes of a character, after section 3 of RFC 3629: six bits a byte behind the first. */
  function Utf8(c: char): seq<int> {
    var n := c as int;
    var m := n / 0x40;
    if n < 0x80 then [n]
    else if n < 0x800 then [0xC0 + m, 0x80 + n % 0x40]
    else if n < 0x1_0000 then [0xE0 + m / 0x40, 0x80 + m % 0x40, 0x80 + n % 0x40]
    else [0xF0 + m / 0x40 / 0x40, 0x80 + m / 0x40 % 0x40, 0x80 + m % 0x40, 0x80 + n % 0x40]
  }

  /** The character that a leading byte and its continuation bytes stand for. */
  function CodePoint(bytes: seq<int>): int
    requires 1 <= |bytes| <= 4
  {
    match |bytes|
    case 1 => bytes[0]
    case 2 => (bytes[0] - 0xC0) * 0x40 + (bytes[1] - 0x80)
    case 3 => ((bytes[0] - 0xE0) * 0x40 + (bytes[1] - 0x80)) * 0x40 + (bytes[2] - 0x80)
    case _ => (((bytes[0] - 0xF0) * 0x40 + (bytes[1] - 0x80)) * 0x40 + (bytes[2] - 0x80)) * 0x40 + (bytes[3] - 0x80)
  }

  /** A character counts as many bytes as UTF-8 gives it, and they read back as the character. */
  lemma WidthIsUtf8(c: char)
    ensures |Utf8(c)| == Utf8Width(c) && CodePoint(Utf8(c)) == c as int
  {
    var n := c as int;
    var m := n / 0x40;
    assert n == m * 0x40 + n % 0x40 && m == m / 0x40 * 0x40 + m % 0x40;
    assert m / 0x40 == m / 0x40 / 0x40 * 0x40 + m / 0x40 % 0x40;
  }

  /** The width of a character between the quotes of a JSON string. */
  function EscapedWidth(c: char): nat {
    if c in "\"\\" || c as int in {8, 9, 10, 12, 13} then 2
    else if c as int < 0x20 then 6
    else Utf8Width(c)
  }

  function EscapedBytes(s: string): nat {
    if s == "" then 0 else EscapedBytes(s[..|s| - 1]) + EscapedWidth(s[|s| - 1])
  }

  function Quoted(s: string): nat {
    2 + EscapedBytes(s)
  }

  function Commas(n: nat): nat {
    if n == 0 then 0 else n - 1
  }

  function CostOf(v: Json): Cost
    decreases v, 1
  {
    match v
    case Null => Cost(1, 0, 4, 0)
    case Bool(b) => Cost(1, 0, if b then 4 else 5, 0)
    case Number(text) => Cost(1, 0, Utf8Bytes(text), 0)
    case Text(s) => Cost(1, Utf8Bytes(s), Quoted(s), 0)
    case Array(items) => Wrapped(ElementsCost(items, 0, |items|), |items|)
    case Object(members) => Wrapped(MembersCost(members, |members|), |members|)
  }

  /** A container around children: one node, two brackets, the commas, one level. */
  function Wrapped(children: Cost, count: nat): Cost {
    Cost(1 + children.items, children.strings, 2 + children.bytes + Commas(count),
         if count == 0 then 0 else 1 + children.depth)
  }

  /** The cost of the elements at positions `from` to `to`. */
  function ElementsCost(items: seq<Json>, from: nat, to: nat): Cost
    requires from <= to <= |items|
    decreases items, 0, to
  {
    if from == to then FREE
    else ElementsCost(items, from, to - 1).Plus(CostOf(items[to - 1]))
  }

  /** The cost of the first `count` members, keys and colons included. */
  function MembersCost(members: seq<Member>, count: nat): Cost
    requires count <= |members|
    decreases members, 0, count
  {
    if count == 0 then FREE
    else
      var m := members[count - 1];
      MembersCost(members, count - 1).Plus(KeyCost(m.key)).Plus(CostOf(m.value))
  }

  function KeyCost(key: string): Cost {
    Cost(0, Utf8Bytes(key), Quoted(key) + 1, 0)
  }

  predicate Encodable(v: Json) {
    && CostOf(v).items <= MAX_JSON_ITEMS
    && CostOf(v).strings <= MAX_JSON_STRING_BYTES
    && CostOf(v).depth <= MAX_JSON_DEPTH
  }

  // ----- additivity -----

  lemma {:induction false} ElementsSplit(items: seq<Json>, from: nat, mid: nat, to: nat)
    requires from <= mid <= to <= |items|
    ensures ElementsCost(items, from, to) == ElementsCost(items, from, mid).Plus(ElementsCost(items, mid, to))
  {
    if mid < to {
      ElementsSplit(items, from, mid, to - 1);
    }
  }

  lemma PlusMonotone(a: Cost, b: Cost, a': Cost, b': Cost)
    requires a.AtMost(a') && b.AtMost(b')
    ensures a.Plus(b).AtMost(a'.Plus(b'))
  {
  }

  /** A contiguous part of a list never costs more than a larger part. */
  lemma PartCostsLess(items: seq<Json>, from: nat, to: nat, from': nat, to': nat)
    requires from' <= from <= to <= to' <= |items|
    ensures ElementsCost(items, from, to).AtMost(ElementsCost(items, from', to'))
  {
    ElementsSplit(items, from', from, to');
    ElementsSplit(items, from, to, to');
  }

  /** Positions of a slice cost what the same positions cost in the whole list. */
  lemma {:induction false} SliceCost(items: seq<Json>, start: nat, slice: seq<Json>, to: nat)
    requires start + |slice| <= |items| && slice == items[start..start + |slice|]
    requires to <= |slice|
    ensures ElementsCost(slice, 0, to) == ElementsCost(items, start, start + to)
  {
    if to > 0 {
      SliceCost(items, start, slice, to - 1);
    }
  }

  lemma {:induction false} PrefixMembers(members: seq<Member>, count: nat, more: nat)
    requires count <= more <= |members|
    ensures MembersCost(members, count).AtMost(MembersCost(members, more))
  {
    if count < more {
      PrefixMembers(members, count, more - 1);
    }
  }

  // ----- nodes, strings and depth -----

  /** A node of a tree, how deep it stands, and the strings written at it. */
  datatype Node = Node(depth: nat, strings: nat)

  /** Every node of a tree whose root stands at a depth; a member's key is written at its value. */
  function Nodes(v: Json, depth: nat, key: nat): seq<Node>
    decreases v, 1
  {
    match v
    case Text(s) => [Node(depth, key + Utf8Bytes(s))]
    case Array(items) => [Node(depth, key)] + ItemNodes(items, |items|, depth + 1)
    case Object(members) => [Node(depth, key)] + MemberNodes(members, |members|, depth + 1)
    case _ => [Node(depth, key)]
  }

  function ItemNodes(items: seq<Json>, count: nat, depth: nat): seq<Node>
    requires count <= |items|
    decreases items, 0, count
  {
    if count == 0 then [] else ItemNodes(items, count - 1, depth) + Nodes(items[count - 1], depth, 0)
  }

  function MemberNodes(members: seq<Member>, count: nat, depth: nat): seq<Node>
    requires count <= |members|
    decreases members, 0, count
  {
    if count == 0 then []
    else MemberNodes(members, count - 1, depth) + Nodes(members[count - 1].value, depth, Utf8Bytes(members[count - 1].key))
  }

  function StringsOf(nodes: seq<Node>): nat {
    if |nodes| == 0 then 0 else StringsOf(nodes[..|nodes| - 1]) + nodes[|nodes| - 1].strings
  }

  lemma {:induction false} StringsConcat(a: seq<Node>, b: seq<Node>)
    ensures StringsOf(a + b) == StringsOf(a) + StringsOf(b)
    decreases |b|
  {
    if |b| == 0 {
      assert a + b == a;
    } else {
      assert (a + b)[..|a + b| - 1] == a + b[..|b| - 1];
      StringsConcat(a, b[..|b| - 1]);
    }
  }

  /** All nodes stand at depth `deepest` at most, and one of them does. */
  ghost predicate DeepestIs(nodes: seq<Node>, deepest: nat) {
    (forall n <- nodes :: n.depth <= deepest) && exists n <- nodes :: n.depth == deepest
  }

  /** What the nodes of a walk must amount to. */
  ghost predicate Amounts(nodes: seq<Node>, items: nat, strings: nat) {
    |nodes| == items && StringsOf(nodes) == strings
  }

  lemma AmountsConcat(a: seq<Node>, b: seq<Node>, i: nat, s: nat, j: nat, u: nat)
    requires Amounts(a, i, s) && Amounts(b, j, u)
    ensures Amounts(a + b, i + j, s + u)
  {
    StringsConcat(a, b);
  }

  lemma OneAmount(n: Node)
    ensures Amounts([n], 1, n.strings) && DeepestIs([n], n.depth)
  {
    assert [n][..0] == [];
    assert n in [n];
  }

  lemma DeepestConcat(a: seq<Node>, b: seq<Node>, d: nat, e: nat)
    requires (|a| == 0 || DeepestIs(a, d)) && DeepestIs(b, e)
    ensures DeepestIs(a + b, if |a| == 0 || d <= e then e else d)
  {
    assert forall n <- b :: n in a + b;
    assert forall n <- a :: n in a + b;
  }

  /** A container is its own node and those of its children. */
  lemma ContainerNodes(root: Node, rest: seq<Node>, c: Cost, count: nat)
    requires Amounts(rest, c.items, c.strings) && (count == 0 ==> rest == [])
    requires count > 0 ==> DeepestIs(rest, root.depth + 1 + c.depth)
    ensures Amounts([root] + rest, Wrapped(c, count).items, Wrapped(c, count).strings + root.strings)
    ensures DeepestIs([root] + rest, root.depth + Wrapped(c, count).depth)
  {
    hide Amounts, DeepestIs;
    OneAmount(root);
    AmountsConcat([root], rest, 1, root.strings, c.items, c.strings);
    if count == 0 {
      assert [root] + rest == [root];
    } else {
      DeepestConcat([root], rest, root.depth, root.depth + 1 + c.depth);
    }
  }

  /** The cost of a tree is the number of its nodes, the bytes of its strings and keys, and the depth of its deepest node. */
  lemma {:induction false} CostIsOfNodes(v: Json, depth: nat, key: nat)
    ensures Amounts(Nodes(v, depth, key), CostOf(v).items, CostOf(v).strings + key)
    ensures DeepestIs(Nodes(v, depth, key), depth + CostOf(v).depth)
    decreases v, 1
  {
    hide Utf8Bytes, Quoted, Amounts, DeepestIs;
    match v {
      case Array(items) =>
        ItemsAreNodes(items, |items|, depth + 1);
        ContainerNodes(Node(depth, key), ItemNodes(items, |items|, depth + 1), ElementsCost(items, 0, |items|), |items|);
      case Object(members) =>
        MembersAreNodes(members, |members|, depth + 1);
        ContainerNodes(Node(depth, key), MemberNodes(members, |members|, depth + 1), MembersCost(members, |members|), |members|);
      case Text(s) => OneAmount(Node(depth, key + Utf8Bytes(s)));
      case _ => OneAmount(Node(depth, key));
    }
  }

  lemma NoNodes()
    ensures Amounts([], 0, 0)
  {
  }

  lemma {:induction false} ItemsAreNodes(items: seq<Json>, count: nat, depth: nat)
    requires count <= |items|
    ensures Amounts(ItemNodes(items, count, depth), ElementsCost(items, 0, count).items, ElementsCost(items, 0, count).strings)
    ensures count > 0 ==> DeepestIs(ItemNodes(items, count, depth), depth + ElementsCost(items, 0, count).depth)
    ensures |ItemNodes(items, count, depth)| >= count
    decreases items, 0, count
  {
    hide Nodes, CostOf, Amounts, DeepestIs;
    NoNodes();
    if count > 0 {
      ItemsAreNodes(items, count - 1, depth);
      CostIsOfNodes(items[count - 1], depth, 0);
      var front, last := ItemNodes(items, count - 1, depth), Nodes(items[count - 1], depth, 0);
      var c, d := ElementsCost(items, 0, count - 1), CostOf(items[count - 1]);
      AmountsConcat(front, last, c.items, c.strings, d.items, d.strings);
      if count == 1 {
        assert front == [];
      }
      DeepestConcat(front, last, depth + c.depth, depth + d.depth);
      SomeNode(last, depth + d.depth);
    }
  }

  lemma SomeNode(nodes: seq<Node>, deepest: nat)
    requires DeepestIs(nodes, deepest)
    ensures |nodes| > 0
  {
  }

  lemma {:induction false} MembersAreNodes(members: seq<Member>, count: nat, depth: nat)
    requires count <= |members|
    ensures Amounts(MemberNodes(members, count, depth), MembersCost(members, count).items, MembersCost(members, count).strings)
    ensures count > 0 ==> DeepestIs(MemberNodes(members, count, depth), depth + MembersCost(members, count).depth)
    ensures |MemberNodes(members, count, depth)| >= count
    decreases members, 0, count
  {
    hide Nodes, CostOf, Amounts, DeepestIs, Utf8Bytes, Quoted;
    NoNodes();
    if count > 0 {
      var m := members[count - 1];
      MembersAreNodes(members, count - 1, depth);
      CostIsOfNodes(m.value, depth, Utf8Bytes(m.key));
      var front, last := MemberNodes(members, count - 1, depth), Nodes(m.value, depth, Utf8Bytes(m.key));
      var c, d := MembersCost(members, count - 1), CostOf(m.value);
      AmountsConcat(front, last, c.items, c.strings, d.items, d.strings + Utf8Bytes(m.key));
      if count == 1 {
        assert front == [];
      }
      DeepestConcat(front, last, depth + c.depth, depth + d.depth);
      SomeNode(last, depth + d.depth);
    }
  }

  /** A tree can be encoded exactly when it has at most 10000 nodes, a mebibyte of strings, and none deeper than 32. */
  lemma EncodableIff(v: Json)
    ensures var nodes := Nodes(v, 0, 0);
            Encodable(v) <==> |nodes| <= 10_000 && StringsOf(nodes) <= 1024 * 1024 && forall n <- nodes :: n.depth <= 32
  {
    hide Nodes, CostOf;
    CostIsOfNodes(v, 0, 0);
  }

  // ----- the canonical text -----

  function HexDigit(n: nat): char
    requires n < 16
  {
    "0123456789abcdef"[n]
  }

  /** A character between quotes, as `JSON.stringify` writes it. */
  function Escaped(c: char): string {
    match c as int
    case 0x22 => "\\\""
    case 0x5c => "\\\\"
    case 8 => "\\b"
    case 9 => "\\t"
    case 10 => "\\n"
    case 12 => "\\f"
    case 13 => "\\r"
    case n => if n < 0x20 then "\\u00" + [HexDigit(n / 16), HexDigit(n % 16)] else [c]
  }

  function EscapedText(s: string): string {
    if s == "" then "" else EscapedText(s[..|s| - 1]) + Escaped(s[|s| - 1])
  }

  function Literal(s: string): string {
    "\"" + EscapedText(s) + "\""
  }

  /** The text of a tree: no spaces, members in order. */
  function Render(v: Json): string
    decreases v, 1
  {
    match v
    case Null => "null"
    case Bool(b) => if b then "true" else "false"
    case Number(text) => text
    case Text(s) => Literal(s)
    case Array(items) => "[" + RenderItems(items, |items|) + "]"
    case Object(members) => "{" + RenderMembers(members, |members|) + "}"
  }

  function RenderItems(items: seq<Json>, count: nat): string
    requires count <= |items|
    decreases items, 0, count
  {
    if count == 0 then ""
    else RenderItems(items, count - 1) + (if count > 1 then "," else "") + Render(items[count - 1])
  }

  function RenderMembers(members: seq<Member>, count: nat): string
    requires count <= |members|
    decreases members, 0, count
  {
    if count == 0 then ""
    else
      var m := members[count - 1];
      RenderMembers(members, count - 1) + (if count > 1 then "," else "") + Literal(m.key) + ":" + Render(m.value)
  }

  lemma {:induction false} Utf8Concat(a: string, b: string)
    ensures Utf8Bytes(a + b) == Utf8Bytes(a) + Utf8Bytes(b)
    decreases |b|
  {
    if b == "" {
      assert a + b == a;
    } else {
      assert (a + b)[..|a + b| - 1] == a + b[..|b| - 1];
      Utf8Concat(a, b[..|b| - 1]);
    }
  }

  /** Characters below 128 take one byte each. */
  lemma {:induction false} AsciiBytes(s: string)
    requires forall c <- s :: c as int < 0x80
    ensures Utf8Bytes(s) == |s|
  {
    if s != "" {
      var front := s[..|s| - 1];
      assert forall i | 0 <= i < |s| :: s[i] in s;
      assert forall i | 0 <= i < |front| :: front[i] == s[i];
      AsciiBytes(front);
    }
  }

  lemma EscapedIs(c: char)
    ensures Utf8Bytes(Escaped(c)) == EscapedWidth(c)
  {
    if Escaped(c) == [c] {
      assert [c][..0] == "";
    } else {
      AsciiBytes(Escaped(c));
    }
  }

  lemma {:induction false} EscapedTextIs(s: string)
    ensures Utf8Bytes(EscapedText(s)) == EscapedBytes(s)
  {
    if s != "" {
      hide Escaped, EscapedWidth;
      EscapedTextIs(s[..|s| - 1]);
      Utf8Concat(EscapedText(s[..|s| - 1]), Escaped(s[|s| - 1]));
      EscapedIs(s[|s| - 1]);
    }
  }

  lemma LiteralIs(s: string)
    ensures Utf8Bytes(Literal(s)) == Quoted(s)
  {
    hide EscapedText, EscapedBytes, Utf8Bytes;
    EscapedTextIs(s);
    AsciiBytes("\"");
    Utf8Concat("\"" + EscapedText(s), "\"");
    Utf8Concat("\"", EscapedText(s));
  }

  predicate Plain(c: char) {
    0x20 <= c as int < 0x80 && c != '"' && c != '\\'
  }

  lemma PlainIs(c: char)
    requires Plain(c)
    ensures Escaped(c) == [c]
  {
  }

  /** Plain text is not escaped. */
  lemma {:induction false} PlainText(s: string)
    requires forall i | 0 <= i < |s| :: Plain(s[i])
    ensures EscapedText(s) == s
  {
    hide Escaped, Plain;
    if s != "" {
      var front, last := s[..|s| - 1], s[|s| - 1];
      assert forall i | 0 <= i < |front| :: front[i] == s[i];
      PlainText(front);
      PlainIs(last);
      assert s == front + [last];
    }
  }

  function Joined(parts: seq<string>): string {
    if |parts| == 0 then ""
    else Joined(parts[..|parts| - 1]) + (if |parts| > 1 then "," else "") + parts[|parts| - 1]
  }

  lemma {:induction false} MembersJoined(members: seq<Member>, parts: seq<string>, count: nat)
    requires |parts| == |members| && count <= |members|
    requires forall i | 0 <= i < |members| :: parts[i] == Literal(members[i].key) + ":" + Render(members[i].value)
    ensures RenderMembers(members, count) == Joined(parts[..count])
  {
    if count > 0 {
      hide Literal, Render;
      MembersJoined(members, parts, count - 1);
      assert parts[..count][..count - 1] == parts[..count - 1];
      var front, m := RenderMembers(members, count - 1) + (if count > 1 then "," else ""), members[count - 1];
      assert front + Literal(m.key) + ":" + Render(m.value) == front + (Literal(m.key) + ":" + Render(m.value));
    }
  }

  /** The bytes a tree costs are exactly the UTF-8 bytes of its canonical text. */
  lemma {:induction false} BytesAreOfText(v: Json)
    ensures Utf8Bytes(Render(v)) == CostOf(v).bytes
    decreases v, 1
  {
    match v {
      case Null => AsciiBytes("null");
      case Bool(b) => AsciiBytes(if b then "true" else "false");
      case Number(_) =>
      case Text(s) => LiteralIs(s);
      case Array(items) =>
        hide Utf8Bytes;
        ItemsText(items, |items|);
        Around("[", RenderItems(items, |items|), "]");
      case Object(members) =>
        hide Utf8Bytes;
        MembersText(members, |members|);
        Around("{", RenderMembers(members, |members|), "}");
    }
  }

  lemma Around(open: string, text: string, close: string)
    requires |open| == 1 && |close| == 1 && open[0] as int < 0x80 && close[0] as int < 0x80
    ensures Utf8Bytes(open + text + close) == Utf8Bytes(text) + 2
  {
    hide Utf8Bytes;
    AsciiBytes(open);
    AsciiBytes(close);
    Utf8Concat(open + text, close);
    Utf8Concat(open, text);
  }

  lemma Comma(count: nat)
    ensures Utf8Bytes(if count > 1 then "," else "") == if count > 1 then 1 else 0
  {
    AsciiBytes(if count > 1 then "," else "");
  }

  lemma {:induction false} ItemsText(items: seq<Json>, count: nat)
    requires count <= |items|
    ensures Utf8Bytes(RenderItems(items, count)) == ElementsCost(items, 0, count).bytes + Commas(count)
    decreases items, 0, count
  {
    hide Utf8Bytes, Render, CostOf;
    if count == 0 {
      AsciiBytes("");
    } else {
      ItemsText(items, count - 1);
      BytesAreOfText(items[count - 1]);
      var comma := if count > 1 then "," else "";
      Comma(count);
      Utf8Concat(RenderItems(items, count - 1) + comma, Render(items[count - 1]));
      Utf8Concat(RenderItems(items, count - 1), comma);
    }
  }

  lemma {:induction false} MembersText(members: seq<Member>, count: nat)
    requires count <= |members|
    ensures Utf8Bytes(RenderMembers(members, count)) == MembersCost(members, count).bytes + Commas(count)
    decreases members, 0, count
  {
    hide Utf8Bytes, Render, CostOf, Literal, Quoted;
    if count == 0 {
      AsciiBytes("");
    } else {
      var m := members[count - 1];
      MembersText(members, count - 1);
      BytesAreOfText(m.value);
      LiteralIs(m.key);
      var comma := if count > 1 then "," else "";
      Comma(count);
      AsciiBytes(":");
      var front := RenderMembers(members, count - 1);
      Utf8Concat(front + comma + Literal(m.key) + ":", Render(m.value));
      Utf8Concat(front + comma + Literal(m.key), ":");
      Utf8Concat(front + comma, Literal(m.key));
      Utf8Concat(front, comma);
    }
  }

  // ----- the canonicalizer's shared budget -----

  class Budget {
    var items: nat
    var stringBytes: nat

    constructor ()
      ensures items == 0 && stringBytes == 0
    {
      items, stringBytes := 0, 0;
    }

    ghost predicate Open()
      reads this
    {
      items <= MAX_JSON_ITEMS && stringBytes <= MAX_JSON_STRING_BYTES
    }
  }

  /** The spending of a walk over something that costs `c`, started at `depth`, stays within every limit. */
  ghost predicate Affordable(items: nat, stringBytes: nat, depth: nat, c: Cost) {
    && items + c.items <= MAX_JSON_ITEMS
    && stringBytes + c.strings <= MAX_JSON_STRING_BYTES
    && depth + c.depth <= MAX_JSON_DEPTH
  }

  method AddString(value: string, budget: Budget) returns (ok: bool)
    modifies budget
    ensures budget.items == old(budget.items)
    ensures budget.stringBytes == old(budget.stringBytes) + Utf8Bytes(value)
    ensures ok <==> budget.stringBytes <= MAX_JSON_STRING_BYTES
  {
    budget.stringBytes := budget.stringBytes + Utf8Bytes(value);
    ok := budget.stringBytes <= MAX_JSON_STRING_BYTES;
  }

  /** Spends node by node and gives up at the first excess; the outcome depends only on the totals. */
  method Canonicalize(value: Json, depth: nat, budget: Budget) returns (ok: bool)
    requires budget.Open()
    modifies budget
    ensures ok <==> Affordable(old(budget.items), old(budget.stringBytes), depth, CostOf(value))
    ensures ok ==> budget.items == old(budget.items) + CostOf(value).items
    ensures ok ==> budget.stringBytes == old(budget.stringBytes) + CostOf(value).strings
    decreases value, 1
  {
    budget.items := budget.items + 1;
    if budget.items > MAX_JSON_ITEMS || depth > MAX_JSON_DEPTH {
      return false;
    }
    match value
    case Null => return true;
    case Bool(_) => return true;
    case Number(_) => return true;
    case Text(s) =>
      ok := AddString(s, budget);
    case Array(items) =>
      ok := CanonicalizeItems(items, depth, budget);
    case Object(members) =>
      ok := CanonicalizeMembers(members, depth, budget);
  }

  method CanonicalizeItems(items: seq<Json>, depth: nat, budget: Budget) returns (ok: bool)
    requires budget.Open() && depth <= MAX_JSON_DEPTH
    modifies budget
    ensures ok <==> && Affordable(old(budget.items), old(budget.stringBytes), 0, ElementsCost(items, 0, |items|))
                    && (|items| > 0 ==> depth + 1 + ElementsCost(items, 0, |items|).depth <= MAX_JSON_DEPTH)
    ensures ok ==> budget.items == old(budget.items) + ElementsCost(items, 0, |items|).items
    ensures ok ==> budget.stringBytes == old(budget.stringBytes) + ElementsCost(items, 0, |items|).strings
    decreases items, 0
  {
    for i := 0 to |items|
      invariant Affordable(old(budget.items), old(budget.stringBytes), 0, ElementsCost(items, 0, i))
      invariant i > 0 ==> depth + 1 + ElementsCost(items, 0, i).depth <= MAX_JSON_DEPTH
      invariant budget.items == old(budget.items) + ElementsCost(items, 0, i).items
      invariant budget.stringBytes == old(budget.stringBytes) + ElementsCost(items, 0, i).strings
    {
      PartCostsLess(items, 0, i + 1, 0, |items|);
      ok := Canonicalize(items[i], depth + 1, budget);
      if !ok {
        return false;
      }
    }
    return true;
  }

  method CanonicalizeMembers(members: seq<Member>, depth: nat, budget: Budget) returns (ok: bool)
    requires budget.Open() && depth <= MAX_JSON_DEPTH
    modifies budget
    ensures ok <==> && Affordable(old(budget.items), old(budget.stringBytes), 0, MembersCost(members, |members|))
                    && (|members| > 0 ==> depth + 1 + MembersCost(members, |members|).depth <= MAX_JSON_DEPTH)
    ensures ok ==> budget.items == old(budget.items) + MembersCost(members, |members|).items
    ensures ok ==> budget.stringBytes == old(budget.stringBytes) + MembersCost(members, |members|).strings
    decreases members, 0
  {
    hide CostOf;
    for i := 0 to |members|
      invariant Affordable(old(budget.items), old(budget.stringBytes), 0, MembersCost(members, i))
      invariant i > 0 ==> depth + 1 + MembersCost(members, i).depth <= MAX_JSON_DEPTH
      invariant budget.items == old(budget.items) + MembersCost(members, i).items
      invariant budget.stringBytes == old(budget.stringBytes) + MembersCost(members, i).strings
    {
      PrefixMembers(members, i + 1, |members|);
      ok := AddString(members[i].key, budget);
      if !ok {
        return false;
      }
      ok := Canonicalize(members[i].value, depth + 1, budget);
      if !ok {
        return false;
      }
    }
    return true;
  }

  /** `encodeCanonicalJson`: the byte length, or the refusal of a tree that breaks a budget. */
  method EncodeCanonicalJson(value: Json) returns (size: Option<nat>)
    ensures size == EncodedBytes(value)
  {
    var budget := new Budget();
    var ok := Canonicalize(value, 0, budget);
    size := if ok then Some(CostOf(value).bytes) else None;
  }

  function EncodedBytes(value: Json): Option<nat> {
    if Encodable(value) then Some(CostOf(value).bytes) else None
  }
}
