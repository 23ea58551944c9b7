/** What the template prints is read back without loss. */
module MetadataRoundTrip {
  import opened Options
  import opened Metadata

  // Characters that break a line, separate a key, quote, start a YAML construct or are escaped in HTML.
  const SPECIAL := "\n\r\t \"'&<>+#,[]{}*!|%@`?"

  // Strings that stand for themselves, both in a block scalar and in HTML text.
  predicate Plain(s: string) {
    s != "" && s[0] != '-' && s[|s| - 1] != ':' && forall i :: 0 <= i < |s| ==> s[i] !in SPECIAL
  }

  ghost predicate PlainOption(s: Option<string>) {
    s.Some? ==> Plain(s.value)
  }

  ghost predicate PlainAll(items: seq<string>) {
    forall i :: 0 <= i < |items| ==> Plain(items[i])
  }

  ghost predicate PlainEthernet(e: Ethernet) {
    && Plain(e.name) && PlainOption(e.gateway4) && PlainOption(e.gateway6)
    && PlainAll(e.addresses) && PlainAll(e.nameservers)
    && forall i :: 0 <= i < |e.routes| ==> Plain(e.routes[i].to) && PlainOption(e.routes[i].via)
  }

  ghost predicate PlainDocument(md: Document) {
    && Plain(md.instanceId) && Plain(md.hostname) && PlainOption(md.nodeIP)
    && forall i :: 0 <= i < |md.ethernets| ==> PlainEthernet(md.ethernets[i])
  }

  /******* Text and lines *******/

  function Pad(n: nat): string {
    seq(n, _ => ' ')
  }

  function LineText(line: Line): string {
    "\n" + Pad(line.indent) + line.text
  }

  function TextOf(lines: seq<Line>): string {
    if lines == [] then "" else LineText(lines[0]) + TextOf(lines[1..])
  }

  lemma {:induction false} TextOfBoth(a: seq<Line>, b: seq<Line>)
    ensures TextOf(a + b) == TextOf(a) + TextOf(b)
  {
    if a == [] {
      assert a + b == b;
    } else {
      assert (a + b)[1..] == a[1..] + b;
      TextOfBoth(a[1..], b);
    }
  }

  predicate OneLine(line: Line) {
    line.text != "" && line.text[0] != ' ' && '\n' !in line.text
  }

  lemma {:induction false} SpacesOfPad(n: nat, text: string)
    requires text == "" || text[0] != ' '
    ensures Spaces(Pad(n) + text) == n
  {
    if n > 0 {
      assert (Pad(n) + text)[1..] == Pad(n - 1) + text;
      SpacesOfPad(n - 1, text);
    } else {
      assert Pad(0) + text == text;
    }
  }

  lemma {:induction false} LineLengthOf(line: string, rest: string)
    requires '\n' !in line && (rest == "" || rest[0] == '\n')
    ensures LineLength(line + rest) == |line|
  {
    if line == "" {
      assert line + rest == rest;
    } else {
      assert (line + rest)[1..] == line[1..] + rest;
      LineLengthOf(line[1..], rest);
    }
  }

  lemma {:induction false} ReadLine(line: Line, rest: string)
    requires OneLine(line) && (rest == "" || rest[0] == '\n') && ReadLines(rest).Some?
    ensures ReadLines(LineText(line) + rest) == Some([line] + ReadLines(rest).value)
  {
    var shown, text := Pad(line.indent) + line.text, LineText(line) + rest;
    assert text[0] == '\n' && text[1..] == shown + rest;
    LineLengthOf(shown, rest);
    assert (shown + rest)[..|shown|] == shown && (shown + rest)[|shown|..] == rest;
    SpacesOfPad(line.indent, line.text);
    assert shown[line.indent..] == line.text;
  }

  lemma {:induction false} ReadLinesOf(lines: seq<Line>)
    requires forall i :: 0 <= i < |lines| ==> OneLine(lines[i])
    ensures ReadLines(TextOf(lines)) == Some(lines)
  {
    if lines != [] {
      ReadLinesOf(lines[1..]);
      ReadLine(lines[0], TextOf(lines[1..]));
      assert [lines[0]] + lines[1..] == lines;
    }
  }

  /******* Keys *******/

  lemma {:induction false} KeyAt(s: string, k: nat)
    requires k < |s| && s[k] == ':' && (k + 1 < |s| ==> s[k + 1] == ' ')
    requires forall j :: 0 <= j < k ==> !(s[j] == ':' && s[j + 1] == ' ')
    ensures KeyLength(s) == Some(k)
  {
    if k > 0 {
      forall j | 0 <= j < k - 1
        ensures !(s[1..][j] == ':' && s[1..][j + 1] == ' ')
      {
        assert s[1..][j] == s[j + 1] && s[1..][j + 1] == s[j + 2];
      }
      KeyAt(s[1..], k - 1);
    }
  }

  lemma {:induction false} NoKey(s: string)
    requires ' ' !in s && (s != "" ==> s[|s| - 1] != ':')
    ensures KeyLength(s) == None
  {
    if s != "" {
      NoKey(s[1..]);
    }
  }

  // A mapping key as it is printed: no space, no colon at its end.
  predicate IsKey(key: string) {
    key != "" && ' ' !in key && '\n' !in key && key[|key| - 1] != ':'
  }

  lemma {:induction false} KeyOf(key: string, value: string)
    requires IsKey(key)
    ensures KeyLength(key + ":") == Some(|key|) && KeyLength(key + ": " + value) == Some(|key|)
    ensures (key + ":")[..|key|] == key && (key + ": " + value)[..|key|] == key
    ensures Value(key + ":", |key|) == "" && Value(key + ": " + value, |key|) == value
  {
    KeyAt(key + ":", |key|);
    KeyAt(key + ": " + value, |key|);
  }

  /******* Mappings, part by part *******/

  datatype Part = Absent(key: string) | Pair(key: string, text: string) | Block(key: string, children: seq<Line>, node: Node)

  function PartLines(p: Part, n: nat): seq<Line> {
    match p
    case Absent(_) => []
    case Pair(key, text) => [Line(n, key + ": " + text)]
    case Block(key, children, _) => [Line(n, key + ":")] + children
  }

  function PartNode(p: Part): Option<Node> {
    match p
    case Absent(_) => None
    case Pair(_, text) => Some(Scalar(Unquoted(text)))
    case Block(_, _, node) => Some(node)
  }

  function PartEntries(p: Part): seq<Entry> {
    if PartNode(p).Some? then [Entry(p.key, PartNode(p).value)] else []
  }

  function AllLines(parts: seq<Part>, n: nat): seq<Line> {
    if parts == [] then [] else PartLines(parts[0], n) + AllLines(parts[1..], n)
  }

  function AllEntries(parts: seq<Part>): seq<Entry> {
    if parts == [] then [] else PartEntries(parts[0]) + AllEntries(parts[1..])
  }

  ghost predicate Readable(p: Part, n: nat) {
    && IsKey(p.key)
    && (p.Pair? ==> p.text != "" && '\n' !in p.text)
    && (p.Block? ==>
          && ReadBlock(p.children) == Some(p.node)
          && forall i :: 0 <= i < |p.children| ==> p.children[i].indent > n && OneLine(p.children[i]))
  }

  lemma {:induction false} DeeperOf(children: seq<Line>, rest: seq<Line>, n: nat)
    requires forall i :: 0 <= i < |children| ==> children[i].indent > n
    requires rest == [] || rest[0].indent == n
    ensures Deeper(children + rest, n) == |children|
  {
    if children == [] {
      assert children + rest == rest;
    } else {
      assert (children + rest)[1..] == children[1..] + rest;
      DeeperOf(children[1..], rest, n);
    }
  }

  ghost predicate Within(lines: seq<Line>, n: nat) {
    forall i :: 0 <= i < |lines| ==> lines[i].indent >= n && OneLine(lines[i])
  }

  lemma {:induction false} LinesOfPart(p: Part, n: nat)
    requires Readable(p, n)
    ensures Within(PartLines(p, n), n)
    ensures PartLines(p, n) != [] ==> PartLines(p, n)[0].indent == n && !IsItem(PartLines(p, n)[0].text)
    ensures PartLines(p, n) == [] <==> PartNode(p).None?
  {
    match p
    case Absent(_) =>
    case Pair(key, text) => KeyOf(key, text);
    case Block(key, children, _) => LinesOfBlock(key, children, n);
  }

  lemma {:induction false} LinesOfBlock(key: string, children: seq<Line>, n: nat)
    requires IsKey(key) && forall i :: 0 <= i < |children| ==> children[i].indent > n && OneLine(children[i])
    ensures Within([Line(n, key + ":")] + children, n) && !IsItem(key + ":")
  {
    KeyOf(key, "");
    var lines := [Line(n, key + ":")] + children;
    assert forall i :: 0 < i < |lines| ==> lines[i] == children[i - 1];
  }

  lemma {:induction false} LinesOfParts(parts: seq<Part>, n: nat)
    requires forall i :: 0 <= i < |parts| ==> Readable(parts[i], n)
    ensures Within(AllLines(parts, n), n)
    ensures AllLines(parts, n) != [] ==> AllLines(parts, n)[0].indent == n && !IsItem(AllLines(parts, n)[0].text)
    ensures AllLines(parts, n) == [] <==> AllEntries(parts) == []
  {
    if parts != [] {
      LinesOfParts(parts[1..], n);
      LinesOfPart(parts[0], n);
    }
  }

  lemma {:induction false} ReadParts(parts: seq<Part>, n: nat)
    requires forall i :: 0 <= i < |parts| ==> Readable(parts[i], n)
    ensures ReadEntries(AllLines(parts, n), n) == Some(AllEntries(parts))
  {
    if parts != [] {
      ReadParts(parts[1..], n);
      LinesOfParts(parts[1..], n);
      ReadOnePart(parts[0], AllLines(parts[1..], n), n);
    }
  }

  lemma {:induction false} ReadOnePart(p: Part, rest: seq<Line>, n: nat)
    requires Readable(p, n) && ReadEntries(rest, n).Some? && (rest == [] || rest[0].indent == n)
    ensures ReadEntries(PartLines(p, n) + rest, n) == Some(PartEntries(p) + ReadEntries(rest, n).value)
  {
    match p
    case Absent(_) =>
      var entries := ReadEntries(rest, n).value;
      assert PartLines(p, n) + rest == rest && PartEntries(p) + entries == entries;
    case Pair(key, text) =>
      ReadPart(key, text, Line(n, key + ": " + text), [], Scalar(Unquoted(text)), rest);
    case Block(key, children, node) =>
      ReadPart(key, "", Line(n, key + ":"), children, node, rest);
  }

  lemma {:induction false} ReadPart(key: string, text: string, head: Line, children: seq<Line>, node: Node, rest: seq<Line>)
    requires IsKey(key) && head.text == (if text == "" then key + ":" else key + ": " + text)
    requires ReadEntries(rest, head.indent).Some?
    requires if text == "" then ReadBlock(children) == Some(node) else children == [] && node == Scalar(Unquoted(text))
    requires forall i :: 0 <= i < |children| ==> children[i].indent > head.indent
    requires rest == [] || rest[0].indent == head.indent
    ensures ReadEntries([head] + children + rest, head.indent)
         == Some([Entry(key, node)] + ReadEntries(rest, head.indent).value)
    ensures children == [] ==> [head] + children == [head]
  {
    KeyOf(key, text);
    DeeperOf(children, rest, head.indent);
    var lines := [head] + children + rest;
    assert lines[1..] == children + rest;
    assert (children + rest)[..|children|] == children && (children + rest)[|children|..] == rest;
  }

  lemma {:induction false} FindPart(parts: seq<Part>, i: nat)
    requires i < |parts| && forall j, k :: 0 <= j < k < |parts| ==> parts[j].key != parts[k].key
    ensures Find(AllEntries(parts), parts[i].key) == PartNode(parts[i])
  {
    if i > 0 {
      FindPart(parts[1..], i - 1);
    } else {
      FindNothing(parts[1..], parts[0].key);
    }
    var rest := AllEntries(parts[1..]);
    if PartNode(parts[0]).Some? {
      assert ([Entry(parts[0].key, PartNode(parts[0]).value)] + rest)[1..] == rest;
    } else {
      assert [] + rest == rest;
    }
  }

  lemma {:induction false} FindNothing(parts: seq<Part>, key: string)
    requires forall j :: 0 <= j < |parts| ==> parts[j].key != key
    ensures Find(AllEntries(parts), key) == None
  {
    if parts != [] {
      FindNothing(parts[1..], key);
      var rest := AllEntries(parts[1..]);
      if PartNode(parts[0]).Some? {
        assert ([Entry(parts[0].key, PartNode(parts[0]).value)] + rest)[1..] == rest;
      } else {
        assert [] + rest == rest;
      }
    }
  }

  /******* Sequences *******/

  function ItemLines(items: seq<string>, n: nat): seq<Line> {
    if items == [] then [] else [Line(n, "- " + items[0])] + ItemLines(items[1..], n)
  }

  function Scalars(items: seq<string>): seq<Node> {
    if items == [] then [] else [Scalar(items[0])] + Scalars(items[1..])
  }

  lemma {:induction false} PlainScalar(s: string)
    requires Plain(s)
    ensures KeyLength(s) == None && Unquoted(s) == s && ' ' !in s && '\n' !in s && IsKey(s)
  {
    assert s[0] in s;
    NoKey(s);
  }

  // One item of a sequence: a scalar, or a mapping that starts on the item's line.
  lemma {:induction false} ReadItem(content: string, children: seq<Line>, node: Node, rest: seq<Line>, n: nat)
    requires ReadItems(rest, n).Some? && (rest == [] || rest[0].indent == n)
    requires forall i :: 0 <= i < |children| ==> children[i].indent > n
    requires KeyLength(content).None? ==> children == [] && node == Scalar(Unquoted(content))
    requires KeyLength(content).Some? ==>
      node.Mapping? && ReadEntries([Line(n + 2, content)] + children, n + 2) == Some(node.entries)
    ensures ReadItems([Line(n, "- " + content)] + (children + rest), n) == Some([node] + ReadItems(rest, n).value)
  {
    var first, after := Line(n, "- " + content), children + rest;
    assert ([first] + after)[1..] == after;
    DeeperOf(children, rest, n);
    assert after[..|children|] == children && after[|children|..] == rest;
    assert IsItem(first.text) && first.text[2..] == content;
  }

  lemma {:induction false} ReadScalarItems(items: seq<string>, n: nat)
    requires PlainAll(items)
    ensures ReadItems(ItemLines(items, n), n) == Some(Scalars(items))
    ensures items != [] ==> IsItem(ItemLines(items, n)[0].text) && ItemLines(items, n)[0].indent == n
    ensures Texts(Scalars(items)) == items
  {
    if items != [] {
      ReadScalarItems(items[1..], n);
      PlainScalar(items[0]);
      var rest := ItemLines(items[1..], n);
      ReadItem(items[0], [], Scalar(items[0]), rest, n);
      assert [] + rest == rest;
    }
  }

  lemma {:induction false} ItemLinesWithin(items: seq<string>, n: nat)
    requires PlainAll(items)
    ensures Within(ItemLines(items, n), n)
  {
    if items != [] {
      ItemLinesWithin(items[1..], n);
      PlainScalar(items[0]);
    }
  }

  lemma {:induction false} ReadScalarBlock(items: seq<string>, n: nat)
    requires PlainAll(items) && items != []
    ensures ReadBlock(ItemLines(items, n)) == Some(Sequence(Scalars(items))) && Within(ItemLines(items, n), n)
    ensures Texts(Scalars(items)) == items
  {
    ReadScalarItems(items, n);
    ItemLinesWithin(items, n);
  }

  /******* The document as parts *******/

  function Optional(key: string, text: Option<string>): Part {
    if text.Some? then Pair(key, text.value) else Absent(key)
  }

  function BoolOption(b: Option<bool>): Option<string> {
    if b.Some? then Some(BoolText(b.value)) else None
  }

  function QuotedOption(s: Option<string>): Option<string> {
    if s.Some? then Some(Quoted(s.value)) else None
  }

  function List(key: string, items: seq<string>, n: nat): Part {
    if items == [] then Absent(key) else Block(key, ItemLines(items, n), Sequence(Scalars(items)))
  }

  function RouteParts(r: Route): seq<Part> {
    [Pair("to", r.to), Optional("via", r.via)]
  }

  function RouteNode(r: Route): Node {
    Mapping(AllEntries(RouteParts(r)))
  }

  function ViaLines(r: Route): seq<Line> {
    PartLines(Optional("via", r.via), 10)
  }

  function RouteLines(r: Route): seq<Line> {
    [Line(8, "- " + ("to: " + r.to))] + ViaLines(r)
  }

  function AllRouteLines(routes: seq<Route>): seq<Line> {
    if routes == [] then [] else RouteLines(routes[0]) + AllRouteLines(routes[1..])
  }

  function RouteNodes(routes: seq<Route>): seq<Node> {
    if routes == [] then [] else [RouteNode(routes[0])] + RouteNodes(routes[1..])
  }

  function Routes(routes: seq<Route>): Part {
    if routes == [] then Absent("routes") else Block("routes", AllRouteLines(routes), Sequence(RouteNodes(routes)))
  }

  function Nameservers(items: seq<string>): Part {
    var inner := [List("addresses", items, 12)];
    if items == [] then Absent("nameservers") else Block("nameservers", AllLines(inner, 8), Mapping(AllEntries(inner)))
  }

  function BodyParts(e: Ethernet): seq<Part> {
    [Optional("dhcp4", BoolOption(e.dhcp4)), Optional("dhcp6", BoolOption(e.dhcp6)),
     List("addresses", e.addresses, 8), Routes(e.routes), Nameservers(e.nameservers),
     Optional("gateway4", QuotedOption(e.gateway4)), Optional("gateway6", QuotedOption(e.gateway6))]
  }

  function BlockNode(parts: seq<Part>): Node {
    if AllEntries(parts) == [] then Scalar("") else Mapping(AllEntries(parts))
  }

  function EthernetPart(e: Ethernet): Part {
    Block(e.name, AllLines(BodyParts(e), 6), BlockNode(BodyParts(e)))
  }

  function EthernetParts(es: seq<Ethernet>): seq<Part> {
    if es == [] then [] else [EthernetPart(es[0])] + EthernetParts(es[1..])
  }

  function NetworkParts(es: seq<Ethernet>): seq<Part> {
    [Pair("version", "2"), EthernetsPart(es)]
  }

  function EthernetsPart(es: seq<Ethernet>): Part {
    if es == [] then Absent("ethernets")
    else Block("ethernets", AllLines(EthernetParts(es), 4), BlockNode(EthernetParts(es)))
  }

  function DocumentParts(md: Document): seq<Part> {
    [Pair("instance-id", md.instanceId), Pair("local-hostname", md.hostname), Optional("node-ip", md.nodeIP),
     Block("network", AllLines(NetworkParts(md.ethernets), 2), BlockNode(NetworkParts(md.ethernets)))]
  }

  /******* Every part is readable *******/

  lemma {:induction false} ReadBlockOfParts(parts: seq<Part>, n: nat)
    requires forall i :: 0 <= i < |parts| ==> Readable(parts[i], n)
    ensures ReadBlock(AllLines(parts, n)) == Some(BlockNode(parts))
  {
    LinesOfParts(parts, n);
    ReadParts(parts, n);
  }

  lemma {:induction false} BlockOfParts(key: string, parts: seq<Part>, n: nat, m: nat)
    requires IsKey(key) && n < m && forall i :: 0 <= i < |parts| ==> Readable(parts[i], m)
    ensures Readable(Block(key, AllLines(parts, m), BlockNode(parts)), n)
  {
    LinesOfParts(parts, m);
    ReadBlockOfParts(parts, m);
  }

  lemma {:induction false} BoolTextIsPlain(b: bool)
    ensures BoolText(b) != "" && '\n' !in BoolText(b) && Unquoted(BoolText(b)) == BoolText(b)
  {
  }

  lemma {:induction false} QuotedReads(s: string)
    requires Plain(s)
    ensures Quoted(s) != "" && '\n' !in Quoted(s) && Unquoted(Quoted(s)) == s
  {
    PlainScalar(s);
    assert Quoted(s)[1..|Quoted(s)| - 1] == s;
  }

  lemma {:induction false} OptionalReads(key: string, text: Option<string>, n: nat)
    requires IsKey(key) && (text.Some? ==> text.value != "" && '\n' !in text.value)
    ensures Readable(Optional(key, text), n)
    ensures Text(PartNode(Optional(key, text))) == if text.Some? then Some(Unquoted(text.value)) else None
  {
  }

  lemma {:induction false} ListReads(key: string, items: seq<string>, n: nat, m: nat)
    requires IsKey(key) && PlainAll(items) && n < m
    ensures Readable(List(key, items, m), n)
    ensures Texts(Items(PartNode(List(key, items, m)))) == items
  {
    if items != [] {
      ReadScalarBlock(items, m);
    }
  }

  lemma {:induction false} NameserversRead(items: seq<string>)
    requires PlainAll(items)
    ensures Readable(Nameservers(items), 6)
    ensures Texts(Items(Find(Entries(PartNode(Nameservers(items))), "addresses"))) == items
  {
    NameserversReadable(items);
    NameserversFound(items);
  }

  lemma {:induction false} NameserversReadable(items: seq<string>)
    requires PlainAll(items)
    ensures Readable(Nameservers(items), 6)
  {
    ListReads("addresses", items, 8, 12);
    BlockOfParts("nameservers", [List("addresses", items, 12)], 6, 8);
  }

  lemma {:induction false} NameserversFound(items: seq<string>)
    requires PlainAll(items)
    ensures Texts(Items(Find(Entries(PartNode(Nameservers(items))), "addresses"))) == items
  {
    ListReads("addresses", items, 8, 12);
    FindPart([List("addresses", items, 12)], 0);
  }

  lemma {:induction false} RouteParses(r: Route)
    requires Plain(r.to) && PlainOption(r.via)
    ensures ReadEntries(AllLines(RouteParts(r), 10), 10) == Some(AllEntries(RouteParts(r)))
    ensures Within(AllLines(RouteParts(r), 10), 10)
    ensures Text(PartNode(Optional("via", r.via))) == r.via
  {
    PlainScalar(r.to);
    if r.via.Some? { PlainScalar(r.via.value); }
    OptionalReads("via", r.via, 10);
    var parts := RouteParts(r);
    assert forall i :: 0 <= i < |parts| ==> Readable(parts[i], 10);
    ReadParts(parts, 10);
    LinesOfParts(parts, 10);
  }

  lemma {:induction false} RouteDecodes(r: Route)
    requires Plain(r.to) && PlainOption(r.via)
    ensures ToRoute(RouteNode(r)) == r
  {
    var parts := RouteParts(r);
    PlainScalar(r.to);
    RouteParses(r);
    assert parts[0].key == "to" && parts[1].key == "via";
    FindPart(parts, 0);
    FindPart(parts, 1);
  }

  lemma {:induction false} RouteAsLines(r: Route)
    ensures AllLines(RouteParts(r), 10) == [Line(10, "to: " + r.to)] + PartLines(Optional("via", r.via), 10)
  {
    var via := Optional("via", r.via);
    assert RouteParts(r)[1..] == [via] && [via][1..] == [];
    assert AllLines([via], 10) == PartLines(via, 10) + [];
    assert "to" + ": " + r.to == "to: " + r.to;
  }

  lemma {:induction false} RouteEntries(r: Route)
    requires Plain(r.to) && PlainOption(r.via)
    ensures KeyLength("to: " + r.to).Some?
    ensures ReadEntries([Line(10, "to: " + r.to)] + ViaLines(r), 10) == Some(AllEntries(RouteParts(r)))
    ensures forall i :: 0 <= i < |ViaLines(r)| ==> ViaLines(r)[i].indent == 10
  {
    RouteParses(r);
    RouteAsLines(r);
    KeyOf("to", r.to);
    assert "to" + ": " + r.to == "to: " + r.to;
  }

  lemma {:induction false} ReadRoute(r: Route, rest: seq<Line>)
    requires Plain(r.to) && PlainOption(r.via)
    requires ReadItems(rest, 8).Some? && (rest == [] || rest[0].indent == 8)
    ensures ReadItems(RouteLines(r) + rest, 8) == Some([RouteNode(r)] + ReadItems(rest, 8).value)
  {
    RouteEntries(r);
    ReadItem("to: " + r.to, ViaLines(r), RouteNode(r), rest, 8);
    Regrouped([Line(8, "- " + ("to: " + r.to))], ViaLines(r), rest);
  }

  lemma {:induction false} Regrouped<T>(a: seq<T>, b: seq<T>, c: seq<T>)
    ensures a + b + c == a + (b + c)
  {
  }

  lemma {:induction false} ReadRoutes(routes: seq<Route>)
    requires forall i :: 0 <= i < |routes| ==> Plain(routes[i].to) && PlainOption(routes[i].via)
    ensures ReadItems(AllRouteLines(routes), 8) == Some(RouteNodes(routes))
    ensures routes != [] ==> IsItem(AllRouteLines(routes)[0].text) && AllRouteLines(routes)[0].indent == 8
    ensures ToRoutes(RouteNodes(routes)) == routes
  {
    if routes != [] {
      ReadRoutes(routes[1..]);
      RouteDecodes(routes[0]);
      ReadRoute(routes[0], AllRouteLines(routes[1..]));
    }
  }

  // An item's first line, moved left to make room for the dash.
  lemma {:induction false} ItemWithin(text: string, more: seq<Line>)
    requires Within([Line(10, text)] + more, 10)
    ensures Within([Line(8, "- " + text)] + more, 8)
  {
    var lines := [Line(10, text)] + more;
    assert OneLine(lines[0]);
    assert forall i :: 0 < i < |lines| ==> ([Line(8, "- " + text)] + more)[i] == lines[i];
  }

  lemma {:induction false} RouteWithin(r: Route)
    requires Plain(r.to) && PlainOption(r.via)
    ensures Within(RouteLines(r), 8)
  {
    RouteParses(r);
    RouteAsLines(r);
    ItemWithin("to: " + r.to, ViaLines(r));
  }

  lemma {:induction false} RouteLinesWithin(routes: seq<Route>)
    requires forall i :: 0 <= i < |routes| ==> Plain(routes[i].to) && PlainOption(routes[i].via)
    ensures Within(AllRouteLines(routes), 8)
  {
    if routes != [] {
      RouteLinesWithin(routes[1..]);
      RouteWithin(routes[0]);
    }
  }

  lemma {:induction false} RouteBlock(routes: seq<Route>)
    requires forall i :: 0 <= i < |routes| ==> Plain(routes[i].to) && PlainOption(routes[i].via)
    requires routes != []
    ensures ReadBlock(AllRouteLines(routes)) == Some(Sequence(RouteNodes(routes)))
    ensures ToRoutes(RouteNodes(routes)) == routes
  {
    ReadRoutes(routes);
  }

  lemma {:induction false} RoutesRead(routes: seq<Route>)
    requires forall i :: 0 <= i < |routes| ==> Plain(routes[i].to) && PlainOption(routes[i].via)
    ensures Readable(Routes(routes), 6)
    ensures ToRoutes(Items(PartNode(Routes(routes)))) == routes
  {
    if routes != [] {
      RouteBlock(routes);
      RouteLinesWithin(routes);
    }
  }

  /******* One ethernet *******/

  lemma {:induction false} BodyReads(e: Ethernet, i: nat)
    requires PlainEthernet(e) && i < 7
    ensures Readable(BodyParts(e)[i], 6)
  {
    BodyKeyNames();
    if i == 0 {
      FlagReads("dhcp4", e.dhcp4);
    } else if i == 1 {
      FlagReads("dhcp6", e.dhcp6);
    } else if i == 2 {
      ListReads("addresses", e.addresses, 6, 8);
    } else if i == 3 {
      RoutesRead(e.routes);
    } else if i == 4 {
      NameserversRead(e.nameservers);
    } else if i == 5 {
      GatewayReads("gateway4", e.gateway4);
    } else {
      GatewayReads("gateway6", e.gateway6);
    }
  }

  lemma {:induction false} BodyKeyNames()
    ensures IsKey("dhcp4") && IsKey("dhcp6") && IsKey("addresses") && IsKey("gateway4") && IsKey("gateway6")
  {
  }

  lemma {:induction false} FlagReads(key: string, b: Option<bool>)
    requires IsKey(key)
    ensures Readable(Optional(key, BoolOption(b)), 6)
  {
    if b.Some? { BoolTextIsPlain(b.value); }
    OptionalReads(key, BoolOption(b), 6);
  }

  lemma {:induction false} GatewayReads(key: string, g: Option<string>)
    requires IsKey(key) && PlainOption(g)
    ensures Readable(Optional(key, QuotedOption(g)), 6)
  {
    if g.Some? { QuotedReads(g.value); }
    OptionalReads(key, QuotedOption(g), 6);
  }

  lemma {:induction false} EthernetReads(e: Ethernet)
    requires PlainEthernet(e)
    ensures Readable(EthernetPart(e), 4)
  {
    forall i | 0 <= i < 7
      ensures Readable(BodyParts(e)[i], 6)
    {
      BodyReads(e, i);
    }
    PlainScalar(e.name);
    BlockOfParts(e.name, BodyParts(e), 4, 6);
  }

  lemma {:induction false} BodyKeys(e: Ethernet)
    ensures forall j, k :: 0 <= j < k < |BodyParts(e)| ==> BodyParts(e)[j].key != BodyParts(e)[k].key
  {
    var keys := ["dhcp4", "dhcp6", "addresses", "routes", "nameservers", "gateway4", "gateway6"];
    assert |BodyParts(e)| == 7 && forall i :: 0 <= i < 7 ==> BodyParts(e)[i].key == keys[i];
    assert keys[0] != keys[1] && keys[5] != keys[6];
  }

  lemma {:induction false} BodyFinds(e: Ethernet, i: nat)
    requires i < 7
    ensures Find(Entries(Some(BlockNode(BodyParts(e)))), BodyParts(e)[i].key) == PartNode(BodyParts(e)[i])
  {
    BodyKeys(e);
    FindPart(BodyParts(e), i);
  }

  lemma {:induction false} TruthDecodes(key: string, b: Option<bool>)
    ensures Truth(PartNode(Optional(key, BoolOption(b)))) == b
  {
    if b.Some? { BoolTextIsPlain(b.value); }
  }

  lemma {:induction false} QuotedDecodes(key: string, s: Option<string>)
    requires PlainOption(s)
    ensures Text(PartNode(Optional(key, QuotedOption(s)))) == s
  {
    if s.Some? { QuotedReads(s.value); }
  }

  function EthernetEntry(e: Ethernet): Entry {
    Entry(e.name, BlockNode(BodyParts(e)))
  }

  lemma {:induction false} BoolsDecode(e: Ethernet)
    ensures ToEthernet(EthernetEntry(e)).dhcp4 == e.dhcp4 && ToEthernet(EthernetEntry(e)).dhcp6 == e.dhcp6
  {
    BodyFinds(e, 0);
    BodyFinds(e, 1);
    TruthDecodes("dhcp4", e.dhcp4);
    TruthDecodes("dhcp6", e.dhcp6);
  }

  lemma {:induction false} GatewaysDecode(e: Ethernet)
    requires PlainEthernet(e)
    ensures ToEthernet(EthernetEntry(e)).gateway4 == e.gateway4 && ToEthernet(EthernetEntry(e)).gateway6 == e.gateway6
  {
    BodyFinds(e, 5);
    BodyFinds(e, 6);
    QuotedDecodes("gateway4", e.gateway4);
    QuotedDecodes("gateway6", e.gateway6);
  }

  lemma {:induction false} ListsDecode(e: Ethernet)
    requires PlainEthernet(e)
    ensures ToEthernet(EthernetEntry(e)).addresses == e.addresses
    ensures ToEthernet(EthernetEntry(e)).routes == e.routes
  {
    ListReads("addresses", e.addresses, 6, 8);
    RoutesRead(e.routes);
    BodyFinds(e, 2);
    BodyFinds(e, 3);
  }

  lemma {:induction false} NameserversDecode(e: Ethernet)
    requires PlainEthernet(e)
    ensures ToEthernet(EthernetEntry(e)).nameservers == e.nameservers
  {
    BodyFinds(e, 4);
    NameserversRead(e.nameservers);
  }

  lemma {:induction false} EthernetDecodes(e: Ethernet)
    requires PlainEthernet(e)
    ensures ToEthernet(EthernetEntry(e)) == e
  {
    BoolsDecode(e);
    GatewaysDecode(e);
    ListsDecode(e);
    NameserversDecode(e);
  }

  lemma {:induction false} EthernetsRead(es: seq<Ethernet>)
    requires forall i :: 0 <= i < |es| ==> PlainEthernet(es[i])
    ensures |EthernetParts(es)| == |es| && forall i :: 0 <= i < |es| ==> Readable(EthernetParts(es)[i], 4)
  {
    if es != [] {
      EthernetsRead(es[1..]);
      EthernetReads(es[0]);
    }
  }

  lemma {:induction false} EthernetEntries(es: seq<Ethernet>)
    ensures |AllEntries(EthernetParts(es))| == |es|
    ensures forall i :: 0 <= i < |es| ==> AllEntries(EthernetParts(es))[i] == EthernetEntry(es[i])
  {
    if es != [] {
      EthernetEntries(es[1..]);
      var parts := EthernetParts(es);
      assert parts[0] == EthernetPart(es[0]) && parts[1..] == EthernetParts(es[1..]);
    }
  }

  lemma {:induction false} DecodeAll(entries: seq<Entry>, es: seq<Ethernet>)
    requires |entries| == |es| && forall i :: 0 <= i < |es| ==> PlainEthernet(es[i]) && entries[i] == EthernetEntry(es[i])
    ensures ToEthernets(entries) == es
  {
    if es != [] {
      EthernetDecodes(es[0]);
      DecodeAll(entries[1..], es[1..]);
    }
  }

  lemma {:induction false} EthernetsDecode(es: seq<Ethernet>)
    requires forall i :: 0 <= i < |es| ==> PlainEthernet(es[i])
    ensures ToEthernets(AllEntries(EthernetParts(es))) == es
  {
    EthernetEntries(es);
    DecodeAll(AllEntries(EthernetParts(es)), es);
  }

  /******* The whole document *******/

  lemma {:induction false} PairReads(key: string, text: string, n: nat)
    requires IsKey(key) && text != "" && '\n' !in text
    ensures Readable(Pair(key, text), n)
  {
  }

  lemma {:induction false} EthernetsPartReads(es: seq<Ethernet>)
    requires forall i :: 0 <= i < |es| ==> PlainEthernet(es[i])
    ensures Readable(EthernetsPart(es), 2)
  {
    if es != [] {
      EthernetsRead(es);
      BlockOfParts("ethernets", EthernetParts(es), 2, 4);
    }
  }

  lemma {:induction false} NetworkReads(es: seq<Ethernet>)
    requires forall i :: 0 <= i < |es| ==> PlainEthernet(es[i])
    ensures forall i :: 0 <= i < 2 ==> Readable(NetworkParts(es)[i], 2)
  {
    PairReads("version", "2", 2);
    EthernetsPartReads(es);
  }

  lemma {:induction false} NetworkDecodes(es: seq<Ethernet>)
    requires forall i :: 0 <= i < |es| ==> PlainEthernet(es[i])
    ensures ToEthernets(Entries(Find(Entries(Some(BlockNode(NetworkParts(es)))), "ethernets"))) == es
  {
    EthernetsDecode(es);
    assert NetworkParts(es)[0].key == "version" && NetworkParts(es)[1].key == "ethernets";
    FindPart(NetworkParts(es), 1);
  }

  lemma {:induction false} HeaderKeys()
    ensures IsKey("instance-id") && IsKey("local-hostname") && IsKey("node-ip")
  {
  }

  lemma {:induction false} HeaderReads(md: Document)
    requires PlainDocument(md)
    ensures forall i :: 0 <= i < 3 ==> Readable(DocumentParts(md)[i], 0)
  {
    PlainScalar(md.instanceId);
    PlainScalar(md.hostname);
    if md.nodeIP.Some? { PlainScalar(md.nodeIP.value); }
    HeaderKeys();
    PairReads("instance-id", md.instanceId, 0);
    PairReads("local-hostname", md.hostname, 0);
    OptionalReads("node-ip", md.nodeIP, 0);
  }

  lemma {:induction false} DocumentReads(md: Document)
    requires PlainDocument(md)
    ensures forall i :: 0 <= i < |DocumentParts(md)| ==> Readable(DocumentParts(md)[i], 0)
  {
    HeaderReads(md);
    assert Readable(DocumentParts(md)[3], 0) by {
      NetworkReads(md.ethernets);
      BlockOfParts("network", NetworkParts(md.ethernets), 0, 2);
    }
  }

  lemma {:induction false} DocumentFinds(md: Document, i: nat)
    requires i < 4
    ensures Find(Entries(Some(BlockNode(DocumentParts(md)))), DocumentParts(md)[i].key) == PartNode(DocumentParts(md)[i])
  {
    var parts := DocumentParts(md);
    assert parts[0].key == "instance-id" && parts[1].key == "local-hostname";
    assert parts[2].key == "node-ip" && parts[3].key == "network";
    FindPart(parts, i);
  }

  lemma {:induction false} HeaderDecodes(md: Document)
    requires PlainDocument(md)
    ensures var d := ToDocument(BlockNode(DocumentParts(md)));
            d.instanceId == md.instanceId && d.hostname == md.hostname && d.nodeIP == md.nodeIP
  {
    PlainScalar(md.instanceId);
    PlainScalar(md.hostname);
    if md.nodeIP.Some? { PlainScalar(md.nodeIP.value); }
    DocumentFinds(md, 0);
    DocumentFinds(md, 1);
    DocumentFinds(md, 2);
  }

  lemma {:induction false} DocumentDecodes(md: Document)
    requires PlainDocument(md)
    ensures ToDocument(BlockNode(DocumentParts(md))) == md
  {
    HeaderDecodes(md);
    DocumentFinds(md, 3);
    NetworkDecodes(md.ethernets);
  }

  /******* What the template prints is the text of the parts *******/

  lemma {:induction false} Padding()
    ensures Pad(0) == "" && Pad(2) == "  " && Pad(4) == "    " && Pad(6) == "      "
    ensures Pad(8) == "        " && Pad(10) == "          " && Pad(12) == "            "
  {
  }

  lemma {:induction false} TextOfOne(n: nat, text: string)
    ensures TextOf([Line(n, text)]) == "\n" + Pad(n) + text
  {
    assert [Line(n, text)][1..] == [];
  }

  lemma {:induction false} TextOfOptional(lead: string, key: string, text: Option<string>, n: nat)
    requires lead == "\n" + Pad(n) + key + ": "
    ensures TextOf(PartLines(Optional(key, text), n)) == if text.Some? then lead + text.value else ""
  {
    if text.Some? {
      TextOfOne(n, key + ": " + text.value);
      assert "\n" + Pad(n) + (key + ": " + text.value) == lead + text.value;
    }
  }

  lemma {:induction false} TextOfBlock(lead: string, key: string, children: seq<Line>, node: Node, n: nat)
    requires lead == "\n" + Pad(n) + key + ":"
    ensures TextOf(PartLines(Block(key, children, node), n)) == lead + TextOf(children)
  {
    TextOfOne(n, key + ":");
    TextOfBoth([Line(n, key + ":")], children);
    assert "\n" + Pad(n) + (key + ":") == lead;
  }

  lemma {:induction false} TextOfItems(lead: string, items: seq<string>, n: nat)
    requires lead == "\n" + Pad(n) + "- "
    ensures TextOf(ItemLines(items, n)) == PrintAll(lead, items)
  {
    if items != [] {
      TextOfItems(lead, items[1..], n);
      TextOfOne(n, "- " + items[0]);
      TextOfBoth([Line(n, "- " + items[0])], ItemLines(items[1..], n));
      assert "\n" + Pad(n) + ("- " + items[0]) == lead + items[0];
    }
  }

  lemma {:induction false} TextOfRoute(r: Route)
    ensures TextOf(RouteLines(r))
         == "\n        - to: " + r.to + if r.via.Some? then "\n          via: " + r.via.value else ""
  {
    Padding();
    var text := "- " + ("to: " + r.to);
    TextOfOne(8, text);
    TextOfBoth([Line(8, text)], ViaLines(r));
    TextOfOptional("\n          via: ", "via", r.via, 10);
    assert "\n" + Pad(8) + text == "\n        - to: " + r.to;
  }

  lemma {:induction false} TextOfRoutes(routes: seq<Route>)
    ensures TextOf(AllRouteLines(routes)) == PrintRoutes(routes)
  {
    if routes != [] {
      TextOfRoutes(routes[1..]);
      TextOfRoute(routes[0]);
      TextOfBoth(RouteLines(routes[0]), AllRouteLines(routes[1..]));
    }
  }

  lemma {:induction false} TextOfParts(parts: seq<Part>, k: nat, n: nat)
    requires k < |parts|
    ensures TextOf(AllLines(parts[k..], n)) == TextOf(PartLines(parts[k], n)) + TextOf(AllLines(parts[k + 1..], n))
  {
    assert parts[k..][1..] == parts[k + 1..];
    TextOfBoth(PartLines(parts[k], n), AllLines(parts[k + 1..], n));
  }

  // The texts of the seven parts of an ethernet, in order.
  function BodyText(e: Ethernet, i: nat): string
    requires i < 7
  {
    TextOf(PartLines(BodyParts(e)[i], 6))
  }

  lemma {:induction false} TextOfBody(e: Ethernet)
    ensures TextOf(AllLines(BodyParts(e), 6))
         == BodyText(e, 0) + BodyText(e, 1) + BodyText(e, 2) + BodyText(e, 3) + BodyText(e, 4) + BodyText(e, 5) + BodyText(e, 6)
  {
    var parts := BodyParts(e);
    var i, text := 7, "";
    assert TextOf(AllLines(parts[7..], 6)) == "";
    TextOfParts(parts, 6, 6);
    TextOfParts(parts, 5, 6);
    TextOfParts(parts, 4, 6);
    TextOfParts(parts, 3, 6);
    TextOfParts(parts, 2, 6);
    TextOfParts(parts, 1, 6);
    TextOfParts(parts, 0, 6);
    assert parts[0..] == parts;
    Regroup(BodyText(e, 0), BodyText(e, 1), BodyText(e, 2), BodyText(e, 3), BodyText(e, 4), BodyText(e, 5), BodyText(e, 6));
  }

  lemma {:induction false} Regroup(a: string, b: string, c: string, d: string, e: string, f: string, g: string)
    ensures a + (b + (c + (d + (e + (f + (g + "")))))) == a + b + c + d + e + f + g
  {
    assert g + "" == g;
    assert e + (f + g) == e + f + g;
    assert c + (d + (e + f + g)) == c + d + e + f + g;
    assert a + (b + (c + d + e + f + g)) == a + b + c + d + e + f + g;
  }

  lemma {:induction false} TextOfFlags(e: Ethernet)
    ensures BodyText(e, 0) == PrintFlag("\n      dhcp4: ", e.dhcp4)
    ensures BodyText(e, 1) == PrintFlag("\n      dhcp6: ", e.dhcp6)
  {
    Padding();
    TextOfOptional("\n      dhcp4: ", "dhcp4", BoolOption(e.dhcp4), 6);
    TextOfOptional("\n      dhcp6: ", "dhcp6", BoolOption(e.dhcp6), 6);
  }

  lemma {:induction false} TextOfGateways(e: Ethernet)
    ensures BodyText(e, 5) == PrintGateway("\n      gateway4: ", e.gateway4)
    ensures BodyText(e, 6) == PrintGateway("\n      gateway6: ", e.gateway6)
  {
    Padding();
    TextOfOptional("\n      gateway4: ", "gateway4", QuotedOption(e.gateway4), 6);
    TextOfOptional("\n      gateway6: ", "gateway6", QuotedOption(e.gateway6), 6);
  }

  lemma {:induction false} TextOfList(lead: string, itemLead: string, key: string, items: seq<string>, n: nat, m: nat)
    requires lead == "\n" + Pad(n) + key + ":" && itemLead == "\n" + Pad(m) + "- "
    ensures TextOf(PartLines(List(key, items, m), n)) == if items != [] then lead + PrintAll(itemLead, items) else ""
  {
    if items != [] {
      TextOfBlock(lead, key, ItemLines(items, m), Sequence(Scalars(items)), n);
      TextOfItems(itemLead, items, m);
    }
  }

  lemma {:induction false} TextOfAddresses(e: Ethernet)
    ensures BodyText(e, 2) == PrintList("\n      addresses:", "\n        - ", e.addresses)
  {
    Padding();
    TextOfList("\n      addresses:", "\n        - ", "addresses", e.addresses, 6, 8);
  }

  lemma {:induction false} TextOfRoutesPart(e: Ethernet)
    ensures BodyText(e, 3) == if e.routes != [] then "\n      routes:" + PrintRoutes(e.routes) else ""
  {
    Padding();
    if e.routes != [] {
      TextOfBlock("\n      routes:", "routes", AllRouteLines(e.routes), Sequence(RouteNodes(e.routes)), 6);
      TextOfRoutes(e.routes);
    }
  }

  lemma {:induction false} InnerLeads()
    ensures "\n        addresses:" == "\n" + Pad(8) + "addresses" + ":"
    ensures "\n            - " == "\n" + Pad(12) + "- "
  {
    Padding();
  }

  lemma {:induction false} TextOfInner(items: seq<string>)
    requires items != []
    ensures TextOf(AllLines([List("addresses", items, 12)], 8)) == "\n        addresses:" + PrintAll("\n            - ", items)
  {
    var inner := [List("addresses", items, 12)];
    assert inner[0..] == inner && inner[1..] == [];
    TextOfParts(inner, 0, 8);
    InnerLeads();
    TextOfList("\n        addresses:", "\n            - ", "addresses", items, 8, 12);
  }

  lemma {:induction false} TextOfNameservers(e: Ethernet)
    ensures BodyText(e, 4) == PrintList("\n      nameservers:" + "\n        addresses:", "\n            - ", e.nameservers)
  {
    var items := e.nameservers;
    if items != [] {
      TextOfNameserverBlock(items);
      TextOfInner(items);
      Regrouped("\n      nameservers:", "\n        addresses:", PrintAll("\n            - ", items));
    }
  }

  lemma {:induction false} NameserversLead()
    ensures "\n" + Pad(6) + "nameservers" + ":" == "\n      nameservers:"
  {
    Padding();
  }

  lemma {:induction false} TextOfNameserverBlock(items: seq<string>)
    requires items != []
    ensures TextOf(PartLines(Nameservers(items), 6))
         == "\n      nameservers:" + TextOf(AllLines([List("addresses", items, 12)], 8))
  {
    NameserversLead();
    var inner := [List("addresses", items, 12)];
    TextOfBlock("\n      nameservers:", "nameservers", AllLines(inner, 8), Mapping(AllEntries(inner)), 6);
  }

  lemma {:induction false} TextOfEthernet(e: Ethernet)
    ensures TextOf(AllLines(BodyParts(e), 6)) == PrintEthernet(e)
  {
    TextOfBody(e);
    TextOfFlags(e);
    TextOfGateways(e);
    TextOfAddresses(e);
    TextOfRoutesPart(e);
    TextOfNameservers(e);
  }

  lemma {:induction false} TextOfEthernets(es: seq<Ethernet>)
    ensures TextOf(AllLines(EthernetParts(es), 4)) == PrintEthernets(es)
  {
    if es != [] {
      TextOfEthernets(es[1..]);
      var e, parts := es[0], EthernetParts(es);
      assert parts[0..] == parts && parts[1..] == EthernetParts(es[1..]) && parts[0] == EthernetPart(e);
      TextOfParts(parts, 0, 4);
      TextOfEthernetPart(e);
    }
  }

  lemma {:induction false} TextOfEthernetPart(e: Ethernet)
    ensures TextOf(PartLines(EthernetPart(e), 4)) == "\n    " + e.name + ":" + PrintEthernet(e)
  {
    Padding();
    assert "\n" + Pad(4) + e.name + ":" == "\n    " + e.name + ":";
    TextOfBlock("\n    " + e.name + ":", e.name, AllLines(BodyParts(e), 6), BlockNode(BodyParts(e)), 4);
    TextOfEthernet(e);
  }

  function EthernetsText(es: seq<Ethernet>): string {
    if es != [] then "\n  ethernets:" + PrintEthernets(es) else ""
  }

  lemma {:induction false} EthernetsLead()
    ensures "\n  ethernets:" == "\n" + Pad(2) + "ethernets" + ":"
  {
  }

  lemma {:induction false} TextOfEthernetsPart(es: seq<Ethernet>)
    ensures TextOf(PartLines(EthernetsPart(es), 2)) == EthernetsText(es)
  {
    if es != [] {
      EthernetsLead();
      TextOfBlock("\n  ethernets:", "ethernets", AllLines(EthernetParts(es), 4), BlockNode(EthernetParts(es)), 2);
      TextOfEthernets(es);
    }
  }

  lemma {:induction false} TextOfVersion(es: seq<Ethernet>)
    ensures TextOf(PartLines(NetworkParts(es)[0], 2)) == "\n  version: 2"
  {
    Padding();
    TextOfOptional("\n  version: ", "version", Some("2"), 2);
  }

  lemma {:induction false} TextOfNetwork(es: seq<Ethernet>)
    ensures TextOf(AllLines(NetworkParts(es), 2)) == "\n  version: 2" + EthernetsText(es)
  {
    TextOfTwo(NetworkParts(es), 2);
    TextOfVersion(es);
    TextOfEthernetsPart(es);
  }

  lemma {:induction false} TextOfTwo(parts: seq<Part>, n: nat)
    requires |parts| == 2
    ensures TextOf(AllLines(parts, n)) == TextOf(PartLines(parts[0], n)) + TextOf(PartLines(parts[1], n))
  {
    TextOfParts(parts, 0, n);
    TextOfParts(parts, 1, n);
    assert parts[0..] == parts && parts[2..] == [];
  }

  function HeadText(md: Document, i: nat): string
    requires i < 4
  {
    TextOf(PartLines(DocumentParts(md)[i], 0))
  }

  lemma {:induction false} HeadLeads()
    ensures "\n" + Pad(0) + "instance-id" + ": " == "\ninstance-id: "
    ensures "\n" + Pad(0) + "local-hostname" + ": " == "\nlocal-hostname: "
    ensures "\n" + Pad(0) + "node-ip" + ": " == "\nnode-ip: "
  {
  }

  lemma {:induction false} TextOfIds(md: Document)
    ensures HeadText(md, 0) == "\ninstance-id: " + md.instanceId
    ensures HeadText(md, 1) == "\nlocal-hostname: " + md.hostname
  {
    HeadLeads();
    TextOfOptional("\ninstance-id: ", "instance-id", Some(md.instanceId), 0);
    TextOfOptional("\nlocal-hostname: ", "local-hostname", Some(md.hostname), 0);
  }

  lemma {:induction false} TextOfHeader(md: Document)
    ensures HeadText(md, 0) == "\ninstance-id: " + md.instanceId
    ensures HeadText(md, 1) == "\nlocal-hostname: " + md.hostname
    ensures HeadText(md, 2) == if md.nodeIP.Some? then "\nnode-ip: " + md.nodeIP.value else ""
  {
    TextOfIds(md);
    HeadLeads();
    TextOfOptional("\nnode-ip: ", "node-ip", md.nodeIP, 0);
  }

  lemma {:induction false} TextOfNetworkPart(md: Document)
    ensures HeadText(md, 3) == "\nnetwork:" + ("\n  version: 2" + EthernetsText(md.ethernets))
  {
    Padding();
    var parts := NetworkParts(md.ethernets);
    TextOfBlock("\nnetwork:", "network", AllLines(parts, 2), BlockNode(parts), 0);
    TextOfNetwork(md.ethernets);
  }

  lemma {:induction false} TextOfDocument(md: Document)
    ensures TextOf(AllLines(DocumentParts(md), 0))
         == HeadText(md, 0) + (HeadText(md, 1) + (HeadText(md, 2) + (HeadText(md, 3) + "")))
  {
    var parts := DocumentParts(md);
    TextOfParts(parts, 0, 0);
    TextOfParts(parts, 1, 0);
    TextOfParts(parts, 2, 0);
    TextOfParts(parts, 3, 0);
    assert parts[0..] == parts && parts[4..] == [];
  }

  lemma {:induction false} RegroupDocument(a: string, b: string, b': string, c: string, d: string, e: string, f: string)
    ensures a + ((b + b') + (c + ((d + (e + f)) + ""))) == a + b + b' + c + d + e + f
  {
    assert (d + (e + f)) + "" == d + e + f;
    assert c + (d + e + f) == c + d + e + f;
    assert (b + b') + (c + d + e + f) == b + b' + c + d + e + f;
    assert a + (b + b' + c + d + e + f) == a + b + b' + c + d + e + f;
  }

  lemma {:induction false} PrintIsText(md: Document)
    ensures Print(md) == TextOf(AllLines(DocumentParts(md), 0))
  {
    TextOfDocument(md);
    TextOfHeader(md);
    TextOfNetworkPart(md);
    RegroupDocument("\ninstance-id: " + md.instanceId, "\nlocal-hostname: ", md.hostname, HeadText(md, 2),
                    "\nnetwork:", "\n  version: 2", EthernetsText(md.ethernets));
  }

  // An ethernet with one of everything.
  function FullEthernet(name: string, address: string, to: string, via: string, nameserver: string, gateway4: string, gateway6: string): Ethernet {
    Ethernet(name, Some(true), Some(false), Some(gateway4), Some(gateway6), [address], [nameserver], [Route(to, Some(via))])
  }

  /** An ethernet with one of everything, line by line as the template has it. */
  lemma {:induction false} PrintedInFull(name: string, address: string, to: string, via: string, nameserver: string,
                                         gateway4: string, gateway6: string)
    ensures PrintEthernets([FullEthernet(name, address, to, via, nameserver, gateway4, gateway6)])
      == ("\n    " + name + ":")
       + (("\n      dhcp4: " + "true")
       + ("\n      dhcp6: " + "false")
       + ("\n      addresses:" + ("\n        - " + address))
       + ("\n      routes:" + ("\n        - to: " + to + ("\n          via: " + via)))
       + ("\n      nameservers:" + "\n        addresses:" + ("\n            - " + nameserver))
       + ("\n      gateway4: " + ("\"" + gateway4 + "\""))
       + ("\n      gateway6: " + ("\"" + gateway6 + "\"")))
  {
    OneLineEach(address, to, via, nameserver);
    var e := FullEthernet(name, address, to, via, nameserver, gateway4, gateway6);
    assert [e][1..] == [] && PrintEthernets([e]) == ("\n    " + name + ":") + PrintEthernet(e) + "";
  }

  lemma {:induction false} OneLineEach(address: string, to: string, via: string, nameserver: string)
    ensures PrintAll("\n        - ", [address]) == "\n        - " + address
    ensures PrintAll("\n            - ", [nameserver]) == "\n            - " + nameserver
    ensures PrintRoutes([Route(to, Some(via))]) == "\n        - to: " + to + ("\n          via: " + via)
  {
    assert [address][1..] == [] && [nameserver][1..] == [];
    assert [Route(to, Some(via))][1..] == [];
  }

  /******* Repeated keys *******/

  predicate PartUnique(p: Part) {
    PartNode(p).Some? ==> Unique(PartNode(p).value)
  }

  ghost predicate DistinctParts(parts: seq<Part>) {
    forall j, k :: 0 <= j < k < |parts| ==> parts[j].key != parts[k].key
  }

  ghost predicate AllUnique(entries: seq<Entry>) {
    forall i :: 0 <= i < |entries| ==> Unique(entries[i].value)
  }

  lemma {:induction false} KeysOfParts(parts: seq<Part>, i: nat)
    requires i < |AllEntries(parts)|
    ensures exists j :: 0 <= j < |parts| && parts[j].key == AllEntries(parts)[i].key
  {
    var n := |PartEntries(parts[0])|;
    if i < n {
      assert AllEntries(parts)[i].key == parts[0].key;
    } else {
      KeysOfParts(parts[1..], i - n);
      var j :| 0 <= j < |parts[1..]| && parts[1..][j].key == AllEntries(parts[1..])[i - n].key;
      assert parts[j + 1].key == AllEntries(parts)[i].key;
    }
  }

  lemma {:induction false} UniqueEntries(parts: seq<Part>)
    requires DistinctParts(parts)
    ensures DistinctKeys(AllEntries(parts))
    ensures AllUnique(AllEntries(parts)) <==> forall i :: 0 <= i < |parts| ==> PartUnique(parts[i])
  {
    if parts != [] {
      UniqueEntries(parts[1..]);
      NewKey(parts);
      UniqueFirst(parts);
    }
  }

  lemma {:induction false} NewKey(parts: seq<Part>)
    requires parts != [] && DistinctParts(parts) && DistinctKeys(AllEntries(parts[1..]))
    ensures DistinctKeys(AllEntries(parts))
  {
    var rest := AllEntries(parts[1..]);
    forall i | 0 <= i < |rest|
      ensures rest[i].key != parts[0].key
    {
      KeysOfParts(parts[1..], i);
    }
  }

  lemma {:induction false} UniqueFirst(parts: seq<Part>)
    requires parts != []
    ensures AllUnique(AllEntries(parts)) <==> PartUnique(parts[0]) && AllUnique(AllEntries(parts[1..]))
  {
    var all, rest := AllEntries(parts), AllEntries(parts[1..]);
    if PartNode(parts[0]).Some? {
      assert all[0].value == PartNode(parts[0]).value && forall i :: 0 <= i < |rest| ==> all[i + 1] == rest[i];
      assert forall i :: 0 < i < |all| ==> all[i] == rest[i - 1];
    } else {
      assert all == rest;
    }
  }

  lemma {:induction false} UniqueBlock(parts: seq<Part>)
    requires DistinctParts(parts)
    ensures Unique(BlockNode(parts)) <==> forall i :: 0 <= i < |parts| ==> PartUnique(parts[i])
  {
    UniqueEntries(parts);
    assert Unique(Mapping(AllEntries(parts))) == AllUnique(AllEntries(parts));
  }

  lemma {:induction false} ScalarsUnique(items: seq<string>)
    ensures forall i :: 0 <= i < |Scalars(items)| ==> Scalars(items)[i].Scalar?
    ensures Unique(Sequence(Scalars(items)))
  {
    if items != [] {
      ScalarsUnique(items[1..]);
    }
  }

  lemma {:induction false} RouteUnique(r: Route)
    ensures Unique(RouteNode(r))
  {
    assert "to" != "via";
    UniqueBlock(RouteParts(r));
  }

  lemma {:induction false} RoutesUnique(routes: seq<Route>)
    ensures forall i :: 0 <= i < |RouteNodes(routes)| ==> Unique(RouteNodes(routes)[i])
    ensures Unique(Sequence(RouteNodes(routes)))
  {
    if routes != [] {
      RoutesUnique(routes[1..]);
      RouteUnique(routes[0]);
    }
  }

  lemma {:induction false} NameserversUnique(items: seq<string>)
    ensures PartUnique(Nameservers(items))
  {
    var inner := [List("addresses", items, 12)];
    ScalarsUnique(items);
    UniqueBlock(inner);
  }

  lemma {:induction false} BodyUnique(e: Ethernet)
    ensures Unique(BlockNode(BodyParts(e)))
  {
    BodyKeys(e);
    ScalarsUnique(e.addresses);
    RoutesUnique(e.routes);
    NameserversUnique(e.nameservers);
    var parts := BodyParts(e);
    assert PartUnique(parts[0]) && PartUnique(parts[1]) && PartUnique(parts[2]) && PartUnique(parts[3]);
    assert PartUnique(parts[4]) && PartUnique(parts[5]) && PartUnique(parts[6]);
    UniqueBlock(parts);
  }

  predicate DistinctNames(es: seq<Ethernet>) {
    forall j, k :: 0 <= j < k < |es| ==> es[j].name != es[k].name
  }

  lemma {:induction false} MappingUnique(entries: seq<Entry>, es: seq<Ethernet>)
    requires |entries| == |es| && forall i :: 0 <= i < |es| ==> entries[i] == EthernetEntry(es[i])
    ensures Unique(Mapping(entries)) <==> DistinctNames(es)
  {
    forall i | 0 <= i < |es|
      ensures entries[i].key == es[i].name && Unique(entries[i].value)
    {
      BodyUnique(es[i]);
    }
    assert DistinctKeys(entries) == DistinctNames(es);
  }

  lemma {:induction false} EthernetsUnique(es: seq<Ethernet>)
    ensures PartUnique(EthernetsPart(es)) <==> DistinctNames(es)
  {
    EthernetEntries(es);
    MappingUnique(AllEntries(EthernetParts(es)), es);
  }

  // The document repeats a key exactly if two ethernets share a name.
  lemma {:induction false} DocumentUnique(md: Document)
    ensures Unique(BlockNode(DocumentParts(md))) <==> DistinctNames(md.ethernets)
  {
    var network, parts := NetworkParts(md.ethernets), DocumentParts(md);
    assert network[0].key == "version" && network[1].key == "ethernets";
    assert parts[0].key == "instance-id" && parts[1].key == "local-hostname";
    assert parts[2].key == "node-ip" && parts[3].key == "network";
    EthernetsUnique(md.ethernets);
    assert PartUnique(network[0]) && PartUnique(network[1]) == DistinctNames(md.ethernets);
    UniqueBlock(network);
    assert PartUnique(parts[0]) && PartUnique(parts[1]) && PartUnique(parts[2]);
    assert PartUnique(parts[3]) == DistinctNames(md.ethernets);
    UniqueBlock(parts);
  }

  lemma {:induction false} Loads(md: Document)
    requires PlainDocument(md)
    ensures Load(Print(md)) == Some(BlockNode(DocumentParts(md)))
  {
    var parts := DocumentParts(md);
    PrintIsText(md);
    DocumentReads(md);
    LinesOfParts(parts, 0);
    ReadLinesOf(AllLines(parts, 0));
    ReadBlockOfParts(parts, 0);
  }

  /**
   Reading what was printed gives the document back exactly if no two ethernets share a name; if two
   do, what was printed is not YAML, as it says a key twice, and is not read at all.
   */
  lemma {:induction false} RoundTrip(md: Document)
    requires PlainDocument(md)
    ensures Read(Print(md)) == Some(md) <==> DistinctNames(md.ethernets)
    ensures Read(Print(md)) == None <==> !DistinctNames(md.ethernets)
  {
    Loads(md);
    DocumentUnique(md);
    DocumentDecodes(md);
  }

  /**
   The printed text tells documents apart, whatever their names: absent from present-and-false, and
   every list in its order.
   */
  lemma {:induction false} PrintIsInjective(a: Document, b: Document)
    requires PlainDocument(a) && PlainDocument(b)
    ensures Print(a) == Print(b) <==> a == b
  {
    Loads(a);
    Loads(b);
    DocumentDecodes(a);
    DocumentDecodes(b);
  }
}
