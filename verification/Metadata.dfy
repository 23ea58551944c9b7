/**
 The cloud-init metadata document: the template that prints it, node by node, and a reader of
 block-style YAML (YAML 1.2.2, chapter 8; scalars stay strings, as in section 10.1) that
 recovers what was printed.
 */
module Metadata {
  import opened Options

  datatype Route = Route(to: string, via: Option<string>)

  datatype Ethernet = Ethernet(
    name: string,
    dhcp4: Option<bool>,
    dhcp6: Option<bool>,
    gateway4: Option<string>,
    gateway6: Option<string>,
    addresses: seq<string>,
    nameservers: seq<string>,
    routes: seq<Route>)

  datatype Document = Document(instanceId: string, hostname: string, nodeIP: Option<string>, ethernets: seq<Ethernet>)

  function BoolText(b: bool): string {
    if b then "true" else "false"
  }

  /******* The template.  Every piece starts with the line break its trim markers leave. *******/

  function Print(md: Document): string {
    "\ninstance-id: " + md.instanceId + "\nlocal-hostname: " + md.hostname
    + (if md.nodeIP.Some? then "\nnode-ip: " + md.nodeIP.value else "")
    + "\nnetwork:" + "\n  version: 2"
    + if md.ethernets != [] then "\n  ethernets:" + PrintEthernets(md.ethernets) else ""
  }

  function PrintEthernets(es: seq<Ethernet>): string {
    if es == [] then ""
    else "\n    " + es[0].name + ":" + PrintEthernet(es[0]) + PrintEthernets(es[1..])
  }

  function PrintEthernet(e: Ethernet): string {
    PrintFlag("\n      dhcp4: ", e.dhcp4)
    + PrintFlag("\n      dhcp6: ", e.dhcp6)
    + PrintList("\n      addresses:", "\n        - ", e.addresses)
    + (if e.routes != [] then "\n      routes:" + PrintRoutes(e.routes) else "")
    + PrintList("\n      nameservers:" + "\n        addresses:", "\n            - ", e.nameservers)
    + PrintGateway("\n      gateway4: ", e.gateway4)
    + PrintGateway("\n      gateway6: ", e.gateway6)
  }

  function PrintFlag(lead: string, b: Option<bool>): string {
    if b.Some? then lead + BoolText(b.value) else ""
  }

  function PrintGateway(lead: string, gateway: Option<string>): string {
    if gateway.Some? then lead + Quoted(gateway.value) else ""
  }

  function PrintList(lead: string, itemLead: string, items: seq<string>): string {
    if items != [] then lead + PrintAll(itemLead, items) else ""
  }

  function PrintAll(lead: string, items: seq<string>): string {
    if items == [] then "" else lead + items[0] + PrintAll(lead, items[1..])
  }

  function PrintRoutes(routes: seq<Route>): string {
    if routes == [] then ""
    else
      "\n        - to: " + routes[0].to
      + (if routes[0].via.Some? then "\n          via: " + routes[0].via.value else "")
      + PrintRoutes(routes[1..])
  }

  function Quoted(s: string): string {
    "\"" + s + "\""
  }

  /******* The reader: text to lines, lines to nodes, nodes to a document *******/

  datatype Line = Line(indent: nat, text: string)

  datatype Entry = Entry(key: string, value: Node)

  datatype Node = Scalar(text: string) | Mapping(entries: seq<Entry>) | Sequence(items: seq<Node>)

  function Spaces(s: string): (n: nat)
    ensures n <= |s|
  {
    if s != "" && s[0] == ' ' then 1 + Spaces(s[1..]) else 0
  }

  function LineLength(s: string): (n: nat)
    ensures n <= |s|
  {
    if s == "" || s[0] == '\n' then 0 else 1 + LineLength(s[1..])
  }

  // The lines of a text in which each line is introduced by a line break.
  function ReadLines(text: string): Option<seq<Line>>
    decreases |text|
  {
    if text == "" then Some([])
    else if text[0] != '\n' then None
    else
      var n := LineLength(text[1..]);
      var line := text[1..][..n];
      var rest := ReadLines(text[1..][n..]);
      if rest.None? then None
      else Some([Line(Spaces(line), line[Spaces(line)..])] + rest.value)
  }

  // Where a key ends: a colon followed by a space or by nothing.
  function KeyLength(s: string): (n: Option<nat>)
    ensures n.Some? ==> n.value < |s| && s[n.value] == ':' && (n.value + 1 < |s| ==> s[n.value + 1] == ' ')
  {
    if s == "" then None
    else if s[0] == ':' && (|s| == 1 || s[1] == ' ') then Some(0)
    else
      var rest := KeyLength(s[1..]);
      if rest.None? then None else Some(rest.value + 1)
  }

  function Value(s: string, n: nat): string
    requires n < |s|
  {
    if n + 1 < |s| then s[n + 2..] else ""
  }

  function Unquoted(s: string): string {
    if |s| >= 2 && s[0] == '"' && s[|s| - 1] == '"' then s[1..|s| - 1] else s
  }

  predicate IsItem(s: string) {
    |s| >= 2 && s[0] == '-' && s[1] == ' '
  }

  // How many of the first lines are indented by more than n.
  function Deeper(lines: seq<Line>, n: nat): (c: nat)
    ensures c <= |lines|
  {
    if lines != [] && lines[0].indent > n then 1 + Deeper(lines[1..], n) else 0
  }

  function ReadBlock(lines: seq<Line>): Option<Node>
    decreases |lines|, 3
  {
    if lines == [] then Some(Scalar(""))
    else if IsItem(lines[0].text) then
      var items := ReadItems(lines, lines[0].indent);
      if items.None? then None else Some(Sequence(items.value))
    else
      var entries := ReadEntries(lines, lines[0].indent);
      if entries.None? then None else Some(Mapping(entries.value))
  }

  function ReadEntries(lines: seq<Line>, n: nat): Option<seq<Entry>>
    decreases |lines|, 1
  {
    if lines == [] then Some([])
    else
      var key := KeyLength(lines[0].text);
      if lines[0].indent != n || key.None? then None
      else
        var c := Deeper(lines[1..], n);
        var value := Value(lines[0].text, key.value);
        var node := if value != "" then (if c == 0 then Some(Scalar(Unquoted(value))) else None)
                    else ReadBlock(lines[1..][..c]);
        var rest := ReadEntries(lines[1..][c..], n);
        if node.None? || rest.None? then None
        else Some([Entry(lines[0].text[..key.value], node.value)] + rest.value)
  }

  function ReadItems(lines: seq<Line>, n: nat): Option<seq<Node>>
    decreases |lines|, 2
  {
    if lines == [] then Some([])
    else if lines[0].indent != n || !IsItem(lines[0].text) then None
    else
      var c := Deeper(lines[1..], n);
      var content := lines[0].text[2..];
      var node :=
        if KeyLength(content).Some? then
          var entries := ReadEntries([Line(n + 2, content)] + lines[1..][..c], n + 2);
          if entries.None? then None else Some(Mapping(entries.value))
        else if c == 0 then Some(Scalar(Unquoted(content)))
        else None;
      var rest := ReadItems(lines[1..][c..], n);
      if node.None? || rest.None? then None else Some([node.value] + rest.value)
  }

  function Find(entries: seq<Entry>, key: string): Option<Node> {
    if entries == [] then None
    else if entries[0].key == key then Some(entries[0].value)
    else Find(entries[1..], key)
  }

  function Text(node: Option<Node>): Option<string> {
    if node.Some? && node.value.Scalar? then Some(node.value.text) else None
  }

  function Truth(node: Option<Node>): Option<bool> {
    var text := Text(node);
    if text == Some("true") then Some(true) else if text == Some("false") then Some(false) else None
  }

  function Entries(node: Option<Node>): seq<Entry> {
    if node.Some? && node.value.Mapping? then node.value.entries else []
  }

  function Items(node: Option<Node>): seq<Node> {
    if node.Some? && node.value.Sequence? then node.value.items else []
  }

  function Texts(items: seq<Node>): seq<string> {
    if items == [] then [] else [Text(Some(items[0])).GetOr("")] + Texts(items[1..])
  }

  function ToRoute(node: Node): Route {
    var entries := Entries(Some(node));
    Route(Text(Find(entries, "to")).GetOr(""), Text(Find(entries, "via")))
  }

  function ToRoutes(items: seq<Node>): seq<Route> {
    if items == [] then [] else [ToRoute(items[0])] + ToRoutes(items[1..])
  }

  function ToEthernet(e: Entry): Ethernet {
    var entries := Entries(Some(e.value));
    Ethernet(e.key, Truth(Find(entries, "dhcp4")), Truth(Find(entries, "dhcp6")),
             Text(Find(entries, "gateway4")), Text(Find(entries, "gateway6")),
             Texts(Items(Find(entries, "addresses"))),
             Texts(Items(Find(Entries(Find(entries, "nameservers")), "addresses"))),
             ToRoutes(Items(Find(entries, "routes"))))
  }

  function ToEthernets(entries: seq<Entry>): seq<Ethernet> {
    if entries == [] then [] else [ToEthernet(entries[0])] + ToEthernets(entries[1..])
  }

  function ToDocument(node: Node): Document {
    var entries := Entries(Some(node));
    Document(Text(Find(entries, "instance-id")).GetOr(""), Text(Find(entries, "local-hostname")).GetOr(""),
             Text(Find(entries, "node-ip")),
             ToEthernets(Entries(Find(Entries(Find(entries, "network")), "ethernets"))))
  }

  // The nodes a text is written for, before keys are compared.
  function Load(text: string): Option<Node> {
    var lines := ReadLines(text);
    if lines.None? then None else ReadBlock(lines.value)
  }

  predicate DistinctKeys(entries: seq<Entry>) {
    forall j, k :: 0 <= j < k < |entries| ==> entries[j].key != entries[k].key
  }

  // No mapping repeats a key (YAML 1.2.2, section 3.2.1.3).
  predicate Unique(node: Node) {
    match node
    case Scalar(_) => true
    case Mapping(entries) => DistinctKeys(entries) && forall i :: 0 <= i < |entries| ==> Unique(entries[i].value)
    case Sequence(items) => forall i :: 0 <= i < |items| ==> Unique(items[i])
  }

  function Read(text: string): Option<Document> {
    var node := Load(text);
    if node.None? || !Unique(node.value) then None else Some(ToDocument(node.value))
  }
}
