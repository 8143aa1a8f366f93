/** The unified port list and its per-platform wire form (internal/portconv/portconv.go,
    provider/plan.go). */
module Ports {
  import opened Text
  import opened Tag

  /** The trimmed, non-empty entries of a comma-separated list, in order. */
  function NonBlankParts(parts: seq<string>): seq<string> {
    if parts == [] then []
    else
      var last := parts[|parts| - 1];
      var rest := NonBlankParts(parts[..|parts| - 1]);
      var t := Trim(last);
      if t == "" then rest else rest + [t]
  }

  /** What `portconv.Parse` returns. */
  function ParseSpec(ports: string): seq<string> {
    var t := Trim(ports);
    if t == "" || EqualFold(t, "ALL") then ["ALL"] else NonBlankParts(Split(t, ','))
  }

  lemma NonBlankPartsAre(parts: seq<string>, c: char)
    requires forall q :: q in parts ==> c !in q
    ensures forall p :: p in NonBlankParts(parts) ==> p != "" && Trimmed(p) && c !in p
  {
    hide Trim, Trimmed;
    if parts != [] {
      var init, last := parts[..|parts| - 1], parts[|parts| - 1];
      assert last in parts;
      NonBlankPartsAre(init, c);
      TrimKeepsOut(last, c);
      TrimTrims(last);
    }
  }

  /** Items are never empty, never padded, and hold no comma. */
  lemma ItemsAre(ports: string, p: string)
    requires p in ParseSpec(ports)
    ensures p != "" && Trimmed(p) && ',' !in p
  {
    hide Trim, EqualFold, NonBlankParts, Split;
    NonBlankPartsAre(Split(Trim(ports), ','), ',');
  }

  method Parse(ports: string) returns (items: seq<string>)
    ensures items == ParseSpec(ports)
  {
    hide Trim, EqualFold, Split;
    var t := Trim(ports);
    if t == "" || EqualFold(t, "ALL") {
      return ["ALL"];
    }
    var parts := Split(t, ',');
    items := [];
    for i := 0 to |parts|
      invariant items == NonBlankParts(parts[..i])
    {
      assert parts[..i + 1][..i] == parts[..i];
      var p := Trim(parts[i]);
      if p != "" {
        items := items + [p];
      }
    }
    assert parts[..|parts|] == parts;
  }

  /** "80" is "80/80", "8000-8010" is "8000/8010", "ALL" is "-1/-1". */
  function ToSlash(port: string): string {
    if EqualFold(port, "ALL") then "-1/-1"
    else
      var i := IndexOf(port, '-');
      if i < |port| then port[..i] + "/" + port[i + 1..] else port + "/" + port
  }

  predicate Alibaba(ct: CloudType) { ct == AliECS || ct == AliSWAS }

  /** `ExpandPorts` on one item: the only way the planner uses it. */
  function ExpandItem(ct: CloudType, item: string): string {
    var p := if EqualFold(Trim(item), "ALL") || Trim(item) == "" then "ALL" else Trim(item);
    if Alibaba(ct) then ToSlash(p) else p
  }

  predicate PortedProtocol(protocol: string) {
    EqualFold(protocol, "TCP") || EqualFold(protocol, "UDP") || EqualFold(protocol, "TCP+UDP")
  }

  /** The wire form of one port item; an Alibaba TCP/UDP item ALL is the full range. */
  function WireItem(ct: CloudType, protocol: string, item: string): string {
    ExpandItem(ct, if Alibaba(ct) && PortedProtocol(protocol) && EqualFold(item, "ALL") then "1-65535" else item)
  }

  /** One wire port per item; the raw text when there is no item at all. */
  function PlannedPortsSpec(ct: CloudType, protocol: string, ports: string): (wire: seq<string>)
    ensures wire != []
  {
    var items := ParseSpec(ports);
    if items == [] then [ports]
    else seq(|items|, i requires 0 <= i < |items| => WireItem(ct, protocol, items[i]))
  }

  method ExpandPlannedPorts(ct: CloudType, protocol: string, ports: string) returns (wire: seq<string>)
    ensures wire == PlannedPortsSpec(ct, protocol, ports)
  {
    hide ParseSpec, ExpandItem, EqualFold, PortedProtocol;
    var items := Parse(ports);
    if |items| == 0 {
      return [ports];
    }
    wire := [];
    for i := 0 to |items|
      invariant |wire| == i
      invariant forall j :: 0 <= j < i ==> wire[j] == WireItem(ct, protocol, items[j])
    {
      var item := items[i];
      if Alibaba(ct) && PortedProtocol(protocol) && EqualFold(item, "ALL") {
        item := "1-65535";
      }
      wire := wire + [ExpandItem(ct, item)];
    }
  }

  // --------------------------------------------------- ports that come back

  /** A number, or two numbers joined by one dash. */
  predicate Range(item: string) {
    var i := IndexOf(item, '-');
    if i == |item| then Digits(item) else Digits(item[..i]) && Digits(item[i + 1..])
  }

  /** The items an Alibaba platform gives back as the ports they were planned as: ALL, and everything without
      a slash but "-" and "-1", unless the halves around its first dash differ in case alone. */
  predicate ComesBack(item: string) {
    || EqualFold(item, "ALL")
    || (&& '/' !in item && item != "-" && item != "-1"
        && var i := IndexOf(item, '-');
           i < |item| ==> (item[..i] == item[i + 1..] <==> Upper(item[..i]) == Upper(item[i + 1..])))
  }

  /** A port list every item of which a platform gives back, with at least one item. */
  predicate PortsComeBack(ct: CloudType, ports: string) {
    ParseSpec(ports) != [] && (Alibaba(ct) ==> forall p :: p in ParseSpec(ports) ==> ComesBack(p))
  }
}
