/** One port item on its way through an Alibaba platform: written in slash form, read back in dash form
    (provider/ali_ecs.go, ali_swas.go), and exactly when both are the same canonical port. */
module PortRoundTrip {
  import opened Text
  import opened Tag
  import opened Ports
  import opened Keys

  /** "80/80" is "80", "8000/8010" is "8000-8010", "-1/-1" and "" are "ALL". */
  function NormalizeAliPort(port: string): string {
    if port == "-1/-1" || port == "" then "ALL"
    else
      var i := IndexOf(port, '/');
      if i == |port| then port
      else if port[..i] == port[i + 1..] then port[..i]
      else port[..i] + "-" + port[i + 1..]
  }

  predicate Ported(proto: string) { proto != "ICMP" && proto != "ALL" }

  // ------------------------------------------------------------------ cutting at a slash

  lemma SlashIsFixed(c: char)
    ensures UpperChar(c) == '/' <==> c == '/'
    ensures UpperChar(c) == '-' <==> c == '-'
  {
  }

  /** The first slash of `a/b` is the one between its halves, in upper case too. */
  lemma Cut(a: string, b: string)
    requires '/' !in a
    ensures var w := a + "/" + b; IndexOf(w, '/') == |a| && w[..|a|] == a && w[|a| + 1..] == b
    ensures var u := Upper(a + "/" + b); IndexOf(u, '/') == |a| < |u| && u[..|a|] == Upper(a) && u[|a| + 1..] == Upper(b)
  {
    hide UpperChar;
    var w := a + "/" + b;
    var u := Upper(w);
    SlashIsFixed('/');
    forall k | 0 <= k < |a| ensures w[k] != '/' && u[k] != '/' {
      assert w[k] in a;
      SlashIsFixed(w[k]);
    }
    assert u[|a|] == UpperChar('/');
    IndexOfAt(w, '/', |a|);
    IndexOfAt(u, '/', |a|);
  }

  /** Without its two special forms a slash port is canonically its halves around a dash, or one of them. */
  lemma CanonicalCut(proto: string, a: string, b: string)
    requires Ported(proto) && '/' !in a && Trimmed(a + "/" + b) && Upper(a + "/" + b) != "-1/-1"
    ensures CanonicalPort(proto, a + "/" + b) == if Upper(a) == Upper(b) then Upper(a) else Upper(a) + "-" + Upper(b)
  {
    hide Upper, Trim, Trimmed, IndexOf;
    TrimOfTrimmed(a + "/" + b);
    Cut(a, b);
    var u := Upper(a + "/" + b);
    assert u[|a|] == '/';
    assert u != "ALL" && u != "-1" && u != "" by { assert forall k :: 0 <= k < 3 ==> "ALL"[k] != '/'; assert forall k :: 0 <= k < 2 ==> "-1"[k] != '/'; }
  }

  lemma NormalizeCut(a: string, b: string)
    requires '/' !in a && a + "/" + b != "-1/-1"
    ensures NormalizeAliPort(a + "/" + b) == if a == b then a else a + "-" + b
  {
    hide IndexOf;
    Cut(a, b);
  }

  lemma NoSlashUpper(p: string)
    ensures '/' in Upper(p) <==> '/' in p
    ensures '-' in Upper(p) <==> '-' in p
  {
    hide UpperChar;
    var u := Upper(p);
    forall i | 0 <= i < |p| ensures (u[i] == '/' <==> p[i] == '/') && (u[i] == '-' <==> p[i] == '-') { SlashIsFixed(p[i]); }
    if '/' in p { var i :| 0 <= i < |p| && p[i] == '/'; assert u[i] == '/'; }
    if '-' in p { var i :| 0 <= i < |p| && p[i] == '-'; assert u[i] == '-'; }
  }

  lemma CanonicalWhole(proto: string, p: string)
    requires Ported(proto) && Trimmed(p) && '/' !in p
    ensures CanonicalPort(proto, p) == if Upper(p) in {"", "ALL", "-1"} then "ALL" else Upper(p)
  {
    hide Upper, Trim, Trimmed;
    TrimOfTrimmed(p);
    NoSlashUpper(p);
    IndexOfNone(Upper(p), '/');
    assert "-1/-1"[2] == '/';
  }

  /** Canonicalising a port that holds a slash changes it. */
  lemma CanonicalMovesSlash(proto: string, p: string)
    requires Ported(proto) && Trimmed(p) && '/' in p
    ensures CanonicalPort(proto, p) != Upper(p)
  {
    hide Trim, Trimmed;
    TrimOfTrimmed(p);
    var i := IndexOf(p, '/');
    assert p[..|p|] == p;
    var (a, b) := (p[..i], p[i + 1..]);
    assert p == a + "/" + b;
    if Upper(p) != "-1/-1" {
      CanonicalCut(proto, a, b);
      Cut(a, b);
      assert Upper(p)[i] == '/' && |Upper(a)| == i && |Upper(b)| == |p| - i - 1;
      if Upper(a) != Upper(b) { assert (Upper(a) + "-" + Upper(b))[i] == '-'; }
    }
  }

  lemma UpperConcat(a: string, b: string)
    ensures Upper(a + b) == Upper(a) + Upper(b)
  {
  }


  lemma UpperJoined(a: string, b: string)
    ensures Upper(a + "-" + b) == Upper(a) + "-" + Upper(b)
  {
    hide Upper;
    UpperConcat(a + "-", b);
    UpperConcat(a, "-");
    assert Upper("-") == "-";
  }

  // ----------------------------------------------------------------------- the theorem

  /** Whether the port written as `w` is read back as the port it was written for. */
  predicate SamePort(proto: string, w: string) { CanonicalPort(proto, NormalizeAliPort(w)) == CanonicalPort(proto, w) }

  /** A clean text: what a port field can hold as one part. */
  predicate Clean(p: string) { Trimmed(p) && ',' !in p }

  lemma DashKeepsClean(a: string, b: string)
    requires Clean(a + "/" + b)
    ensures Clean(a + "-" + b)
  {
    var (w, d) := (a + "/" + b, a + "-" + b);
    if a != "" { assert d[0] == w[0] == a[0]; }
    if b != "" { assert d[|d| - 1] == w[|w| - 1] == b[|b| - 1]; }
    forall c | c in d ensures c != ',' { if c in a || c in b { assert c in w; } }
  }

  /** An item with a slash of its own never comes back: the slash moves at every canonicalisation. */
  lemma SecondSlash(proto: string, x: string, rest: string)
    requires Ported(proto) && '/' !in x && '/' in rest && Clean(x + "/" + rest) && Upper(x + "/" + rest) != "-1/-1"
    ensures var w := x + "/" + rest; !SamePort(proto, w) && NormalizeAliPort(w) != "" && Clean(NormalizeAliPort(w))
  {
    hide Upper, IndexOf, CanonicalPort, Trimmed, NormalizeAliPort, Ported;
    var (w, back) := (x + "/" + rest, x + "-" + rest);
    NoSlashUpper(x);
    NoSlashUpper(rest);
    assert w != "-1/-1" by { if w == "-1/-1" { PlainIsFixed("-1/-1"); } }
    NormalizeCut(x, rest);
    CanonicalCut(proto, x, rest);
    UpperJoined(x, rest);
    assert CanonicalPort(proto, w) == Upper(back);
    DashKeepsClean(x, rest);
    InConcat(x + "-", rest, '/');
    CanonicalMovesSlash(proto, back);
  }


  /** An item without slashes: its wire form is its halves around a slash, a single port twice. */
  lemma OneSlash(proto: string, a: string, b: string)
    requires Ported(proto) && '/' !in a && '/' !in b && '-' !in a && Clean(a + "/" + b)
    requires a == b ==> Clean(a)
    ensures var w := a + "/" + b;
            && (SamePort(proto, w)
                <==> if a == b then Upper(a) != "" else Upper(a) != Upper(b) && Upper(a + "-" + b) != "-1")
            && (NormalizeAliPort(w) == "" <==> a == b == "") && Clean(NormalizeAliPort(w))
  {
    hide Upper, IndexOf, CanonicalPort, NormalizeAliPort, Trimmed, Ported;
    NotMinusOnes(a, b);
    NormalizeCut(a, b);
    CanonicalCut(proto, a, b);
    if a == b {
      NoSlashUpper(a);
      CanonicalWhole(proto, a);
      assert "-1"[0] == '-';
    } else {
      UpperJoined(a, b);
      DashKeepsClean(a, b);
      DashedWhole(proto, a, b);
    }
  }

  /** Halves around a dash are a canonical port, unless they are the text for all ports. */
  lemma DashedWhole(proto: string, a: string, b: string)
    requires Ported(proto) && '/' !in a && '/' !in b && Trimmed(a + "-" + b)
    ensures var back := a + "-" + b; CanonicalPort(proto, back) == if Upper(back) == "-1" then "ALL" else Upper(back)
  {
    hide Upper, CanonicalPort, Trimmed, Ported;
    var back := a + "-" + b;
    UpperJoined(a, b);
    InConcat(a + "-", b, '/');
    CanonicalWhole(proto, back);
    assert |Upper(a)| == |a|;
    assert Upper(back)[|a|] == '-';
    assert Upper(back) != "" && Upper(back) != "ALL" by { assert forall k :: 0 <= k < 3 ==> "ALL"[k] != '-'; }
  }


  lemma NotMinusOnes(a: string, b: string)
    requires '-' !in a
    ensures a + "/" + b != "-1/-1" && Upper(a + "/" + b) != "-1/-1"
  {
    var w := a + "/" + b;
    if a != "" {
      assert w[0] == a[0] && a[0] in a;
      SlashIsFixed(w[0]);
    } else {
      assert w[0] == '/';
    }
    assert Upper(w)[0] == UpperChar(w[0]) && "-1/-1"[0] == '-';
  }

  /** The wire form of an item that is not ALL. */
  lemma WireOfItem(ct: CloudType, proto: string, item: string)
    requires Alibaba(ct) && item != "" && Trimmed(item) && !EqualFold(item, "ALL")
    ensures WireItem(ct, proto, item) == ToSlash(item)
  {
    hide Trim, EqualFold, ToSlash, PortedProtocol;
    TrimOfTrimmed(item);
  }

  lemma FullRange(ct: CloudType, proto: string, item: string)
    requires Alibaba(ct) && proto in {"TCP", "UDP", "TCP+UDP"} && EqualFold(item, "ALL")
    ensures WireItem(ct, proto, item) == "1" + "/" + "65535"
  {
    hide Trim, EqualFold;
    var s := "1-65535";
    assert PortedProtocol(proto) by { assert EqualFold(proto, "TCP") || EqualFold(proto, "UDP") || EqualFold(proto, "TCP+UDP") by { SameFolds(proto); } }
    PlainIsFixed(s);
    assert !EqualFold(s, "ALL") by { FoldLengths(s, "ALL"); }
    IndexOfAt(s, '-', 1);
    assert s[..1] == "1" && s[2..] == "65535";
  }

  lemma SameFolds(p: string)
    ensures EqualFold(p, p)
  {
  }

  lemma FoldLengths(p: string, q: string)
    requires |p| != |q|
    ensures !EqualFold(p, q)
  {
    assert |Upper(p)| == |p| && |Upper(q)| == |q|;
  }

  /** Read back in dash form or compared in slash form, an Alibaba port is the same port if and only if its
      item comes back; what is read back is always one clean part, and blank only for the item "-". */
  lemma AliPortRoundTripExact(ct: CloudType, proto: string, item: string)
    requires Alibaba(ct) && proto in {"TCP", "UDP", "TCP+UDP"} && item != "" && Trimmed(item) && ',' !in item
    ensures SamePort(proto, WireItem(ct, proto, item)) <==> ComesBack(item)
    ensures var back := NormalizeAliPort(WireItem(ct, proto, item)); Clean(back) && (back == "" <==> item == "-")
  {
    hide WireItem, SamePort, EqualFold, NormalizeAliPort;
    if EqualFold(item, "ALL") {
      FullRange(ct, proto, item);
      OneSlash(proto, "1", "65535");
      assert Upper("1") == "1" && |Upper("65535")| == 5 && |Upper("1-65535")| == 7 && "1" + "-" + "65535" == "1-65535";
      assert |item| == 3 by { if |item| != 3 { FoldLengths(item, "ALL"); } }
      assert "1"[0] == '1' && "65535" != "1";
    } else {
      WireOfItem(ct, proto, item);
      ItemExact(proto, item);
    }
  }

  lemma ItemExact(proto: string, item: string)
    requires Ported(proto) && item != "" && Trimmed(item) && ',' !in item && !EqualFold(item, "ALL")
    ensures SamePort(proto, ToSlash(item)) <==> ComesBack(item)
    ensures var back := NormalizeAliPort(ToSlash(item)); Clean(back) && (back == "" <==> item == "-")
  {
    hide SamePort, EqualFold, NormalizeAliPort, Upper, ComesBack, Clean, IndexOf, Trimmed, Ported;
    var i := IndexOf(item, '-');
    assert item[..|item|] == item;
    if i == |item| {
      HalvesAreClean(item, i, item, item);
      if '/' in item { SlashInHead(proto, item, item, item); } else { SinglePort(proto, item); }
    } else {
      var (a, b) := (item[..i], item[i + 1..]);
      HalvesAreClean(item, i, a, b);
      assert item == a + "-" + b && '-' !in a;
      if '/' in a {
        SlashInHead(proto, item, a, b);
      } else if '/' in b {
        SlashInTail(proto, item, a, b);
      } else {
        DashedPort(proto, item, a, b);
      }
    }
  }

  lemma SinglePort(proto: string, item: string)
    requires Ported(proto) && item != "" && '/' !in item && '-' !in item && !EqualFold(item, "ALL")
    requires Clean(item + "/" + item) && Clean(item)
    ensures SamePort(proto, item + "/" + item) && ComesBack(item)
    ensures var back := NormalizeAliPort(item + "/" + item); Clean(back) && back != "" && item != "-"
  {
    hide SamePort, EqualFold, NormalizeAliPort, Upper, Clean, Ported;
    OneSlash(proto, item, item);
    assert |Upper(item)| == |item|;
    assert "-"[0] == '-' && "-1"[0] == '-';
    IndexOfNone(item, '-');
  }

  lemma DashedPort(proto: string, item: string, a: string, b: string)
    requires Ported(proto) && item == a + "-" + b && '/' !in a && '/' !in b && '-' !in a && !EqualFold(item, "ALL")
    requires Clean(a + "/" + b) && (a == b ==> Clean(a))
    ensures SamePort(proto, a + "/" + b) <==> ComesBack(item)
    ensures var back := NormalizeAliPort(a + "/" + b); Clean(back) && (back == "" <==> item == "-")
  {
    hide SamePort, EqualFold, NormalizeAliPort, Upper, Clean, Ported, IndexOf;
    OneSlash(proto, a, b);
    DashedItem(item, a, b);
    assert '/' !in item by { assert '/' != '-'; }
  }

  lemma SlashInHead(proto: string, item: string, a: string, b: string)
    requires Ported(proto) && '/' in a && '/' in item && '-' !in a && Clean(a + "/" + b) && !EqualFold(item, "ALL")
    ensures !SamePort(proto, a + "/" + b) && !ComesBack(item)
    ensures var back := NormalizeAliPort(a + "/" + b); Clean(back) && back != "" && item != "-"
  {
    hide SamePort, EqualFold, NormalizeAliPort, Upper, IndexOf, Clean, Ported;
    NotMinusOnes(a, b);
    assert "-" == ['-'];
    var j := IndexOf(a, '/');
    assert a[..|a|] == a;
    var (x, tail) := (a[..j], a[j + 1..]);
    var rest := tail + "/" + b;
    assert a + "/" + b == x + "/" + rest;
    assert rest[|tail|] == '/';
    SecondSlash(proto, x, rest);
  }

  lemma SlashInTail(proto: string, item: string, a: string, b: string)
    requires Ported(proto) && item == a + "-" + b && '/' !in a && '/' in b && '-' !in a && Clean(a + "/" + b)
    requires !EqualFold(item, "ALL")
    ensures !SamePort(proto, a + "/" + b) && !ComesBack(item)
    ensures var back := NormalizeAliPort(a + "/" + b); Clean(back) && back != "" && item != "-"
  {
    hide SamePort, EqualFold, NormalizeAliPort, Upper, IndexOf, Clean, Ported;
    NotMinusOnes(a, b);
    assert '/' in item;
    assert "-" == ['-'];
    SecondSlash(proto, a, b);
  }

  lemma HalvesAreClean(item: string, i: nat, a: string, b: string)
    requires item != "" && Trimmed(item) && ',' !in item && i <= |item|
    requires if i < |item| then a == item[..i] && b == item[i + 1..] else a == b == item
    ensures Clean(a + "/" + b) && (a == b ==> Clean(a))
  {
    var w := a + "/" + b;
    if a != "" { assert w[0] == a[0] == item[0]; }
    if b != "" { assert w[|w| - 1] == b[|b| - 1] == item[|item| - 1]; }
    forall c | c in w ensures c != ',' { if c in a || c in b { assert c in item; } }
    forall c | c in a ensures c != ',' { assert c in item; }
  }

  lemma DashedItem(item: string, a: string, b: string)
    requires item == a + "-" + b && '-' !in a
    ensures item == "-" <==> a == b == ""
    ensures Upper(item) == "-1" <==> item == "-1"
    ensures Upper(a) == "" <==> a == ""
    ensures IndexOf(item, '-') == |a| && item[..|a|] == a && item[|a| + 1..] == b
  {
    forall k | 0 <= k < |a| ensures item[k] != '-' { assert item[k] in a; }
    IndexOfAt(item, '-', |a|);
    if Upper(item) == "-1" {
      assert |item| == 2 && UpperChar(item[0]) == '-' && UpperChar(item[1]) == '1';
      assert item[0] == '-' && item[1] == '1';
      assert item == "-1";
    }
    if item == "-1" { assert Upper(item) == "-1"; }
    if item == "-" { assert |a| + |b| == 0; }
  }

  /** ALL, a number, and two numbers around a dash all come back. */
  lemma RangesComeBack(item: string)
    requires EqualFold(item, "ALL") || Range(item)
    ensures ComesBack(item)
  {
    hide EqualFold;
    if !EqualFold(item, "ALL") {
      var i := IndexOf(item, '-');
      assert item[..|item|] == item;
      if i == |item| {
        DigitsUpper(item);
        assert "-"[0] == '-' && "-1"[0] == '-';
      } else {
        var (a, b) := (item[..i], item[i + 1..]);
        DigitsUpper(a);
        DigitsUpper(b);
        assert item == a + "-" + b && item[0] == a[0] && a[0] in a;
      }
    }
  }

  lemma DigitsUpper(s: string)
    requires Digits(s)
    ensures Upper(s) == s && '/' !in s && '-' !in s
  {
    forall i | 0 <= i < |s| ensures UpperChar(s[i]) == s[i] { assert s[i] in s; }
  }
}
