/** Ownership by TAG (internal/tag/tag.go), TAG validation (config/validate.go) and the
    rendering and truncation of rule descriptions (provider/plan.go). */
module Tag {
  import opened Text

  datatype CloudType = TCLighthouse | TCCVM | AliSWAS | AliECS

  const MAX_TAG_RUNES := 48

  predicate IsControl(c: char) {
    c < ' ' || ('\U{007F}' <= c <= '\U{009F}')
  }

  /** `NormalizeTag`: the trimmed TAG, or None when it is rejected. */
  function NormalizeTag(v: string): Option<string> {
    var s := Trim(v);
    if s == [] then None
    else if |s| > MAX_TAG_RUNES then None
    else if '[' in s || ']' in s then None
    else if exists c :: c in s && IsControl(c) then None
    else Some(s)
  }

  function Prefix(tag: string): string { "[" + tag + "]" }

  function Format(tag: string, comment: string): string {
    if comment == "" then Prefix(tag) else Prefix(tag) + " " + comment
  }

  /** A description belongs to a TAG when it is exactly "[TAG]" or starts with "[TAG] ". */
  predicate IsOwned(description: string, tag: string) {
    description == Prefix(tag) || Prefix(tag) + " " <= description
  }

  function Parse(description: string, tag: string): Option<string> {
    if !IsOwned(description, tag) then None else Some(Trim(description[|Prefix(tag)|..]))
  }

  /** The description limit of a platform in runes; None where there is none. */
  function DescriptionLimit(ct: CloudType): Option<nat> {
    match ct
    case TCLighthouse => Some(64)
    case AliSWAS => Some(50)
    case _ => None
  }

  function TruncateDescription(ct: CloudType, desc: string): string {
    match DescriptionLimit(ct)
    case None => desc
    case Some(limit) =>
      if |desc| <= limit then desc
      else
        var bracket := IndexOf(desc, ']');
        if bracket < |desc| && bracket + 1 > limit then desc[..bracket + 1]
        else desc[..limit]
  }

  function RenderDescription(ct: CloudType, tag: string, comment: string): string {
    TruncateDescription(ct, Format(tag, comment))
  }

  // -------------------------------------------------------------- properties

  lemma FirstBracket(tag: string, rest: string)
    requires ']' !in tag
    ensures IndexOf(Prefix(tag) + rest, ']') == |tag| + 1
  {
    var d := Prefix(tag) + rest;
    forall k | 0 <= k < |tag| + 1 ensures d[k] != ']' {
      if k > 0 { assert d[k] == tag[k - 1]; }
    }
    IndexOfAt(d, ']', |tag| + 1);
  }

  /** Whatever the comment and the platform limit, what is rendered for a TAG stays inside that
      TAG's namespace: truncation never eats the prefix nor the space that follows it alone. */
  lemma RenderedStaysOwned(ct: CloudType, tag: string, comment: string)
    requires ']' !in tag
    ensures IsOwned(RenderDescription(ct, tag, comment), tag)
  {
    var d := Format(tag, comment);
    var p := Prefix(tag);
    var rest := if comment == "" then "" else " " + comment;
    assert d == p + rest;
    FirstBracket(tag, rest);
    match DescriptionLimit(ct)
    case None =>
    case Some(limit) =>
      if |d| > limit {
        assert d[..|p|] == p;
        if |p| < limit {
          assert p + " " <= d[..limit];
        }
      }
  }

  /** For an accepted TAG the rendered description fits the platform, 64 characters at Tencent Lighthouse and 50
      at Alibaba SWAS, and is as much of the full text as fits. */
  lemma RenderedFits(ct: CloudType, raw: string, comment: string)
    requires NormalizeTag(raw).Some?
    ensures var (tag, r) := (NormalizeTag(raw).value, RenderDescription(ct, NormalizeTag(raw).value, comment));
            var full := "[" + tag + "]" + if comment == "" then "" else " " + comment;
            match ct
            case TCLighthouse => r == if |full| <= 64 then full else full[..64]
            case AliSWAS => r == if |full| <= 50 then full else full[..50]
            case _ => r == full
  {
    hide Trim, IsControl, IndexOf;
    var tag := NormalizeTag(raw).value;
    var rest := if comment == "" then "" else " " + comment;
    FirstBracket(tag, rest);
    assert Format(tag, comment) == Prefix(tag) + rest && |tag| <= 48;
    assert IndexOf(Format(tag, comment), ']') == |tag| + 1;
  }

  /** No description is owned by two different bracket-free TAGs. */
  lemma OwnerIsUnique(description: string, a: string, b: string)
    requires ']' !in a && ']' !in b
    requires IsOwned(description, a) && IsOwned(description, b)
    ensures a == b
  {
    var ra := description[|Prefix(a)|..];
    var rb := description[|Prefix(b)|..];
    assert description == Prefix(a) + ra == Prefix(b) + rb;
    FirstBracket(a, ra);
    FirstBracket(b, rb);
    assert a == description[1..|a| + 1] && b == description[1..|b| + 1];
  }

  /** Two syncers with different accepted TAGs: nothing one of them renders is owned by the other. */
  lemma RenderedIsNotForeign(ct: CloudType, rawMine: string, rawOther: string, comment: string)
    requires NormalizeTag(rawMine).Some? && NormalizeTag(rawOther).Some?
    requires NormalizeTag(rawMine) != NormalizeTag(rawOther)
    ensures var mine, other := NormalizeTag(rawMine).value, NormalizeTag(rawOther).value;
            var d := RenderDescription(ct, mine, comment);
            IsOwned(d, mine) && !IsOwned(d, other)
  {
    var mine, other := NormalizeTag(rawMine).value, NormalizeTag(rawOther).value;
    RenderedStaysOwned(ct, mine, comment);
    if IsOwned(RenderDescription(ct, mine, comment), other) {
      OwnerIsUnique(RenderDescription(ct, mine, comment), mine, other);
    }
  }

  /** The bracket check of TAG validation is needed: a TAG "a] b" would own what the TAG "a" renders for any
      comment of the form "b] c", on every platform whose limit leaves room for its prefix, and only there. */
  lemma BracketsWouldCollide(ct: CloudType, a: string, b: string, c: string)
    ensures IsOwned(RenderDescription(ct, a, b + "] " + c), a + "] " + b)
            <==> DescriptionLimit(ct).None? || |Prefix(a + "] " + b)| <= DescriptionLimit(ct).value
  {
    var (p, d) := (Prefix(a + "] " + b), Format(a, b + "] " + c));
    assert b + "] " + c != "";
    assert d == p + (" " + c);
    assert d[|a| + 1] == ']';
    if DescriptionLimit(ct).Some? && |d| > DescriptionLimit(ct).value {
      var limit := DescriptionLimit(ct).value;
      if |p| < limit { assert d[..limit][..|p| + 1] == p + " "; }
    } else {
      assert p + " " <= d;
    }
  }

  /** `Parse` undoes `Format` up to the trimming both sides of the repository apply to comments. */
  lemma ParseUndoesFormat(tag: string, comment: string)
    ensures Parse(Format(tag, comment), tag) == Some(Trim(comment))
  {
    hide Trim;
    var d := Format(tag, comment);
    if comment == "" {
      assert d[|Prefix(tag)|..] == "";
    } else {
      assert Prefix(tag) + " " <= d;
      assert d[|Prefix(tag)|..] == " " + comment;
      LeadingSpaceGoes(comment);
    }
  }

  lemma LeadingSpaceGoes(s: string)
    ensures Trim(" " + s) == Trim(s)
  {
    assert (" " + s)[1..] == s;
    assert TrimLeft(" " + s) == TrimLeft(s);
  }
}
