/** The MIME message of notifier/email.go: newline canonicalisation by three replacements, base64 lines of at
    most 76 characters, and a folded subject. The base64 and encoded-word encoders are parameters. */
module Email {
  import opened Text

  /** `strings.ReplaceAll` for a non-empty needle. */
  function ReplaceAll(s: string, needle: string, put: string): string
    requires needle != ""
  {
    if |s| < |needle| then s
    else if s[..|needle|] == needle then put + ReplaceAll(s[|needle|..], needle, put)
    else [s[0]] + ReplaceAll(s[1..], needle, put)
  }

  const CRLF: string := "\r\n"

  /** The three passes of `buildEmailMessage`. */
  function Canonical(s: string): string {
    ReplaceAll(ReplaceAll(ReplaceAll(s, CRLF, "\n"), "\r", "\n"), "\n", CRLF)
  }

  /** One pass over the text: CR, LF and CRLF each end a line. */
  function Scan(s: string): string {
    if s == "" then ""
    else if s[0] == '\r' then CRLF + Scan(if |s| > 1 && s[1] == '\n' then s[2..] else s[1..])
    else if s[0] == '\n' then CRLF + Scan(s[1..])
    else [s[0]] + Scan(s[1..])
  }

  lemma OneCharPass(c: char, put: string, s: string)
    ensures s != "" ==> ReplaceAll(s, [c], put) == (if s[0] == c then put else [s[0]]) + ReplaceAll(s[1..], [c], put)
    ensures ReplaceAll("", [c], put) == ""
  {
    if s != "" { assert s[..1] == [s[0]]; }
  }

  lemma PassOverPrefix(c: char, put: string, a: string, s: string)
    requires |a| == 1
    ensures ReplaceAll(a + s, [c], put) == (if a[0] == c then put else a) + ReplaceAll(s, [c], put)
  {
    OneCharPass(c, put, a + s);
    assert (a + s)[1..] == s;
  }

  lemma CRLFPass(s: string)
    ensures s != "" && s[0] == '\r' && |s| > 1 && s[1] == '\n' ==> ReplaceAll(s, CRLF, "\n") == "\n" + ReplaceAll(s[2..], CRLF, "\n")
    ensures s != "" && !(s[0] == '\r' && |s| > 1 && s[1] == '\n') ==> ReplaceAll(s, CRLF, "\n") == [s[0]] + ReplaceAll(s[1..], CRLF, "\n")
    ensures ReplaceAll("", CRLF, "\n") == ""
  {
    if |s| >= 2 {
      assert s[..2] == [s[0], s[1]];
    } else if |s| == 1 {
      assert s[1..] == "";
    }
  }

  lemma LaterPasses(a: string, s: string)
    requires |a| == 1
    ensures ReplaceAll(ReplaceAll(a + s, "\r", "\n"), "\n", CRLF)
            == (if a[0] == '\r' || a[0] == '\n' then CRLF else a) + ReplaceAll(ReplaceAll(s, "\r", "\n"), "\n", CRLF)
  {
    hide ReplaceAll;
    PassOverPrefix('\r', "\n", a, s);
    var b := if a[0] == '\r' then "\n" else a;
    PassOverPrefix('\n', CRLF, b, ReplaceAll(s, "\r", "\n"));
  }

  /** The three replacement passes are one scan. */
  lemma {:induction false} CanonicalIsScan(s: string)
    ensures Canonical(s) == Scan(s)
  {
    hide ReplaceAll;
    CRLFPass(s);
    if s == "" {
      OneCharPass('\r', "\n", "");
      OneCharPass('\n', CRLF, "");
    } else if s[0] == '\r' && |s| > 1 && s[1] == '\n' {
      LaterPasses("\n", ReplaceAll(s[2..], CRLF, "\n"));
      CanonicalIsScan(s[2..]);
    } else {
      LaterPasses([s[0]], ReplaceAll(s[1..], CRLF, "\n"));
      CanonicalIsScan(s[1..]);
    }
  }


  /** Canonicalising twice is canonicalising once. */
  lemma {:induction false} ScanIsIdempotent(s: string)
    ensures Scan(Scan(s)) == Scan(s)
  {
    if s != "" {
      var rest := if s[0] == '\r' && |s| > 1 && s[1] == '\n' then s[2..] else s[1..];
      ScanIsIdempotent(rest);
      if s[0] == '\r' || s[0] == '\n' {
        assert Scan(CRLF + Scan(rest)) == CRLF + Scan(Scan(rest)) by { assert (CRLF + Scan(rest))[2..] == Scan(rest); }
      } else {
        assert ([s[0]] + Scan(rest))[1..] == Scan(rest);
      }
    }
  }

  /** In canonical text every CR is followed by LF and every LF preceded by CR. */
  ghost predicate OnlyCRLF(s: string) { forall i :: 0 <= i < |s| ==> BreakFits(s, i) }

  predicate BreakFits(s: string, i: nat)
    requires i < |s|
  {
    (s[i] == '\r' ==> i + 1 < |s| && s[i + 1] == '\n') && (s[i] == '\n' ==> i > 0 && s[i - 1] == '\r')
  }

  lemma OnlyCRLFJoins(a: string, b: string)
    requires OnlyCRLF(a) && OnlyCRLF(b)
    ensures OnlyCRLF(a + b)
  {
    forall i | 0 <= i < |a + b| ensures BreakFits(a + b, i) {
      if i < |a| { assert BreakFits(a, i); } else { assert BreakFits(b, i - |a|); }
    }
  }

  lemma {:induction false} ScanIsOnlyCRLF(s: string)
    ensures OnlyCRLF(Scan(s))
  {
    hide OnlyCRLF;
    if s == "" {
      assert OnlyCRLF("") by { Pieces('x'); }
    } else {
      var rest := if s[0] == '\r' && |s| > 1 && s[1] == '\n' then s[2..] else s[1..];
      ScanIsOnlyCRLF(rest);
      Pieces(s[0]);
      OnlyCRLFJoins(if s[0] == '\r' || s[0] == '\n' then CRLF else [s[0]], Scan(rest));
    }
  }

  lemma Pieces(c: char)
    ensures OnlyCRLF("") && OnlyCRLF(CRLF) && (c != '\r' && c != '\n' ==> OnlyCRLF([c]))
  {
  }

  // -------------------------------------------------------------------------- folding

  const WIDTH: nat := 76

  /** The lines a text is folded into. */
  function Lines(s: string): (ls: seq<string>)
    ensures |ls| > 0
  {
    if |s| <= WIDTH then [s] else [s[..WIDTH]] + Lines(s[WIDTH..])
  }

  function Joined(ls: seq<string>, sep: string): string {
    if ls == [] then "" else if |ls| == 1 then ls[0] else ls[0] + sep + Joined(ls[1..], sep)
  }

  /** Folding yields lines of at most 76 characters, all but the last full, that together are the text. */
  lemma {:induction false} LinesFit(s: string)
    ensures forall i :: 0 <= i < |Lines(s)| ==> |Lines(s)[i]| <= WIDTH && (i < |Lines(s)| - 1 ==> |Lines(s)[i]| == WIDTH)
    ensures Joined(Lines(s), "") == s
  {
    if |s| > WIDTH {
      LinesFit(s[WIDTH..]);
      var ls := Lines(s);
      assert ls[1..] == Lines(s[WIDTH..]);
      forall i | 0 <= i < |ls| ensures |ls[i]| <= WIDTH && (i < |ls| - 1 ==> |ls[i]| == WIDTH) {
        if i > 0 { assert ls[i] == ls[1..][i - 1]; }
      }
      assert s == s[..WIDTH] + s[WIDTH..];
    }
  }

  /** The folding loop of `buildEmailMessage`. */
  method Fold(text: string) returns (out: string)
    ensures out == Joined(Lines(text), CRLF)
  {
    out := "";
    var rest := text;
    while |rest| > WIDTH
      invariant Joined(Lines(text), CRLF) == out + Joined(Lines(rest), CRLF)
      decreases |rest|
    {
      assert Lines(rest)[1..] == Lines(rest[WIDTH..]);
      out := out + rest[..WIDTH] + CRLF;
      rest := rest[WIDTH..];
    }
    out := out + rest;
  }

  predicate NoBreak(s: string) { '\r' !in s && '\n' !in s }

  /** Taking the line breaks out again gives the encoded text, which has none of its own. */
  lemma {:induction false} UnfoldsToText(s: string)
    requires NoBreak(s)
    ensures ReplaceAll(Joined(Lines(s), CRLF), CRLF, "") == s
  {
    if |s| <= WIDTH {
      NothingToReplace(s);
    } else {
      hide ReplaceAll, Lines, Joined;
      var (head, rest) := (s[..WIDTH], s[WIDTH..]);
      assert s == head + rest;
      assert forall c :: c in head || c in rest ==> c in s;
      UnfoldsToText(rest);
      var tail := Joined(Lines(rest), CRLF);
      LongText(s);
      SkipPlain(head, CRLF + tail);
      BreakGoes(tail);
    }
  }

  lemma LongText(s: string)
    requires |s| > WIDTH
    ensures Joined(Lines(s), CRLF) == s[..WIDTH] + (CRLF + Joined(Lines(s[WIDTH..]), CRLF))
  {
    assert Lines(s)[1..] == Lines(s[WIDTH..]);
  }

  lemma BreakGoes(tail: string)
    ensures ReplaceAll(CRLF + tail, CRLF, "") == ReplaceAll(tail, CRLF, "")
  {
    assert (CRLF + tail)[..2] == CRLF && (CRLF + tail)[2..] == tail;
  }

  lemma {:induction false} NothingToReplace(s: string)
    requires NoBreak(s)
    ensures ReplaceAll(s, CRLF, "") == s
  {
    if |s| >= 2 {
      assert s[0] in s && s[..2][0] == s[0] != CRLF[0];
      NothingToReplace(s[1..]);
    }
  }

  lemma {:induction false} SkipPlain(head: string, tail: string)
    requires NoBreak(head) && |tail| >= 2
    ensures ReplaceAll(head + tail, CRLF, "") == head + ReplaceAll(tail, CRLF, "")
  {
    if head == "" {
      assert head + tail == tail;
    } else {
      var s := head + tail;
      assert s[0] == head[0] && head[0] in head;
      assert s[..2][0] == s[0] != CRLF[0];
      assert s[1..] == head[1..] + tail;
      SkipPlain(head[1..], tail);
      assert head == [head[0]] + head[1..];
    }
  }

  // --------------------------------------------------------------------------- subject

  const FIELD: string := "Subject: "

  /** A folded white space. */
  const FOLD: string := "\r\n "

  /** The subject field: words of an encoded subject go on lines of their own, and the first one moves down
      when it does not fit beside the field name. */
  function SubjectText(subject: string, encoded: string): string {
    if encoded == subject then subject
    else
      var words := Split(encoded, ' ');
      var folded := Joined(words, FOLD);
      if words != [] && |FIELD| + |words[0]| > WIDTH then FOLD + folded else folded
  }

  /** The lines of the field as they are sent. */
  function SubjectLines(words: seq<string>): seq<string>
    requires words != []
  {
    if |FIELD| + |words[0]| > WIDTH then [FIELD] + Indented(words) else [FIELD + words[0]] + Indented(words[1..])
  }

  function Indented(words: seq<string>): (ls: seq<string>)
    ensures |ls| == |words| && forall i :: 0 <= i < |words| ==> ls[i] == " " + words[i]
  {
    seq(|words|, i requires 0 <= i < |words| => " " + words[i])
  }

  lemma JoinedStep(ls: seq<string>, sep: string)
    requires ls != []
    ensures Joined(ls, sep) == if |ls| == 1 then ls[0] else ls[0] + sep + Joined(ls[1..], sep)
  {
  }

  lemma FoldStep(first: string, word: string, tail: string)
    ensures first + CRLF + (" " + word + tail) == first + FOLD + (word + tail)
  {
    assert FOLD == CRLF + " ";
  }

  lemma {:induction false} JoinedIndented(first: string, words: seq<string>)
    ensures Joined([first] + Indented(words), CRLF) == (if words == [] then first else first + FOLD + Joined(words, FOLD))
    decreases |words|
  {
    hide Joined;
    var ls := [first] + Indented(words);
    JoinedStep(ls, CRLF);
    if words != [] {
      var (word, rest) := (words[0], words[1..]);
      assert ls[1..] == Indented(words) == [" " + word] + Indented(rest);
      JoinedIndented(" " + word, rest);
      JoinedStep(words, FOLD);
      var tail := if rest == [] then "" else FOLD + Joined(rest, FOLD);
      Grouped(" " + word, FOLD, Joined(rest, FOLD));
      Grouped(word, FOLD, Joined(rest, FOLD));
      FoldStep(first, word, tail);
    }
  }

  lemma SubjectJoins(words: seq<string>)
    requires words != []
    ensures Joined(SubjectLines(words), CRLF)
            == FIELD + (if |FIELD| + |words[0]| > WIDTH then FOLD + Joined(words, FOLD) else Joined(words, FOLD))
  {
    hide Joined, Indented;
    if |FIELD| + |words[0]| > WIDTH {
      JoinedIndented(FIELD, words);
      Grouped(FIELD, FOLD, Joined(words, FOLD));
    } else {
      BesideField(FIELD, words);
    }
  }

  lemma Grouped(a: string, b: string, c: string)
    ensures a + (b + c) == a + b + c
  {
  }

  lemma BesideField(field: string, words: seq<string>)
    requires words != []
    ensures Joined([field + words[0]] + Indented(words[1..]), CRLF) == field + Joined(words, FOLD)
  {
    hide Joined, Indented;
    var (first, rest) := (field + words[0], words[1..]);
    JoinedIndented(first, rest);
    JoinedStep(words, FOLD);
    if rest != [] {
      var tail := Joined(rest, FOLD);
      Grouped(field, words[0] + FOLD, tail);
      Grouped(field, words[0], FOLD);
    }
  }

  lemma IndentedWidths(words: seq<string>)
    requires forall w :: w in words ==> |w| < WIDTH
    ensures forall l :: l in Indented(words) ==> |l| <= WIDTH
  {
    forall l | l in Indented(words) ensures |l| <= WIDTH {
      var i :| 0 <= i < |words| && Indented(words)[i] == l;
      assert words[i] in words;
    }
  }

  lemma SubjectWidths(words: seq<string>)
    requires words != [] && forall w :: w in words ==> |w| < WIDTH
    ensures forall l :: l in SubjectLines(words) ==> |l| <= WIDTH
  {
    hide Indented;
    IndentedWidths(words);
    assert forall w :: w in words[1..] ==> w in words;
    IndentedWidths(words[1..]);
  }

  /** Encoded words of at most 75 characters, as encoders make them, give subject lines of at most 76. */
  lemma SubjectLinesFit(subject: string, encoded: string)
    requires encoded != subject && forall w :: w in Split(encoded, ' ') ==> |w| < WIDTH
    ensures FIELD + SubjectText(subject, encoded) == Joined(SubjectLines(Split(encoded, ' ')), CRLF)
    ensures forall l :: l in SubjectLines(Split(encoded, ' ')) ==> |l| <= WIDTH
  {
    hide Split, Joined, SubjectLines;
    SubjectJoins(Split(encoded, ' '));
    SubjectWidths(Split(encoded, ' '));
  }

  /** `buildEmailMessage`, with the encoded subject and the body encoder as parameters. */
  method BuildMessage(sender: string, recipient: string, subject: string, encoded: string, body: string, base64: string -> string)
    returns (message: string)
    ensures message == "From: " + sender + CRLF + "To: " + recipient + CRLF + FIELD + SubjectText(subject, encoded) + CRLF
                       + "MIME-Version: 1.0" + CRLF + "Content-Type: text/plain; charset=UTF-8" + CRLF
                       + "Content-Transfer-Encoding: base64" + CRLF + CRLF + Joined(Lines(base64(Scan(body))), CRLF)
  {
    hide ReplaceAll, SubjectText, Lines, Joined, Scan, Canonical;
    CanonicalIsScan(body);
    var folded := Fold(base64(Canonical(body)));
    message := "From: " + sender + CRLF + "To: " + recipient + CRLF + FIELD + SubjectText(subject, encoded) + CRLF
               + "MIME-Version: 1.0" + CRLF + "Content-Type: text/plain; charset=UTF-8" + CRLF
               + "Content-Transfer-Encoding: base64" + CRLF + CRLF + folded;
  }
}
