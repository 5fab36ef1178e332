/** The detached signature file of an evidence pack: writing, parsing, and when parsing undoes
    writing. */
module Evidence {

  /** White space as Go's strings.TrimSpace takes it. */
  predicate IsSpace(c: char) {
    || '\t' <= c <= '\r' || c == ' ' || c == '\U{0085}' || c == '\U{00A0}' || c == '\U{1680}'
    || '\U{2000}' <= c <= '\U{200A}'
    || c == '\U{2028}' || c == '\U{2029}' || c == '\U{202F}' || c == '\U{205F}' || c == '\U{3000}'
  }

  predicate Blank(s: string) {
    forall i :: 0 <= i < |s| ==> IsSpace(s[i])
  }

  function TrimStart(s: string): string {
    if s != "" && IsSpace(s[0]) then TrimStart(s[1..]) else s
  }

  function TrimEnd(s: string): string {
    if s != "" && IsSpace(s[|s| - 1]) then TrimEnd(s[..|s| - 1]) else s
  }

  function Trim(s: string): string {
    TrimEnd(TrimStart(s))
  }

  function DropNewlines(s: string): string {
    if s != "" && s[|s| - 1] == '\n' then DropNewlines(s[..|s| - 1]) else s
  }

  function Lines(s: string): (r: seq<string>)
    ensures |r| >= 1
  {
    if s == "" then [""]
    else
      var rest := Lines(s[1..]);
      if s[0] == '\n' then [""] + rest else [[s[0]] + rest[0]] + rest[1..]
  }

  /** What the export writes. */
  function Written(filename: string, signature: string): string {
    filename + "\n" + signature + "\n"
  }

  /** parseEvidenceSignatureFile; `base` is the base name of the pack's path. */
  function Parsed(raw: string, base: string): (string, string) {
    var lines := Lines(DropNewlines(raw));
    if |lines| >= 2 && Trim(lines[0]) != "" && Trim(lines[1]) != "" then (Trim(lines[0]), Trim(lines[1]))
    else (base, Trim(raw))
  }

  function Newlines(n: nat): string {
    if n == 0 then "" else Newlines(n - 1) + "\n"
  }

  predicate OneLine(s: string) {
    '\n' !in s
  }

  // ---------------------------------------------------------------------------
  // Lines and newlines

  lemma {:induction false} LinesOfOne(s: string)
    requires OneLine(s)
    ensures Lines(s) == [s]
  {
    if s != "" {
      LinesOfOne(s[1..]);
      assert [s[0]] + s[1..] == s;
    }
  }

  lemma {:induction false} LinesAfter(a: string, t: string)
    requires OneLine(a)
    ensures Lines(a + "\n" + t) == [a] + Lines(t)
  {
    var s := a + "\n" + t;
    if a == "" {
      assert s[0] == '\n' && s[1..] == t;
    } else {
      assert s[0] == a[0] && s[1..] == a[1..] + "\n" + t;
      LinesAfter(a[1..], t);
      assert [a[0]] + a[1..] == a;
    }
  }

  lemma {:induction false} DropNewlinesOf(s: string, n: nat)
    requires s != "" ==> s[|s| - 1] != '\n'
    ensures DropNewlines(s + Newlines(n)) == s
  {
    if n == 0 {
      assert s + Newlines(0) == s;
    } else {
      var r := s + Newlines(n);
      assert r[|r| - 1] == '\n' && r[..|r| - 1] == s + Newlines(n - 1);
      DropNewlinesOf(s, n - 1);
    }
  }

  // ---------------------------------------------------------------------------
  // Trimming

  lemma {:induction false} TrimStartOf(s: string)
    ensures TrimStart(s) == "" <==> Blank(s)
    ensures TrimStart(s) != "" ==> !IsSpace(TrimStart(s)[0])
  {
    if s != "" && IsSpace(s[0]) {
      TrimStartOf(s[1..]);
      assert Blank(s) <==> Blank(s[1..]) by {
        assert forall i :: 1 <= i < |s| ==> s[i] == s[1..][i - 1];
        assert forall i :: 0 <= i < |s| - 1 ==> s[1..][i] == s[i + 1];
      }
    }
  }

  lemma {:induction false} TrimEndOf(s: string)
    requires s != "" && !IsSpace(s[0])
    ensures TrimEnd(s) != "" && TrimEnd(s)[0] == s[0]
  {
    if IsSpace(s[|s| - 1]) {
      TrimEndOf(s[..|s| - 1]);
    }
  }

  lemma {:induction false} TrimStartCuts(s: string)
    ensures |TrimStart(s)| <= |s| && TrimStart(s) == s[|s| - |TrimStart(s)|..]
    ensures Blank(s[..|s| - |TrimStart(s)|])
  {
    if s != "" && IsSpace(s[0]) {
      TrimStartCuts(s[1..]);
      var k := |s| - |TrimStart(s)|;
      assert forall i :: 1 <= i < k ==> s[..k][i] == s[1..][..k - 1][i - 1];
    }
  }

  lemma {:induction false} TrimEndCuts(s: string)
    ensures |TrimEnd(s)| <= |s| && TrimEnd(s) == s[..|TrimEnd(s)|] && Blank(s[|TrimEnd(s)|..])
    ensures TrimEnd(s) != "" ==> !IsSpace(TrimEnd(s)[|TrimEnd(s)| - 1])
  {
    if s != "" && IsSpace(s[|s| - 1]) {
      var n := |s| - 1;
      TrimEndCuts(s[..n]);
      var k := |TrimEnd(s)|;
      assert forall i :: 0 <= i < n - k ==> s[k..][i] == s[..n][k..][i];
    }
  }

  /** Only white space is dropped, at the two ends, and none is left there. */
  lemma TrimExactly(s: string) returns (before: string, after: string)
    ensures s == before + Trim(s) + after && Blank(before) && Blank(after)
    ensures Trim(s) != "" ==> !IsSpace(Trim(s)[0]) && !IsSpace(Trim(s)[|Trim(s)| - 1])
  {
    TrimStartCuts(s);
    TrimEndCuts(TrimStart(s));
    TrimOf(s);
    before, after := s[..|s| - |TrimStart(s)|], TrimStart(s)[|Trim(s)|..];
  }

  /** A trimmed text is empty exactly when the text is blank, and never starts with a space. */
  lemma TrimOf(s: string)
    ensures Trim(s) == "" <==> Blank(s)
    ensures Trim(s) != "" ==> !IsSpace(Trim(s)[0])
  {
    TrimStartOf(s);
    if !Blank(s) {
      TrimEndOf(TrimStart(s));
    }
  }

  lemma {:induction false} TrimEndDrops(s: string, t: string)
    requires Blank(t)
    ensures TrimEnd(s + t) == TrimEnd(s)
    decreases |t|
  {
    if t == "" {
      assert s + t == s;
    } else {
      var r := s + t;
      assert r[|r| - 1] == t[|t| - 1] && r[..|r| - 1] == s + t[..|t| - 1];
      TrimEndDrops(s, t[..|t| - 1]);
    }
  }

  lemma {:induction false} TrimStartKeeps(s: string, t: string)
    requires !Blank(s)
    ensures TrimStart(s + t) == TrimStart(s) + t
  {
    if IsSpace(s[0]) {
      assert (s + t)[1..] == s[1..] + t;
      TrimStartOf(s);
      TrimStartOf(s[1..]);
      TrimStartKeeps(s[1..], t);
    }
  }

  lemma {:induction false} NewlinesAreBlank(n: nat)
    ensures Blank(Newlines(n))
  {
    if n > 0 {
      NewlinesAreBlank(n - 1);
    }
  }

  lemma BlankParts(s: string, t: string)
    ensures Blank(s + t) <==> Blank(s) && Blank(t)
  {
    assert forall i :: 0 <= i < |s| ==> (s + t)[i] == s[i];
    assert forall i :: 0 <= i < |t| ==> (s + t)[|s| + i] == t[i];
  }

  /** White space after a text does not matter. */
  lemma TrimDrops(s: string, t: string)
    requires Blank(t)
    ensures Trim(s + t) == Trim(s)
  {
    if Blank(s) {
      BlankParts(s, t);
      TrimOf(s);
      TrimOf(s + t);
    } else {
      TrimStartKeeps(s, t);
      TrimEndDrops(TrimStart(s), t);
    }
  }

  // ---------------------------------------------------------------------------
  // The round trip

  lemma MoreNewlines(n: nat)
    ensures "\n" + Newlines(n) == Newlines(n + 1)
  {
    if n > 0 {
      MoreNewlines(n - 1);
      assert "\n" + Newlines(n) == ("\n" + Newlines(n - 1)) + "\n";
    }
  }

  lemma OneMoreNewline(s: string, n: nat)
    ensures s + "\n" + Newlines(n) == s + Newlines(n + 1)
  {
    MoreNewlines(n);
    assert s + "\n" + Newlines(n) == s + ("\n" + Newlines(n));
  }

  lemma NotBlank(s: string, a: string, b: string)
    requires !Blank(s)
    ensures !Blank(s + a + b)
  {
    var i :| 0 <= i < |s| && !IsSpace(s[i]);
    assert (s + a + b)[i] == s[i];
  }

  lemma LinesOfWritten(filename: string, signature: string, extra: nat)
    requires OneLine(filename) && OneLine(signature) && filename != ""
    ensures Lines(DropNewlines(Written(filename, signature) + Newlines(extra))) ==
            if signature == "" then [filename] else [filename, signature]
  {
    var body := filename + "\n" + signature;
    OneMoreNewline(body, extra);
    if signature == "" {
      assert body == filename + "\n";
      OneMoreNewline(filename, extra + 1);
      DropNewlinesOf(filename, extra + 2);
      LinesOfOne(filename);
    } else {
      DropNewlinesOf(body, extra + 1);
      LinesAfter(filename, signature);
      LinesOfOne(signature);
    }
  }

  /** For a filename that is not blank and one-line texts, with any number of extra newlines
      after them: parsing gives back the filename and the signature if and only if both come
      trimmed and the signature is not empty. */
  lemma RoundTripExactly(filename: string, signature: string, base: string, extra: nat)
    requires OneLine(filename) && OneLine(signature) && !Blank(filename)
    ensures Parsed(Written(filename, signature) + Newlines(extra), base) == (filename, signature) <==>
            Trim(filename) == filename && Trim(signature) == signature && signature != ""
  {
    var raw := Written(filename, signature) + Newlines(extra);
    LinesOfWritten(filename, signature, extra);
    TrimOf(filename);
    TrimOf(signature);
    TrimOf(raw);
    assert raw == filename + ("\n" + signature + "\n") + Newlines(extra);
    NotBlank(filename, "\n" + signature + "\n", Newlines(extra));
    assert Blank(signature) ==> Trim(raw) != signature;
  }

  /** A bare one-line signature, as the scheduled export writes it, goes with the pack's own
      base name. */
  lemma BareSignature(signature: string, base: string, extra: nat)
    requires OneLine(signature)
    ensures Parsed(signature + Newlines(extra), base) == (base, Trim(signature))
  {
    DropNewlinesOf(signature, extra);
    LinesOfOne(signature);
    NewlinesAreBlank(extra);
    TrimDrops(signature, Newlines(extra));
  }

  // ---------------------------------------------------------------------------
  // Any file

  /** Trailing newlines come off the last part, unless it is nothing else. */
  lemma {:induction false} DropNewlinesLast(s: string, t: string)
    ensures DropNewlines(t) != "" ==> DropNewlines(s + t) == s + DropNewlines(t)
    ensures DropNewlines(t) == "" ==> DropNewlines(s + t) == DropNewlines(s)
    decreases |t|
  {
    if t == "" {
      assert s + t == s;
    } else if t[|t| - 1] == '\n' {
      var r := s + t;
      assert r[|r| - 1] == '\n' && r[..|r| - 1] == s + t[..|t| - 1];
      DropNewlinesLast(s, t[..|t| - 1]);
    } else {
      assert (s + t)[|s + t| - 1] == t[|t| - 1];
    }
  }

  /** The lines of a file that begins with `a` and `b`: these two and more, or `a` and less when
      nothing but newlines follows it. */
  lemma FirstTwoLines(a: string, b: string, rest: string)
    requires OneLine(a) && OneLine(b) && !Blank(a)
    ensures var lines := Lines(DropNewlines(a + "\n" + (b + "\n" + rest)));
            if |lines| >= 2 then lines[0] == a && lines[1] == b else b == ""
  {
    var t := b + "\n" + rest;
    DropNewlinesLast(a + "\n", t);
    if DropNewlines(t) == "" {
      DropNewlinesLast(a, "\n");
      assert DropNewlines("\n") == "" by { assert "\n"[..0] == ""; }
      OneLineDrop(a);
      LinesOfOne(a);
      assert b + ("\n" + rest) == t;
      DropsToNothing(b, "\n" + rest);
    } else {
      LinesAfter(a, DropNewlines(t));
      DropNewlinesLast(b + "\n", rest);
      if DropNewlines(rest) != "" {
        LinesAfter(b, DropNewlines(rest));
      } else {
        DropNewlinesLast(b, "\n");
        assert DropNewlines("\n") == "" by { assert "\n"[..0] == ""; }
        OneLineDrop(b);
        LinesOfOne(b);
      }
    }
  }

  lemma OneLineDrop(a: string)
    requires OneLine(a)
    ensures DropNewlines(a) == a
  {
  }

  lemma DropsToNothing(b: string, t: string)
    requires OneLine(b) && DropNewlines(b + t) == ""
    ensures b == ""
  {
    DropNewlinesLast(b, t);
    OneLineDrop(b);
  }

  /** What any file of two lines or more parses to: its first two lines, trimmed, if neither is blank,
      whatever follows them; otherwise the pack's base name and the whole text, trimmed. */
  lemma ParsedExactly(a: string, b: string, rest: string, base: string)
    requires OneLine(a) && OneLine(b)
    ensures var raw := a + "\n" + (b + "\n" + rest);
            Parsed(raw, base) == if Blank(a) || Blank(b) then (base, Trim(raw)) else (Trim(a), Trim(b))
  {
    TrimOf(a);
    TrimOf(b);
    if !Blank(a) {
      FirstTwoLines(a, b, rest);
    } else {
      BlankFirstLine(a, b + "\n" + rest);
    }
  }

  /** A blank first line is never taken for a filename. */
  lemma BlankFirstLine(a: string, t: string)
    requires OneLine(a) && Blank(a)
    ensures var lines := Lines(DropNewlines(a + "\n" + t)); Trim(lines[0]) == ""
  {
    DropNewlinesLast(a + "\n", t);
    TrimOf(a);
    if DropNewlines(t) != "" {
      LinesAfter(a, DropNewlines(t));
    } else {
      DropNewlinesLast(a, "\n");
      assert DropNewlines("\n") == "" by { assert "\n"[..0] == ""; }
      OneLineDrop(a);
      LinesOfOne(a);
    }
  }

  /** In particular Windows line endings do no harm. */
  lemma CrlfRoundTrip(filename: string, signature: string, base: string)
    requires OneLine(filename) && OneLine(signature) && !Blank(filename) && !Blank(signature)
    requires Trim(filename) == filename && Trim(signature) == signature
    ensures Parsed(filename + "\r\n" + (signature + "\r\n"), base) == (filename, signature)
  {
    var a, b := filename + "\r", signature + "\r";
    BlankParts(filename, "\r");
    BlankParts(signature, "\r");
    TrimDrops(filename, "\r");
    TrimDrops(signature, "\r");
    ParsedExactly(a, b, "", base);
    assert filename + "\r\n" + (signature + "\r\n") == a + "\n" + (b + "\n" + "");
  }
}
