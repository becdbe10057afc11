/**
 What the extraction of JSON from a language model's answer yields for every text
 (classifier/app/schema_infer.py:65-76), in terms of the text's own characters.
 */
module ExtractedText {
  import opened Prelude
  import opened LlmResponse

  // The white space that is stripped.
  predicate White(c: char) {
    || c == ' ' || c == '\t' || c == '\n' || c == '\U{b}' || c == '\U{c}' || c == '\r'
    || c == '\U{1c}' || c == '\U{1d}' || c == '\U{1e}' || c == '\U{1f}'
  }

  ghost predicate Blank(s: string, from: nat, to: nat)
    requires to <= |s|
  {
    forall k | from <= k < to :: White(s[k])
  }

  // After white space, three backquotes.
  ghost predicate LooksFenced(s: string) {
    exists i: nat :: FenceAt(s, i)
  }

  ghost predicate FenceAt(s: string, i: nat) {
    i + 3 <= |s| && Blank(s, 0, i) && s[i] == '`' && s[i + 1] == '`' && s[i + 2] == '`'
  }

  // t is the text from the first opening brace to the last closing one.
  ghost predicate Between(s: string, t: string) {
    exists i: nat, j: nat :: IsBetween(s, i, j) && t == s[i..j + 1]
  }

  ghost predicate IsBetween(s: string, i: nat, j: nat) {
    && i < j < |s| && s[i] == '{' && s[j] == '}'
    && (forall k | 0 <= k < i :: s[k] != '{') && (forall k | j < k < |s| :: s[k] != '}')
  }

  // The lines that do not look like fences.
  ghost function Kept(lines: seq<string>): seq<string> {
    if lines == [] then [] else (if LooksFenced(lines[0]) then [] else [lines[0]]) + Kept(lines[1..])
  }

  // --- Stripping ---

  lemma WhiteIff(c: char)
    ensures IsSpace(c) <==> White(c)
  {
  }

  lemma {:induction false} LStripAt(s: string) returns (n: nat)
    ensures n <= |s| && LStrip(s) == s[n..] && Blank(s, 0, n) && (n < |s| ==> !White(s[n]))
  {
    n := 0;
    if s != "" {
      WhiteIff(s[0]);
      hide White; hide IsSpace;
      if IsSpace(s[0]) {
        var m := LStripAt(s[1..]);
        n := m + 1;
        assert s[1..][m..] == s[n..];
        forall k | 1 <= k < n ensures White(s[k]) { assert s[k] == s[1..][k - 1]; }
      }
    }
  }

  lemma {:induction false} RStripAt(s: string) returns (n: nat)
    ensures n <= |s| && RStrip(s) == s[..n] && Blank(s, n, |s|) && (n > 0 ==> !White(s[n - 1]))
  {
    n := |s|;
    if s != "" {
      var last := |s| - 1;
      WhiteIff(s[last]);
      hide White; hide IsSpace;
      if IsSpace(s[last]) {
        n := RStripAt(s[..last]);
        assert s[..last][..n] == s[..n];
        forall k | n <= k < last ensures White(s[k]) { assert s[k] == s[..last][k]; }
      } else {
        assert s[..n] == s;
      }
    }
  }

  // Stripping leaves the text from the first to the last character that is not white.
  lemma StripAt(s: string) returns (i: nat, j: nat)
    ensures i <= j <= |s| && Strip(s) == s[i..j] && Blank(s, 0, i) && Blank(s, j, |s|)
    ensures i < j ==> !White(s[i]) && !White(s[j - 1])
  {
    hide White; hide LStrip; hide RStrip;
    i := LStripAt(s);
    var l := s[i..];
    var n := RStripAt(l);
    j := i + n;
    assert l[..n] == s[i..j];
    forall k | j <= k < |s| ensures White(s[k]) { assert s[k] == l[k - i]; }
    if i < j { assert s[j - 1] == l[n - 1]; }
  }

  lemma FencePrefix(s: string)
    ensures FENCE <= s <==> |s| >= 3 && s[0] == '`' && s[1] == '`' && s[2] == '`'
  {
    assert FENCE == ['`', '`', '`'];
    assert FENCE <= s ==> s[0] == FENCE[0] && s[1] == FENCE[1] && s[2] == FENCE[2];
    if |s| >= 3 && s[0] == '`' && s[1] == '`' && s[2] == '`' { assert s[..3] == FENCE; }
  }

  lemma FencedIff(s: string)
    ensures FENCE <= Strip(s) <==> LooksFenced(s)
  {
    var i, j := StripAt(s);
    hide Strip; hide White;
    FencePrefix(s[i..j]);
    if i + 3 <= j {
      assert s[i..j][0] == s[i] && s[i..j][1] == s[i + 1] && s[i..j][2] == s[i + 2];
      if s[i] == '`' && s[i + 1] == '`' && s[i + 2] == '`' { assert FenceAt(s, i); }
    }
    if LooksFenced(s) {
      var f: nat :| FenceAt(s, f);
      StartsAt(s, i, j, f);
    }
  }

  // A fence starts where the text that is left starts, and is part of it.
  lemma StartsAt(s: string, i: nat, j: nat, f: nat)
    requires i <= j <= |s| && Blank(s, 0, i) && Blank(s, j, |s|) && (i < j ==> !White(s[i])) && FenceAt(s, f)
    ensures f == i && i + 3 <= j
    ensures s[i] == '`' && s[i + 1] == '`' && s[i + 2] == '`'
  {
    assert !White('`');
    hide White;
    assert !(f < i);
    assert f < j;
    assert !(i < f);
    assert f + 1 < j && f + 2 < j;
  }

  lemma {:induction false} KeptIs(lines: seq<string>)
    ensures DropFences(lines) == Kept(lines)
  {
    hide Strip; hide LooksFenced;
    if lines != [] {
      FencedIff(lines[0]);
      KeptIs(lines[1..]);
    }
  }

  // --- Between braces ---

  lemma FindFirst(s: string, c: char)
    ensures forall k | 0 <= k < Find(s, c) :: s[k] != c
  {
    forall k | 0 <= k < Find(s, c) ensures s[k] != c { assert s[..Find(s, c)][k] in s[..Find(s, c)]; }
  }

  lemma FindLast(s: string, c: char)
    ensures forall k | RFindEnd(s, c) <= k < |s| :: s[k] != c
  {
    var n := RFindEnd(s, c);
    forall k | n <= k < |s| ensures s[k] != c { assert s[n..][k - n] in s[n..]; }
  }

  // It is found if there is an opening brace before a closing one, and is unique.
  lemma BracedIff(s: string, t: string)
    ensures Braced(s) == Some(t) <==> Between(s, t)
  {
    FindFirst(s, '{');
    FindLast(s, '}');
    var start, end := Find(s, '{'), RFindEnd(s, '}');
    hide Find; hide RFindEnd;
    if Braced(s) == Some(t) {
      assert IsBetween(s, start, end - 1) && t == s[start..end - 1 + 1];
    }
    if Between(s, t) {
      var i: nat, j: nat :| IsBetween(s, i, j) && t == s[i..j + 1];
      assert i == start;
      assert j == end - 1;
    }
  }

  lemma SliceOfSlice(s: string, i: nat, j: nat, a: nat, b: nat)
    requires i <= j <= |s| && a <= b <= j - i
    ensures s[i..j][a..b] == s[i + a..i + b]
  {
    var inner, outer := s[i..j][a..b], s[i + a..i + b];
    forall k | 0 <= k < b - a ensures inner[k] == outer[k] {
      assert inner[k] == s[i..j][a + k] == s[i + a + k];
    }
  }

  // Where the braces are inside, they are in the whole, and conversely.
  lemma InnerIsOuter(s: string, i: nat, j: nat, a: nat, b: nat)
    requires i <= j <= |s| && (forall k | 0 <= k < i :: s[k] != '{') && (forall k | j <= k < |s| :: s[k] != '}')
    requires a < b < j - i
    ensures IsBetween(s[i..j], a, b) <==> IsBetween(s, i + a, i + b)
  {
    var core := s[i..j];
    assert forall k | 0 <= k < j - i :: core[k] == s[i + k];
    if IsBetween(core, a, b) {
      forall k | 0 <= k < i + a ensures s[k] != '{' { if k >= i { assert s[k] == core[k - i]; } }
      forall k | i + b < k < |s| ensures s[k] != '}' { if k < j { assert s[k] == core[k - i]; } }
    }
  }

  lemma NoBracesIn(s: string, from: nat, to: nat)
    requires to <= |s| && Blank(s, from, to)
    ensures forall k | from <= k < to :: s[k] != '{' && s[k] != '}'
  {
    assert !White('{') && !White('}');
    hide White;
  }

  lemma PaddedBetween(s: string, i: nat, j: nat, t: string)
    requires i <= j <= |s| && Blank(s, 0, i) && Blank(s, j, |s|)
    ensures Between(s[i..j], t) <==> Between(s, t)
  {
    NoBracesIn(s, 0, i);
    NoBracesIn(s, j, |s|);
    hide Blank;
    if Between(s[i..j], t) {
      var a: nat, b: nat :| IsBetween(s[i..j], a, b) && t == s[i..j][a..b + 1];
      assert a < b < j - i;
      hide IsBetween;
      SliceOfSlice(s, i, j, a, b + 1);
      InnerIsOuter(s, i, j, a, b);
    }
    if Between(s, t) {
      var a: nat, b: nat :| IsBetween(s, a, b) && t == s[a..b + 1];
      assert i <= a < b < j;
      hide IsBetween;
      SliceOfSlice(s, i, j, a - i, b - i + 1);
      InnerIsOuter(s, i, j, a - i, b - i);
    }
  }

  lemma StrippedBetween(s: string, t: string)
    ensures Braced(Strip(s)) == Some(t) <==> Between(s, t)
  {
    var i, j := StripAt(s);
    hide Strip; hide Braced; hide White;
    BracedIff(Strip(s), t);
    PaddedBetween(s, i, j, t);
  }

  // Main result: from a text that does not start with a fence comes the text from its first opening
  // to its last closing brace; from a fenced one, the same of its lines that are not fences. If there
  // is no closing brace after an opening one, nothing comes.
  lemma ExtractIff(text: string, t: string)
    ensures !LooksFenced(text) ==> (Extract(text) == Some(t) <==> Between(text, t))
    ensures LooksFenced(text) ==> (Extract(text) == Some(t) <==> Between(Join(Kept(Lines(Strip(text)))), t))
  {
    FencedIff(text);
    KeptIs(Lines(Strip(text)));
    hide Strip; hide Braced; hide LooksFenced; hide Join; hide DropFences; hide Kept;
    StrippedBetween(text, t);
    StrippedBetween(Join(DropFences(Lines(Strip(text)))), t);
  }

  lemma FirstAndLast(s: string, i: nat, j: nat) returns (a: nat, b: nat)
    requires i < j < |s| && s[i] == '{' && s[j] == '}'
    ensures IsBetween(s, a, b)
  {
    FindFirst(s, '{');
    FindLast(s, '}');
    a, b := Find(s, '{'), RFindEnd(s, '}') - 1;
  }

  lemma NothingExtracted(text: string)
    requires !LooksFenced(text)
    ensures Extract(text) == None <==> forall i, j | 0 <= i < j < |text| :: !(text[i] == '{' && text[j] == '}')
  {
    hide LooksFenced; hide Extract;
    if Extract(text).Some? {
      ExtractIff(text, Extract(text).value);
      var i: nat, j: nat :| IsBetween(text, i, j) && Extract(text).value == text[i..j + 1];
    } else if i, j :| 0 <= i < j < |text| && text[i] == '{' && text[j] == '}' {
      var a, b := FirstAndLast(text, i, j);
      assert Between(text, text[a..b + 1]);
      ExtractIff(text, text[a..b + 1]);
    }
  }
}
