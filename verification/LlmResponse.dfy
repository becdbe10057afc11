/**
 Extraction of the JSON text from an LLM response (parse_llm_json,
 classifier/app/schema_infer.py:65-76). Newline is the only line separator.
 */
module LlmResponse {
  import opened Prelude

  const FENCE := "```"

  predicate IsSpace(c: char) {
    c == ' ' || '\t' <= c <= '\r' || '\U{1c}' <= c <= '\U{1f}'
  }

  function LStrip(s: string): (r: string)
    ensures r == "" || !IsSpace(r[0])
    ensures |r| <= |s| && r == s[|s| - |r|..]
  {
    if s != "" && IsSpace(s[0]) then LStrip(s[1..]) else s
  }

  function RStrip(s: string): (r: string)
    ensures r == "" || !IsSpace(r[|r| - 1])
    ensures r <= s
  {
    if s != "" && IsSpace(s[|s| - 1]) then RStrip(s[..|s| - 1]) else s
  }

  function Strip(s: string): string {
    RStrip(LStrip(s))
  }

  predicate IsFence(line: string) {
    FENCE <= Strip(line)
  }

  // Position of the first c, or |s|.
  function Find(s: string, c: char): (i: nat)
    ensures i <= |s| && c !in s[..i] && (i < |s| ==> s[i] == c)
  {
    if s == "" || s[0] == c then 0 else
      var i := 1 + Find(s[1..], c);
      assert s[..i] == [s[0]] + s[1..][..i - 1];
      i
  }

  // One past the position of the last c, or 0.
  function RFindEnd(s: string, c: char): (i: nat)
    ensures i <= |s| && c !in s[i..] && (i > 0 ==> s[i - 1] == c)
  {
    if s == "" || s[|s| - 1] == c then |s| else
      var i := RFindEnd(s[..|s| - 1], c);
      assert s[i..] == s[..|s| - 1][i..] + [s[|s| - 1]];
      i
  }

  function Lines(s: string): (ls: seq<string>)
    ensures ls != [] && (forall l | l in ls :: '\n' !in l)
    decreases |s|
  {
    var i := Find(s, '\n');
    if i == |s| then
      assert s[..i] == s;
      [s]
    else
      [s[..i]] + Lines(s[i + 1..])
  }

  function Join(ls: seq<string>): string {
    if ls == [] then "" else if |ls| == 1 then ls[0] else ls[0] + "\n" + Join(ls[1..])
  }

  function DropFences(ls: seq<string>): (r: seq<string>)
    ensures forall l | l in r :: l in ls && !IsFence(l)
  {
    if ls == [] then [] else (if IsFence(ls[0]) then [] else [ls[0]]) + DropFences(ls[1..])
  }

  // From the first "{" to the last "}", if they come in that order.
  function Braced(s: string): Option<string> {
    var start, end := Find(s, '{'), RFindEnd(s, '}');
    if start == |s| || end == 0 || end - 1 <= start then None else Some(s[start..end])
  }

  // The text handed to the JSON parser; None is the ValueError.
  function Extract(text: string): Option<string> {
    var cleaned := Strip(text);
    var unfenced := if FENCE <= cleaned then Strip(Join(DropFences(Lines(cleaned)))) else cleaned;
    Braced(unfenced)
  }

  // --- What it extracts ---

  ghost predicate ObjectText(obj: string) {
    |obj| >= 2 && obj[0] == '{' && obj[|obj| - 1] == '}'
  }

  lemma {:induction false} StripLeft(pre: string, rest: string)
    requires rest != "" && !IsSpace(rest[0])
    ensures LStrip(pre + rest) == LStrip(pre) + rest
  {
    if pre == "" {
      assert pre + rest == rest;
    } else {
      assert (pre + rest)[1..] == pre[1..] + rest;
      if IsSpace(pre[0]) { StripLeft(pre[1..], rest); }
    }
  }

  lemma {:induction false} StripRight(rest: string, post: string)
    requires rest != "" && !IsSpace(rest[|rest| - 1])
    ensures RStrip(rest + post) == rest + RStrip(post)
  {
    if post == "" {
      assert rest + post == rest;
    } else {
      assert (rest + post)[..|rest + post| - 1] == rest + post[..|post| - 1];
      if IsSpace(post[|post| - 1]) { StripRight(rest, post[..|post| - 1]); }
    }
  }

  // Stripping a text leaves alone anything inside it that starts and ends without space.
  lemma StripAround(pre: string, obj: string, post: string)
    requires obj != "" && !IsSpace(obj[0]) && !IsSpace(obj[|obj| - 1])
    ensures Strip(pre + obj + post) == LStrip(pre) + obj + RStrip(post)
  {
    hide IsSpace; hide LStrip; hide RStrip;
    Associative(pre, obj, post);
    StripLeft(pre, obj + post);
    Associative(LStrip(pre), obj, post);
    StripRight(LStrip(pre) + obj, post);
  }

  lemma NotBefore(s: string, i: nat, k: nat, c: char)
    requires k < |s| && i <= |s| && s[k] == c && c !in s[..i]
    ensures i <= k
  {
    forall j | 0 <= j < i ensures s[j] != c { assert s[..i][j] in s[..i]; }
  }

  lemma NotAfter(s: string, i: nat, k: nat, c: char)
    requires k < |s| && i <= |s| && s[k] == c && c !in s[i..]
    ensures i > k
  {
    forall j | i <= j < |s| ensures s[j] != c { assert s[i..][j - i] in s[i..]; }
  }

  lemma FindIn(pre: string, rest: string, c: char)
    requires rest != "" && rest[0] == c
    ensures Find(pre + rest, c) <= |pre|
    ensures Find(pre + rest, c) == |pre| <==> c !in pre
  {
    var s := pre + rest;
    var i := Find(s, c);
    hide Find;
    assert s[|pre|] == c;
    assert i <= |pre| by { NotBefore(s, i, |pre|, c); }
    if i == |pre| { assert s[..i] == pre; }
    if i < |pre| { assert pre[i] == c; }
  }

  lemma RFindIn(rest: string, post: string, c: char)
    requires rest != "" && rest[|rest| - 1] == c
    ensures RFindEnd(rest + post, c) >= |rest|
    ensures RFindEnd(rest + post, c) == |rest| <==> c !in post
  {
    var s := rest + post;
    var i := RFindEnd(s, c);
    hide RFindEnd;
    assert s[|rest| - 1] == c;
    assert i >= |rest| by { NotAfter(s, i, |rest| - 1, c); }
    if i == |rest| { assert s[i..] == post; }
    if i > |rest| { assert post[i - 1 - |rest|] == c; }
  }

  // The braces found are those of the object exactly when none opens before it or closes after it.
  lemma BracedIffAlone(pre: string, obj: string, post: string)
    requires ObjectText(obj)
    ensures Braced(pre + obj + post) == Some(obj) <==> '{' !in pre && '}' !in post
  {
    var s := pre + obj + post;
    assert s == pre + (obj + post);
    FindIn(pre, obj + post, '{');
    RFindIn(pre + obj, post, '}');
    var start, end := Find(s, '{'), RFindEnd(s, '}');
    assert Braced(s) == Some(s[start..end]);
    if '{' !in pre && '}' !in post {
      assert s[start..end] == obj;
    } else {
      assert |s[start..end]| > |obj|;
    }
  }

  // Without a code fence: an object survives any prose around it, as long as no brace opens
  // before it and none closes after it. No other prose lets it through.
  lemma ExtractFromProse(pre: string, obj: string, post: string)
    requires ObjectText(obj) && !(FENCE <= Strip(pre + obj + post))
    ensures Extract(pre + obj + post) == Some(obj) <==> '{' !in pre && '}' !in post
  {
    StripKeeps(pre, '{');
    StripKeeps(post, '}');
    StripAround(pre, obj, post);
    BracedIffAlone(LStrip(pre), obj, RStrip(post));
  }

  // Only spaces are stripped.
  lemma {:induction false} StripKeeps(s: string, c: char)
    requires !IsSpace(c)
    ensures c in LStrip(s) <==> c in s
    ensures c in RStrip(s) <==> c in s
    decreases |s|
  {
    if s != "" {
      var last := |s| - 1;
      assert s == [s[0]] + s[1..] && s == s[..last] + [s[last]];
      StripKeeps(s[1..], c);
      StripKeeps(s[..last], c);
    }
  }

  lemma LinesStep(a: string, b: string)
    requires '\n' !in a
    ensures Lines(a + "\n" + b) == [a] + Lines(b)
  {
    var s := a + "\n" + b;
    assert s == a + ("\n" + b);
    FindIn(a, "\n" + b, '\n');
    assert s[..|a|] == a && s[|a| + 1..] == b;
  }

  lemma SplitAtNewline(s: string)
    requires Find(s, '\n') < |s|
    ensures var i := Find(s, '\n'); s == s[..i] + "\n" + s[i + 1..] && '\n' !in s[..i]
  {
    SplitAt(s, Find(s, '\n'), "\n");
  }

  lemma SplitAt(s: string, i: nat, at: string)
    requires i < |s| && |at| == 1 && at[0] == s[i]
    ensures s == s[..i] + at + s[i + 1..]
  {
  }

  lemma Reassociate(a: string, b: string, c: string)
    ensures (a + "\n" + b) + "\n" + c == a + "\n" + (b + "\n" + c)
  {
  }

  lemma Appended<T>(a: seq<T>, b: seq<T>, c: seq<T>)
    ensures a + (b + c) == (a + b) + c
  {
  }

  lemma {:induction false} LinesConcat(a: string, b: string)
    ensures Lines(a + "\n" + b) == Lines(a) + Lines(b)
    decreases |a|
  {
    var i := Find(a, '\n');
    if i == |a| {
      assert a[..i] == a;
      LinesStep(a, b);
    } else {
      SplitAtNewline(a);
      hide *;
      var a0, a1 := a[..i], a[i + 1..];
      LinesStep(a0, a1);
      LinesConcat(a1, b);
      LinesStep(a0, a1 + "\n" + b);
      Reassociate(a0, a1, b);
      Appended([a0], Lines(a1), Lines(b));
    }
  }

  lemma {:induction false} JoinLines(s: string)
    ensures Join(Lines(s)) == s
    decreases |s|
  {
    var i := Find(s, '\n');
    if i < |s| {
      SplitAtNewline(s);
      var rest := Lines(s[i + 1..]);
      JoinLines(s[i + 1..]);
      assert Lines(s) == [s[..i]] + rest;
      assert ([s[..i]] + rest)[1..] == rest;
    }
  }

  // A prefix of text for the lines before an object, and a suffix for those after it.
  function Lead(ls: seq<string>): string {
    if ls == [] then "" else Join(ls) + "\n"
  }

  function Trail(ls: seq<string>): string {
    if ls == [] then "" else "\n" + Join(ls)
  }

  lemma {:induction false} JoinConcat(a: seq<string>, b: seq<string>)
    requires b != []
    ensures Join(a + b) == Lead(a) + Join(b)
  {
    if a == [] {
      assert a + b == b;
    } else {
      assert (a + b)[1..] == a[1..] + b;
      JoinConcat(a[1..], b);
      if |a| == 1 { assert a[1..] == []; }
    }
  }

  lemma JoinAround(a: seq<string>, m: seq<string>, c: seq<string>)
    requires m != []
    ensures Join(a + m + c) == Lead(a) + Join(m) + Trail(c)
  {
    Associative(a, m, c);
    JoinConcat(a, m + c);
    if c == [] {
      assert m + c == m && Join(m) + "" == Join(m);
    } else {
      JoinConcat(m, c);
      Associative(Join(m), "\n", Join(c));
    }
    hide Join; hide Lead;
    Associative(Lead(a), Join(m), Trail(c));
  }

  lemma {:induction false} DropFencesConcat(a: seq<string>, b: seq<string>)
    ensures DropFences(a + b) == DropFences(a) + DropFences(b)
  {
    hide IsFence;
    if a == [] {
      assert a + b == b;
    } else {
      assert (a + b)[1..] == a[1..] + b;
      DropFencesConcat(a[1..], b);
      Associative(if IsFence(a[0]) then [] else [a[0]], DropFences(a[1..]), DropFences(b));
    }
  }

  ghost predicate HasFence(ls: seq<string>) {
    exists l | l in ls :: IsFence(l)
  }

  lemma {:induction false} DroppingShortens(ls: seq<string>)
    ensures !HasFence(ls) ==> DropFences(ls) == ls
    ensures |Join(DropFences(ls))| <= |Join(ls)|
    ensures HasFence(ls) ==> |Join(DropFences(ls))| < |Join(ls)|
  {
    hide IsFence;
    if ls != [] {
      var first, rest, kept := ls[0], ls[1..], DropFences(ls[1..]);
      DroppingShortens(rest);
      assert ls == [first] + rest;
      JoinLength(first, rest);
      JoinLength(first, kept);
      FenceIsLong(first);
      assert HasFence(ls) == (IsFence(first) || HasFence(rest)) by {
        assert forall l :: l in ls <==> l == first || l in rest;
      }
      assert DropFences(ls) == if IsFence(first) then kept else [first] + kept;
    }
  }

  lemma FenceIsLong(line: string)
    ensures IsFence(line) ==> |line| >= 3
  {
  }

  lemma JoinLength(first: string, rest: seq<string>)
    ensures |Join([first] + rest)| == |first| + if rest == [] then 0 else 1 + |Join(rest)|
  {
    assert ([first] + rest)[1..] == rest;
  }

  ghost predicate FreeOf(ls: seq<string>, c: char) {
    forall l | l in ls && !IsFence(l) :: c !in l
  }

  lemma {:induction false} JoinFree(ls: seq<string>, c: char)
    requires c != '\n' && forall l | l in ls :: c !in l
    ensures c !in Join(ls)
  {
    if ls != [] {
      assert ls[0] in ls;
      forall l | l in ls[1..] ensures c !in l { assert l in ls; }
      JoinFree(ls[1..], c);
    }
  }

  // Inside a code fence, with any lines before and after the object as long as no brace opens
  // before it and none closes after it outside fence lines: the object comes through exactly
  // when none of its own lines looks like a fence.
  lemma ExtractFromFence(text: string, before: seq<string>, obj: string, after: seq<string>)
    requires ObjectText(obj) && Lines(Strip(text)) == before + Lines(obj) + after
    requires FENCE <= Strip(text)
    requires FreeOf(before, '{') && FreeOf(after, '}')
    ensures Extract(text) == Some(obj) <==> !HasFence(Lines(obj))
  {
    var a, m, c := DropFences(before), DropFences(Lines(obj)), DropFences(after);
    FencedText(text);
    FirstLineIsKept(obj);
    KeptText(before, obj, after);
    JoinLines(obj);
    DroppingShortens(Lines(obj));
    NoBraceInFrame(before, after);
    hide *;
    if !HasFence(Lines(obj)) {
      FramedObject(Lead(a), obj, Trail(c));
    } else {
      FramedFragment(Lead(a), Join(m), Trail(c));
    }
  }

  lemma FramedObject(pre: string, obj: string, post: string)
    requires ObjectText(obj) && '{' !in pre && '}' !in post
    ensures Braced(Strip(pre + obj + post)) == Some(obj)
  {
    StripAround(pre, obj, post);
    StripKeeps(pre, '{');
    StripKeeps(post, '}');
    BracedIffAlone(LStrip(pre), obj, RStrip(post));
  }

  lemma FramedFragment(pre: string, core: string, post: string)
    requires '{' !in pre && '}' !in post && core != "" && core[0] == '{'
    ensures var r := Braced(Strip(pre + core + post)); r.Some? ==> |r.value| <= |core|
  {
    assert pre + core + post == pre + (core + post);
    StripLead(pre, core + post);
    StripKeeps(pre, '{');
    TooShort(LStrip(pre), core, post);
  }

  lemma FencedText(text: string)
    requires FENCE <= Strip(text)
    ensures Extract(text) == Braced(Strip(Join(DropFences(Lines(Strip(text))))))
  {
  }

  lemma KeptText(before: seq<string>, obj: string, after: seq<string>)
    requires DropFences(Lines(obj)) != []
    ensures Join(DropFences(before + Lines(obj) + after))
      == Lead(DropFences(before)) + Join(DropFences(Lines(obj))) + Trail(DropFences(after))
  {
    hide IsFence;
    DropFencesConcat(before + Lines(obj), after);
    DropFencesConcat(before, Lines(obj));
    JoinAround(DropFences(before), DropFences(Lines(obj)), DropFences(after));
  }

  lemma NoBraceInFrame(before: seq<string>, after: seq<string>)
    requires FreeOf(before, '{') && FreeOf(after, '}')
    ensures '{' !in Lead(DropFences(before))
    ensures '}' !in Trail(DropFences(after))
  {
    hide IsFence; hide DropFences; hide Join;
    assert forall l | l in DropFences(before) :: '{' !in l;
    assert forall l | l in DropFences(after) :: '}' !in l;
    JoinFree(DropFences(before), '{');
    JoinFree(DropFences(after), '}');
    assert "\n" == ['\n'];
  }

  // The usual case: the object alone between an opening fence, with or without a language tag,
  // and a closing one.
  lemma ExtractFromPlainFence(tag: string, obj: string)
    requires ObjectText(obj) && '\n' !in tag
    ensures Extract(FENCE + tag + "\n" + obj + "\n" + FENCE) == Some(obj) <==> !HasFence(Lines(obj))
  {
    hide *;
    var text := FENCE + tag + "\n" + obj + "\n" + FENCE;
    PlainFenceStripped(tag, obj);
    PlainFenceLines(tag, obj);
    OpeningFence(tag);
    OpeningFence("");
    assert FENCE + "" == FENCE;
    BetweenFences(text, FENCE + tag, obj, FENCE);
  }

  lemma BetweenFences(text: string, open: string, obj: string, close: string)
    requires ObjectText(obj) && FENCE <= Strip(text)
    requires Lines(Strip(text)) == [open] + Lines(obj) + [close]
    requires IsFence(open) && IsFence(close)
    ensures Extract(text) == Some(obj) <==> !HasFence(Lines(obj))
  {
    assert FreeOf([open], '{') && FreeOf([close], '}');
    hide *;
    ExtractFromFence(text, [open], obj, [close]);
  }

  lemma PlainFenceStripped(tag: string, obj: string)
    ensures var text := FENCE + tag + "\n" + obj + "\n" + FENCE; Strip(text) == text && FENCE <= text
  {
    var text := FENCE + tag + "\n" + obj + "\n" + FENCE;
    assert text[..3] == FENCE && text[|text| - 1] == '`';
  }

  lemma PlainFenceLines(tag: string, obj: string)
    requires '\n' !in tag
    ensures Lines(FENCE + tag + "\n" + obj + "\n" + FENCE) == [FENCE + tag] + Lines(obj) + [FENCE]
  {
    LinesConcat(FENCE + tag + "\n" + obj, FENCE);
    LinesStep(FENCE + tag, obj);
    LinesOfLine(FENCE);
  }

  lemma LinesOfLine(s: string)
    requires '\n' !in s
    ensures Lines(s) == [s]
  {
    assert s[..|s|] == s;
  }

  lemma OpeningFence(tag: string)
    ensures IsFence(FENCE + tag)
  {
    assert FENCE + tag == FENCE[..2] + ("`" + tag);
    StripRight(FENCE, tag);
    assert LStrip(FENCE + tag) == FENCE + tag;
  }

  lemma FirstLineIsKept(obj: string)
    requires ObjectText(obj)
    ensures var m := DropFences(Lines(obj)); m != [] && Join(m) != "" && Join(m)[0] == '{'
  {
    var first := Lines(obj)[0];
    var i := Find(obj, '\n');
    assert i > 0 && first == obj[..i] && first[0] == '{';
    assert LStrip(first) == first;
    assert !IsFence(first);
    assert DropFences(Lines(obj))[0] == first;
  }

  lemma StripLead(pre: string, rest: string)
    requires rest != "" && !IsSpace(rest[0])
    ensures Strip(pre + rest) == RStrip(LStrip(pre) + rest)
  {
    StripLeft(pre, rest);
  }

  lemma TooShort(pre: string, core: string, post: string)
    requires '{' !in pre && core != "" && core[0] == '{' && '}' !in post
    ensures var r := Braced(RStrip(pre + (core + post))); r.Some? ==> |r.value| <= |core|
  {
    var s := pre + (core + post);
    var t := RStrip(s);
    var start, end := Find(t, '{'), RFindEnd(t, '}');
    if Braced(t).Some? {
      forall j | 0 <= j < |pre| ensures s[j] != '{' { assert pre[j] in pre; }
      forall j | |pre| + |core| <= j < |s| ensures s[j] != '}' { assert post[j - |pre| - |core|] in post; }
      assert t[start] == s[start] && t[end - 1] == s[end - 1];
    }
  }
}
