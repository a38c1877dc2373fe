/** The string operations the parsers rely on. */
module Text {
  import opened Wrappers

  /** The Unicode White_Space property, which Rust's `char::is_whitespace` tests. */
  predicate IsSpace(c: char) {
    var n := c as int;
    || 0x9 <= n <= 0xD || n == 0x20 || n == 0x85 || n == 0xA0 || n == 0x1680 || 0x2000 <= n <= 0x200A
    || n == 0x2028 || n == 0x2029 || n == 0x202F || n == 0x205F || n == 0x3000
  }

  function TrimStart(s: string): (t: string)
    ensures |t| <= |s| && s[|s| - |t|..] == t
    ensures t != "" ==> !IsSpace(t[0])
  {
    if s != "" && IsSpace(s[0]) then TrimStart(s[1..]) else s
  }

  function TrimEnd(s: string): (t: string)
    ensures t <= s
    ensures t != "" ==> !IsSpace(t[|t| - 1])
  {
    if s != "" && IsSpace(s[|s| - 1]) then TrimEnd(s[..|s| - 1]) else s
  }

  function Trim(s: string): (t: string) {
    TrimEnd(TrimStart(s))
  }

  /** A string is its own trimming exactly when neither end is white space. */
  lemma TrimmedStrings(s: string)
    ensures Trim(s) == s <==> s == "" || (!IsSpace(s[0]) && !IsSpace(s[|s| - 1]))
  {
    if s != "" && Trim(s) == s {
      var t := TrimStart(s);
      assert |t| == |s|;
      assert s[|s| - |t|..] == s;
    }
  }

  /** Splits at the first occurrence of `c`. */
  function SplitOnce(s: string, c: char): (parts: Option<(string, string)>)
    ensures parts.None? <==> c !in s
    ensures parts.Some? ==> s == parts.value.0 + [c] + parts.value.1 && c !in parts.value.0
  {
    if s == "" then None
    else if s[0] == c then Some(("", s[1..]))
    else
      match SplitOnce(s[1..], c)
      case None => None
      case Some((before, after)) => Some(([s[0]] + before, after))
  }

  /** The split at the first occurrence is the only one with none before it. */
  lemma {:induction false} SplitOnceUnique(before: string, c: char, after: string)
    requires c !in before
    ensures SplitOnce(before + [c] + after, c) == Some((before, after))
    decreases |before|
  {
    var s := before + [c] + after;
    if before == "" {
      assert s == [c] + after;
    } else {
      SplitOnceUnique(before[1..], c, after);
      assert s[0] == before[0] != c && s[1..] == before[1..] + [c] + after;
      assert [before[0]] + before[1..] == before;
    }
  }

  // ---- white space around a string

  ghost predicate Blank(s: string) {
    forall i :: 0 <= i < |s| ==> IsSpace(s[i])
  }

  /** Nothing, or no white space at either end. */
  predicate Tight(s: string) {
    s == "" || (!IsSpace(s[0]) && !IsSpace(s[|s| - 1]))
  }

  /** The core with any white space around it. */
  ghost predicate Padded(s: string, core: string) {
    exists before, after :: Blank(before) && Blank(after) && s == before + core + after
  }

  /** Of the ASCII characters, these six are white space. */
  lemma AsciiSpaces(c: char)
    requires c as int < 0x80
    ensures IsSpace(c) <==> c == ' ' || c == '\t' || c == '\n' || c == '\r' || c as int == 0xB || c as int == 0xC
  {
  }

  lemma OneMoreBlank(s: string, rest: string, t: string)
    requires s != "" && IsSpace(s[0]) && Blank(rest) && s[1..] == rest + t
    ensures Blank([s[0]] + rest) && s == ([s[0]] + rest) + t
  {
    hide IsSpace;
    assert s == [s[0]] + s[1..];
  }

  lemma {:induction false} StartIsBlank(s: string) returns (before: string)
    ensures Blank(before) && s == before + TrimStart(s)
    decreases |s|
  {
    if s != "" && IsSpace(s[0]) {
      var rest := StartIsBlank(s[1..]);
      before := [s[0]] + rest;
      var t := TrimStart(s);
      assert t == TrimStart(s[1..]);
      OneMoreBlank(s, rest, t);
    } else {
      before := "";
    }
  }

  lemma {:induction false} EndIsBlank(s: string) returns (after: string)
    ensures Blank(after) && s == TrimEnd(s) + after
    decreases |s|
  {
    if s != "" && IsSpace(s[|s| - 1]) {
      var rest := EndIsBlank(s[..|s| - 1]);
      after := rest + [s[|s| - 1]];
      assert TrimEnd(s) == TrimEnd(s[..|s| - 1]);
      hide TrimEnd;
      assert s == s[..|s| - 1] + [s[|s| - 1]];
    } else {
      after := "";
    }
  }

  lemma {:induction false} BlankStartIsTrimmed(before: string, s: string)
    requires Blank(before)
    ensures TrimStart(before + s) == TrimStart(s)
    decreases |before|
  {
    if before == "" {
      assert before + s == s;
    } else {
      assert (before + s)[1..] == before[1..] + s;
      BlankStartIsTrimmed(before[1..], s);
    }
  }

  lemma {:induction false} BlankEndIsTrimmed(s: string, after: string)
    requires Blank(after)
    ensures TrimEnd(s + after) == TrimEnd(s)
    decreases |after|
  {
    if after == "" {
      assert s + after == s;
    } else {
      var shorter := after[..|after| - 1];
      assert (s + after)[..|s + after| - 1] == s + shorter;
      BlankEndIsTrimmed(s, shorter);
    }
  }

  lemma NothingToTrim(s: string)
    ensures s == "" || !IsSpace(s[0]) ==> TrimStart(s) == s
    ensures s == "" || !IsSpace(s[|s| - 1]) ==> TrimEnd(s) == s
  {
  }

  lemma TrimIsTight(s: string)
    ensures Tight(Trim(s)) && Padded(s, Trim(s))
  {
    hide TrimStart, TrimEnd, IsSpace, Blank;
    var t := TrimStart(s);
    var u := TrimEnd(t);
    var before := StartIsBlank(s);
    var after := EndIsBlank(t);
    assert s == before + u + after;
    if u != "" {
      assert u[0] == t[0];
    }
  }

  lemma CoreIsLeft(before: string, core: string, after: string)
    requires Blank(before) && Blank(after) && Tight(core)
    ensures Trim(before + core + after) == core
  {
    hide TrimStart, TrimEnd, IsSpace, Blank;
    assert before + core + after == before + (core + after);
    BlankStartIsTrimmed(before, core + after);
    if core == "" {
      assert core + after == after + "";
      BlankStartIsTrimmed(after, "");
      NothingToTrim("");
    } else {
      BlankEndIsTrimmed(core, after);
      NothingToTrim(core);
      assert (core + after)[0] == core[0];
      NothingToTrim(core + after);
    }
  }

  /** Trimming gives the core of a string with white space around it, and only that. */
  lemma TrimIsCore(s: string, core: string)
    requires Tight(core)
    ensures Trim(s) == core <==> Padded(s, core)
  {
    hide Trim, Tight, Blank;
    TrimIsTight(s);
    if Padded(s, core) {
      var before, after :| Blank(before) && Blank(after) && s == before + core + after;
      CoreIsLeft(before, core, after);
    }
  }

  // ---- a trimmed string, split

  lemma {:induction false} StartBeforeMark(before: string, rest: string)
    requires rest != "" && !IsSpace(rest[0])
    ensures TrimStart(before + rest) == TrimStart(before) + rest
    decreases |before|
  {
    if before == "" {
      assert before + rest == rest;
    } else if IsSpace(before[0]) {
      assert (before + rest)[1..] == before[1..] + rest;
      StartBeforeMark(before[1..], rest);
    }
  }

  lemma {:induction false} EndAfterMark(rest: string, after: string)
    requires rest != "" && !IsSpace(rest[|rest| - 1])
    ensures TrimEnd(rest + after) == rest + TrimEnd(after)
    decreases |after|
  {
    if after == "" {
      assert rest + after == rest;
    } else if IsSpace(after[|after| - 1]) {
      assert (rest + after)[..|rest + after| - 1] == rest + after[..|after| - 1];
      EndAfterMark(rest, after[..|after| - 1]);
    }
  }

  lemma StartTrimmedTwice(s: string)
    ensures Trim(TrimStart(s)) == Trim(s)
  {
    NothingToTrim(TrimStart(s));
    hide TrimStart, TrimEnd, IsSpace;
  }

  lemma EndTrimmedTwice(s: string)
    ensures Trim(TrimEnd(s)) == Trim(s)
  {
    hide TrimStart, TrimEnd, Trim, Blank, IsSpace, Tight;
    var after := EndIsBlank(s);
    var t := Trim(TrimEnd(s));
    TrimIsTight(TrimEnd(s));
    PaddedMore(TrimEnd(s), t, after);
    TrimIsCore(s, t);
  }

  lemma PaddedMore(s: string, core: string, after: string)
    requires Padded(s, core) && Blank(after)
    ensures Padded(s + after, core)
  {
    hide IsSpace;
    var w, v :| Blank(w) && Blank(v) && s == w + core + v;
    assert Blank(v + after) && s + after == w + core + (v + after);
  }

  lemma MarkBetween(before: string, c: char, after: string)
    ensures before + [c] + after == before + ([c] + after)
    ensures ([c] + after)[0] == c && (before + [c])[|before|] == c
  {
  }

  /** Trimming a string around a mark that is no white space trims the two parts at their outer ends. */
  lemma TrimAroundMark(before: string, c: char, after: string)
    requires !IsSpace(c)
    ensures Trim(before + [c] + after) == TrimStart(before) + [c] + TrimEnd(after)
  {
    hide TrimStart, TrimEnd, IsSpace;
    MarkBetween(before, c, after);
    StartBeforeMark(before, [c] + after);
    MarkBetween(TrimStart(before), c, after);
    EndAfterMark(TrimStart(before) + [c], after);
  }

  lemma StartHasNoMark(before: string, c: char)
    requires c !in before
    ensures c !in TrimStart(before)
  {
    var blank := StartIsBlank(before);
    hide TrimStart, IsSpace, Blank;
    assert forall i :: 0 <= i < |TrimStart(before)| ==> TrimStart(before)[i] == before[|blank| + i];
  }

  /** Splitting a trimmed string at a mark that is no white space: the same two parts, up to trimming. */
  lemma SplitOfTrimmed(before: string, c: char, after: string)
    requires c !in before && !IsSpace(c)
    ensures SplitOnce(Trim(before + [c] + after), c) == Some((TrimStart(before), TrimEnd(after)))
    ensures Trim(TrimStart(before)) == Trim(before) && Trim(TrimEnd(after)) == Trim(after)
  {
    hide TrimStart, TrimEnd, IsSpace, SplitOnce;
    StartTrimmedTwice(before);
    EndTrimmedTwice(after);
    TrimAroundMark(before, c, after);
    StartHasNoMark(before, c);
    SplitOnceUnique(TrimStart(before), c, TrimEnd(after));
  }

  /** Without the mark there is nothing to split, trimmed or not. */
  lemma NoMark(s: string, c: char)
    requires !IsSpace(c)
    ensures SplitOnce(Trim(s), c).None? <==> c !in s
  {
    hide TrimStart, TrimEnd, SplitOnce;
    TrimIsTight(s);
    hide Tight, Trim;
    var before, after :| Blank(before) && Blank(after) && s == before + Trim(s) + after;
    assert c !in before && c !in after;
    assert c in Trim(s) <==> c in s;
  }
}
