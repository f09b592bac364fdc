/** Literal search through SQL LIKE (ansible_mcp/src/queries.rs: `escape_like`, `search_content`). */
module Like {

  /** `str::replace` of one character by a string. */
  function Replace(s: string, c: char, to: string): string {
    if s == "" then "" else (if s[0] == c then to else [s[0]]) + Replace(s[1..], c, to)
  }

  /** The source's three replacements, backslash first. */
  function EscapeLike(term: string): string {
    Replace(Replace(Replace(term, '\\', "\\\\"), '%', "\\%"), '_', "\\_")
  }

  predicate Special(c: char) { c == '\\' || c == '%' || c == '_' }

  /** One pass: a backslash before every special character. */
  function EscapeOnePass(term: string): string {
    if term == "" then ""
    else (if Special(term[0]) then ['\\', term[0]] else [term[0]]) + EscapeOnePass(term[1..])
  }

  lemma {:induction false} ReplaceConcat(a: string, b: string, c: char, to: string)
    ensures Replace(a + b, c, to) == Replace(a, c, to) + Replace(b, c, to)
  {
    if a == "" {
      assert a + b == b;
    } else {
      assert (a + b)[1..] == a[1..] + b;
      ReplaceConcat(a[1..], b, c, to);
    }
  }

  /** No replacement rewrites what an earlier one inserted. */
  lemma {:induction false} EscapeIsOnePass(term: string)
    ensures EscapeLike(term) == EscapeOnePass(term)
  {
    if term != "" {
      EscapeIsOnePass(term[1..]);
      var head, tail := [term[0]], term[1..];
      assert term == head + tail;
      ReplaceConcat(head, tail, '\\', "\\\\");
      var h1, t1 := Replace(head, '\\', "\\\\"), Replace(tail, '\\', "\\\\");
      ReplaceConcat(h1, t1, '%', "\\%");
      var h2, t2 := Replace(h1, '%', "\\%"), Replace(t1, '%', "\\%");
      ReplaceConcat(h2, t2, '_', "\\_");
      EscapeOneChar(term[0]);
    }
  }

  lemma ReplaceChar(d: char, c: char, to: string)
    ensures Replace([d], c, to) == if d == c then to else [d]
  {
    assert [d][1..] == "";
    assert Replace("", c, to) == "";
  }

  lemma ReplacePair(d: char, c: char, to: string)
    requires c != '\\' && d != c
    ensures Replace(['\\', d], c, to) == ['\\', d]
  {
    assert ['\\', d] == ['\\'] + [d];
    ReplaceConcat(['\\'], [d], c, to);
    ReplaceChar('\\', c, to);
    ReplaceChar(d, c, to);
  }

  lemma EscapeOneChar(c: char)
    ensures EscapeLike([c]) == if Special(c) then ['\\', c] else [c]
  {
    ReplaceChar(c, '\\', "\\\\");
    ReplaceChar(c, '%', "\\%");
    ReplaceChar(c, '_', "\\_");
    if c == '\\' { ReplacePair('\\', '%', "\\%"); }
    if c == '\\' || c == '%' { ReplacePair(c, '_', "\\_"); }
  }

  // ------------------------------------------------------------------------- matching

  /** SQLite folds ASCII letters only. */
  function Fold(c: char): char {
    if 'A' <= c <= 'Z' then (c as int + 32) as char else c
  }

  predicate FoldEqual(a: string, b: string) {
    |a| == |b| && forall i :: 0 <= i < |a| ==> Fold(a[i]) == Fold(b[i])
  }

  /** `text LIKE pattern ESCAPE '\'`. A trailing escape character matches nothing. */
  ghost predicate Matches(pattern: string, text: string)
    decreases |pattern|
  {
    if pattern == "" then text == ""
    else if pattern[0] == '%' then exists k :: 0 <= k <= |text| && Matches(pattern[1..], text[k..])
    else if pattern[0] == '_' then text != "" && Matches(pattern[1..], text[1..])
    else if pattern[0] == '\\' then
      |pattern| > 1 && text != "" && Fold(pattern[1]) == Fold(text[0]) && Matches(pattern[2..], text[1..])
    else text != "" && Fold(pattern[0]) == Fold(text[0]) && Matches(pattern[1..], text[1..])
  }

  ghost predicate ContainsAt(text: string, term: string, k: int) {
    0 <= k && k + |term| <= |text| && FoldEqual(text[k..k + |term|], term)
  }

  /** An escaped term matches only itself, up to case, whatever pattern follows it. */
  lemma {:induction false} EscapedIsLiteral(term: string, rest: string, text: string)
    ensures Matches(EscapeOnePass(term) + rest, text)
        <==> |term| <= |text| && FoldEqual(text[..|term|], term) && Matches(rest, text[|term|..])
  {
    var pattern := EscapeOnePass(term) + rest;
    if term == "" {
      assert pattern == rest && text[0..] == text;
    } else {
      var step := if Special(term[0]) then 2 else 1;
      assert pattern[step..] == EscapeOnePass(term[1..]) + rest;
      if text != "" {
        EscapedIsLiteral(term[1..], rest, text[1..]);
        HeadEqual(term, text);
        if |term| <= |text| { assert text[1..][|term[1..]|..] == text[|term|..]; }
      }
    }
  }

  lemma HeadEqual(term: string, text: string)
    requires term != "" && text != ""
    ensures |term| <= |text| ==>
              (FoldEqual(text[..|term|], term)
               <==> Fold(text[0]) == Fold(term[0]) && FoldEqual(text[1..][..|term| - 1], term[1..]))
  {
    if |term| <= |text| {
      var a, b := text[..|term|], text[1..][..|term| - 1];
      assert forall i :: 0 <= i < |b| ==> b[i] == a[i + 1] && term[1..][i] == term[i + 1];
      if Fold(text[0]) == Fold(term[0]) && FoldEqual(b, term[1..]) {
        forall i | 0 <= i < |a| ensures Fold(a[i]) == Fold(term[i]) {
          if i > 0 { assert Fold(b[i - 1]) == Fold(term[1..][i - 1]); }
        }
      }
    }
  }

  /** `%escape_like(t)%` matches exactly the texts that contain `t` up to case. */
  lemma SearchIsContainment(term: string, text: string)
    ensures Matches("%" + EscapeLike(term) + "%", text) <==> exists k :: ContainsAt(text, term, k)
  {
    EscapeIsOnePass(term);
    var body := EscapeOnePass(term) + "%";
    var pattern := "%" + EscapeLike(term) + "%";
    assert pattern[1..] == body;
    forall k | 0 <= k <= |text| ensures Matches(body, text[k..]) <==> ContainsAt(text, term, k) {
      EscapedIsLiteral(term, "%", text[k..]);
      if k + |term| <= |text| {
        assert text[k..][..|term|] == text[k..k + |term|];
        MatchAll(text[k..][|term|..]);
      }
    }
  }

  lemma MatchAll(text: string)
    ensures Matches("%", text)
  {
    assert "%"[1..] == "";
    assert text[|text|..] == "";
  }
}
