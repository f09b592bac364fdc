/** Search snippets cut out of UTF-8 text (ansible_mcp/src/queries.rs: `snippet`). */
module Snippet {

  type Byte = b: int | 0 <= b < 256

  const RADIUS: nat := 160
  const ELLIPSIS: seq<Byte> := [0xE2, 0x80, 0xA6]

  predicate Continuation(b: Byte) { 0x80 <= b < 0xC0 }

  /** Length of the encoded character that a leading byte announces; 0 if it is no leading byte. */
  function CharLength(b: Byte): (n: nat)
    ensures n <= 4
  {
    if b < 0x80 then 1 else if b < 0xC2 then 0 else if b < 0xE0 then 2
    else if b < 0xF0 then 3 else if b < 0xF5 then 4 else 0
  }

  /** A run of encoded characters. */
  predicate Utf8(s: seq<Byte>) {
    s == [] ||
    var n := CharLength(s[0]);
    0 < n <= |s| && (forall i :: 0 < i < n ==> Continuation(s[i])) && Utf8(s[n..])
  }

  /** `str::is_char_boundary`. */
  predicate Boundary(s: seq<Byte>, i: int) {
    i == 0 || i == |s| || (0 < i < |s| && !Continuation(s[i]))
  }

  /** In valid text no boundary is further than three bytes away, on either side. */
  lemma {:induction false} BoundaryNear(s: seq<Byte>, i: nat)
    requires Utf8(s) && i < |s|
    ensures exists j :: i - 3 <= j <= i && j >= 0 && Boundary(s, j) && Utf8(s[j..]) && Utf8(s[..j])
    ensures exists j :: i <= j <= i + 3 && j <= |s| && Boundary(s, j) && Utf8(s[j..]) && Utf8(s[..j])
  {
    var n := CharLength(s[0]);
    if i < n {
      assert s[0..] == s && Utf8(s[..0]) && Boundary(s, 0);
      if i == 0 {
      } else {
        CharStart(s, n);
        assert Utf8(s[..n]) by {
          assert s[..n][n..] == [];
        }
        assert i <= n <= i + 3 && Boundary(s, n);
      }
    } else {
      var t := s[n..];
      BoundaryNear(t, i - n);
      var j :| i - n - 3 <= j <= i - n && j >= 0 && Boundary(t, j) && Utf8(t[j..]) && Utf8(t[..j]);
      Shift(s, n, j);
      var k :| i - n <= k <= i - n + 3 && k <= |t| && Boundary(t, k) && Utf8(t[k..]) && Utf8(t[..k]);
      Shift(s, n, k);
      assert n + j >= i - 3 && n + k <= i + 3;
    }
  }

  lemma CharStart(s: seq<Byte>, n: nat)
    requires Utf8(s) && s != [] && n == CharLength(s[0])
    ensures Boundary(s, n)
  {
    if n < |s| { assert CharLength(s[n..][0]) > 0; }
  }

  lemma Shift(s: seq<Byte>, n: nat, j: nat)
    requires Utf8(s) && s != [] && n == CharLength(s[0]) && j <= |s| - n
    requires Boundary(s[n..], j) && Utf8(s[n..][j..]) && Utf8(s[n..][..j])
    ensures Boundary(s, n + j) && Utf8(s[n + j..]) && Utf8(s[..n + j])
  {
    assert s[n..][j..] == s[n + j..];
    assert s[..n + j][n..] == s[n..][..j];
    if j == 0 { CharStart(s, n); }
  }

  /** A boundary of valid text splits it into two valid texts. */
  lemma {:induction false} BoundarySplits(s: seq<Byte>, i: nat)
    requires Utf8(s) && i <= |s| && Boundary(s, i)
    ensures Utf8(s[..i]) && Utf8(s[i..])
  {
    if i == 0 {
      assert s[0..] == s;
    } else if i == |s| {
      assert s[..i] == s;
    } else {
      var n := CharLength(s[0]);
      assert i >= n;
      assert s[n..][i - n..] == s[i..];
      assert s[..i][n..] == s[n..][..i - n];
      BoundarySplits(s[n..], i - n);
    }
  }

  lemma {:induction false} Utf8Concat(a: seq<Byte>, b: seq<Byte>)
    requires Utf8(a) && Utf8(b)
    ensures Utf8(a + b)
  {
    if a == [] {
      assert a + b == b;
    } else {
      var n := CharLength(a[0]);
      assert (a + b)[n..] == a[n..] + b;
      Utf8Concat(a[n..], b);
    }
  }

  /** The first clamping loop: the largest boundary not above `from`, or above the end of the
      text its end. Steps back at most three bytes inside the text. */
  method ClampDown(body: seq<Byte>, from: nat) returns (start: nat)
    requires Utf8(body)
    ensures start <= from && start <= |body| && Boundary(body, start)
    ensures forall i :: start < i <= from ==> !Boundary(body, i)
    ensures from <= |body| ==> from - start <= 3
    ensures from > |body| ==> start == |body|
  {
    start := from;
    while start > 0 && !Boundary(body, start)
      invariant start <= from
      invariant forall i :: start < i <= from ==> !Boundary(body, i)
    {
      start := start - 1;
    }
    if from < |body| {
      BoundaryNear(body, from);
      ghost var j :| from - 3 <= j <= from && j >= 0 && Boundary(body, j);
      assert j <= start;
    }
    if from >= |body| { assert Boundary(body, |body|); }
  }

  /** The second clamping loop: the least boundary not below `from`. */
  method ClampUp(body: seq<Byte>, from: nat) returns (end: nat)
    requires Utf8(body) && from <= |body|
    ensures from <= end <= |body| && Boundary(body, end)
    ensures end - from <= 3
    ensures forall i :: from <= i < end ==> !Boundary(body, i)
  {
    end := from;
    while end < |body| && !Boundary(body, end)
      invariant from <= end <= |body|
      invariant forall i :: from <= i < end ==> !Boundary(body, i)
    {
      end := end + 1;
    }
    if from < |body| { BoundaryNear(body, from); }
  }

  /** `snippet`, for any hit offset: lower-casing may change byte lengths, so the offset found
      in the lowered text can lie anywhere, even past the end of the body. */
  method Cut(body: seq<Byte>, termLength: nat, hit: nat) returns (out: seq<Byte>, start: nat, end: nat)
    requires Utf8(body)
    ensures start <= end <= |body| && Boundary(body, start) && Boundary(body, end)
    ensures Utf8(body[start..end]) && Utf8(out)
    ensures end - start <= 2 * RADIUS + termLength + 6
    ensures var from := if hit < 160 then 0 else hit - 160;
      start <= from && forall i :: start < i <= from ==> !Boundary(body, i)
    ensures var to := if hit + termLength + 160 < |body| then hit + termLength + 160 else |body|;
      to <= end && forall i :: to <= i < end ==> !Boundary(body, i)
    ensures hit + termLength <= |body| ==> start <= hit && hit + termLength <= end
    ensures out == (if start > 0 then ELLIPSIS else []) + body[start..end] + (if end < |body| then ELLIPSIS else [])
  {
    hide Utf8;
    var from := if hit < RADIUS then 0 else hit - RADIUS;
    start := ClampDown(body, from);
    var to := hit + termLength + RADIUS;
    if to > |body| { to := |body|; }
    end := ClampUp(body, to);
    BoundarySplits(body, end);
    assert body[..end][start..] == body[start..end];
    assert Boundary(body[..end], start);
    BoundarySplits(body[..end], start);
    out := [];
    if start > 0 { out := out + ELLIPSIS; }
    Utf8Ellipsis();
    assert out == [] || out == ELLIPSIS;
    assert Utf8(out);
    Utf8Concat(out, body[start..end]);
    out := out + body[start..end];
    Utf8Concat(out, ELLIPSIS);
    if end < |body| { out := out + ELLIPSIS; }
  }

  lemma Utf8Ellipsis()
    ensures Utf8(ELLIPSIS) && Utf8([])
  {
    assert ELLIPSIS[3..] == [];
  }
}
