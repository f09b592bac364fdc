/** Keyset cursors `"<epoch>:<id>"` and the order of ids (ansible_mcp/src/queries.rs). */
module Cursor {
  import opened Wrappers

  type I64 = e: int | -0x8000_0000_0000_0000 <= e < 0x8000_0000_0000_0000

  datatype Key = Key(epoch: I64, id: string)

  // -------------------------------------------------------------- decimal integers

  predicate IsDigit(c: char) { '0' <= c <= '9' }

  function Digits(n: nat): (s: string)
    ensures |s| > 0 && forall c <- s :: IsDigit(c)
  {
    if n < 10 then ['0' + n as char] else Digits(n / 10) + ['0' + (n % 10) as char]
  }

  function DigitsValue(s: string): (n: nat)
    requires forall c <- s :: IsDigit(c)
  {
    if s == "" then 0
    else
      assert IsDigit(s[|s| - 1]);
      10 * DigitsValue(s[..|s| - 1]) + (s[|s| - 1] as int - '0' as int)
  }

  function PrintInt(e: int): string {
    if e < 0 then "-" + Digits(-e) else Digits(e)
  }

  /** `str::parse::<i64>`: an optional sign, at least one digit, and no overflow. */
  function ParseI64(s: string): Option<I64> {
    var signed := |s| > 0 && (s[0] == '+' || s[0] == '-');
    var body := if signed then s[1..] else s;
    if body == "" || !(forall c <- body :: IsDigit(c)) then None
    else
      var n: int := DigitsValue(body);
      var v := if signed && s[0] == '-' then -n else n;
      if -0x8000_0000_0000_0000 <= v < 0x8000_0000_0000_0000 then Some(v) else None
  }

  lemma {:induction false} DigitsRoundTrip(n: nat)
    ensures DigitsValue(Digits(n)) == n
  {
    var s := Digits(n);
    if n < 10 {
      assert s[..|s| - 1] == "";
    } else {
      DigitsRoundTrip(n / 10);
      assert s[..|s| - 1] == Digits(n / 10);
    }
  }

  lemma IntRoundTrip(e: I64)
    ensures ParseI64(PrintInt(e)) == Some(e)
    ensures ':' !in PrintInt(e)
  {
    var v: int := e;
    var n := if v < 0 then -v else v;
    DigitsRoundTrip(n);
    var s := PrintInt(e);
    if e < 0 { assert s[1..] == Digits(n); } else { assert IsDigit(s[0]); }
  }

  // ------------------------------------------------------------------------ cursors

  function Print(k: Key): string {
    PrintInt(k.epoch) + ":" + k.id
  }

  /** `str::split_once(':')`: the parts around the first colon. */
  function SplitOnce(raw: string): Option<(string, string)> {
    if raw == "" then None
    else if raw[0] == ':' then Some(("", raw[1..]))
    else
      match SplitOnce(raw[1..])
      case None => None
      case Some((left, right)) => Some(([raw[0]] + left, right))
  }

  datatype CursorError = MalformedCursor

  /** No cursor, a key to continue after, or an error. */
  function Parse(cursor: Option<string>): Result<Option<Key>, CursorError> {
    match cursor
    case None => Ok(None)
    case Some(raw) =>
      match SplitOnce(raw)
      case None => Err(MalformedCursor)
      case Some((epoch, id)) =>
        match ParseI64(epoch)
        case None => Err(MalformedCursor)
        case Some(e) => Ok(Some(Key(e, id)))
  }

  lemma {:induction false} SplitOnceAtColon(left: string, right: string)
    requires ':' !in left
    ensures SplitOnce(left + ":" + right) == Some((left, right))
  {
    var raw := left + ":" + right;
    if left == "" {
      assert raw[1..] == right;
    } else {
      assert raw[1..] == left[1..] + ":" + right;
      SplitOnceAtColon(left[1..], right);
      assert left == [left[0]] + left[1..];
    }
  }

  /** Every key survives printing and parsing: negative epochs, and ids that contain
      colons, are empty or look like numbers. */
  lemma CursorRoundTrip(k: Key)
    ensures Parse(Some(Print(k))) == Ok(Some(k))
  {
    IntRoundTrip(k.epoch);
    SplitOnceAtColon(PrintInt(k.epoch), k.id);
  }

  lemma {:induction false} SplitOnceIff(raw: string)
    ensures SplitOnce(raw).None? <==> ':' !in raw
    ensures SplitOnce(raw).Some? ==>
              var (left, right) := SplitOnce(raw).value; raw == left + ":" + right && ':' !in left
  {
    if raw != "" && raw[0] != ':' {
      SplitOnceIff(raw[1..]);
      assert raw == [raw[0]] + raw[1..];
    }
  }

  /** A cursor is refused exactly when it has no colon or what stands before the first colon is no 64-bit integer;
      otherwise it means that integer and everything after the first colon. */
  lemma ParseMeans(raw: string)
    ensures Parse(None) == Ok(None)
    ensures Parse(Some(raw)).Err? <==> forall left, right :: raw == left + ":" + right && ':' !in left ==> ParseI64(left).None?
    ensures Parse(Some(raw)).Ok? ==>
              Parse(Some(raw)).value.Some? &&
              exists left :: ':' !in left && raw == left + ":" + Parse(Some(raw)).value.value.id
                             && ParseI64(left) == Some(Parse(Some(raw)).value.value.epoch)
  {
    SplitOnceIff(raw);
    forall left, right | raw == left + ":" + right && ':' !in left ensures SplitOnce(raw) == Some((left, right)) {
      SplitOnceAtColon(left, right);
    }
  }

  /** `s` is an optional sign followed by at least one digit. */
  ghost predicate Numeral(s: string, negative: bool, digits: string) {
    && digits != "" && (forall c <- digits :: IsDigit(c))
    && (if negative then s == "-" + digits else s == digits || s == "+" + digits)
  }

  lemma ParseI64Means(s: string, negative: bool, digits: string)
    requires Numeral(s, negative, digits)
    ensures var n: int := DigitsValue(digits);
      var v := if negative then -n else n;
      ParseI64(s) == if -0x8000_0000_0000_0000 <= v < 0x8000_0000_0000_0000 then Some(v) else None
  {
    assert IsDigit(digits[0]);
    if s != digits { assert s[1..] == digits; }
  }

  /** Nothing but a numeral is an integer. */
  lemma ParseI64OnlyNumerals(s: string)
    requires ParseI64(s).Some?
    ensures exists negative, digits :: Numeral(s, negative, digits)
  {
    if s[0] == '+' || s[0] == '-' {
      assert s == [s[0]] + s[1..];
      assert Numeral(s, s[0] == '-', s[1..]);
    } else {
      assert Numeral(s, false, s);
    }
  }

  // ------------------------------------------------------------------ the row order

  /** SQLite's BINARY collation on ids. */
  predicate LexLess(a: string, b: string) {
    b != "" && (a == "" || a[0] < b[0] || (a[0] == b[0] && LexLess(a[1..], b[1..])))
  }

  lemma {:induction false} LexTotal(a: string, b: string)
    ensures a == b || LexLess(a, b) || LexLess(b, a)
    ensures !(LexLess(a, b) && LexLess(b, a)) && !LexLess(a, a)
  {
    if a != "" {
      LexTotal(a[1..], a[1..]);
      if b != "" {
        LexTotal(a[1..], b[1..]);
        if a[0] == b[0] && a[1..] == b[1..] { assert a == [a[0]] + a[1..] == b; }
      }
    }
  }

  /** At the first difference the smaller character decides; a proper prefix comes first. */
  lemma {:induction false} LexMeans(a: string, b: string)
    ensures LexLess(a, b) <==> (a < b || exists k :: Differ(a, b, k) && a[k] < b[k])
  {
    if a != "" && b != "" && a[0] == b[0] {
      LexMeans(a[1..], b[1..]);
      DifferTail(a, b);
      assert a == [a[0]] + a[1..] && b == [b[0]] + b[1..];
    } else if a != "" && b != "" {
      assert Differ(a, b, 0);
      forall k | Differ(a, b, k) ensures k == 0 { DifferHead(a, b, k); }
    }
  }

  lemma DifferHead(a: string, b: string, k: int)
    requires Differ(a, b, k)
    ensures k > 0 ==> a[0] == b[0]
  {
    if k > 0 { assert a[..k][0] == b[..k][0]; }
  }

  lemma DifferTail(a: string, b: string)
    requires a != "" && b != "" && a[0] == b[0]
    ensures (exists k :: Differ(a, b, k) && a[k] < b[k]) <==> exists k :: Differ(a[1..], b[1..], k) && a[1..][k] < b[1..][k]
  {
    var a', b' := a[1..], b[1..];
    if k :| Differ(a', b', k) && a'[k] < b'[k] {
      assert a[..k + 1] == [a[0]] + a'[..k] && b[..k + 1] == [b[0]] + b'[..k];
      assert Differ(a, b, k + 1);
    }
    if k :| Differ(a, b, k) && a[k] < b[k] {
      assert a'[..k - 1] == a[..k][1..] && b'[..k - 1] == b[..k][1..];
      assert Differ(a', b', k - 1);
    }
  }

  /** The strings first differ at `k`. */
  ghost predicate Differ(a: string, b: string, k: int) {
    0 <= k < |a| && k < |b| && a[..k] == b[..k] && a[k] != b[k]
  }

  lemma {:induction false} LexTrans(a: string, b: string, c: string)
    requires LexLess(a, b) && LexLess(b, c)
    ensures LexLess(a, c)
  {
    if a != "" && a[0] == b[0] == c[0] { LexTrans(a[1..], b[1..], c[1..]); }
  }

  datatype Order = NewestFirst | OldestFirst

  /** `ORDER BY epoch DESC, id ASC` or `ORDER BY epoch ASC, id ASC`; also the keyset
      condition that continues after a cursor. */
  predicate Before(order: Order, a: Key, b: Key) {
    (if order.NewestFirst? then a.epoch > b.epoch else a.epoch < b.epoch)
    || (a.epoch == b.epoch && LexLess(a.id, b.id))
  }

  lemma BeforeTotal(order: Order, a: Key, b: Key)
    ensures a == b || Before(order, a, b) || Before(order, b, a)
    ensures !(Before(order, a, b) && Before(order, b, a)) && !Before(order, a, a)
  {
    LexTotal(a.id, b.id);
    LexTotal(a.id, a.id);
  }

  lemma BeforeTrans(order: Order, a: Key, b: Key, c: Key)
    requires Before(order, a, b) && Before(order, b, c)
    ensures Before(order, a, c)
  {
    if LexLess(a.id, b.id) && LexLess(b.id, c.id) { LexTrans(a.id, b.id, c.id); }
  }
}
