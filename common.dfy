/**
 * Value-level helpers shared by the services and components: optional and
 * failing results, JavaScript truthiness of optional strings, ASCII case
 * mapping (the `toUpperCase`/`toLowerCase` calls of the application), the
 * single-character `split`/`join` pair, and decimal rendering of integers.
 */
module Common {

  datatype Option<T> = None | Some(value: T) {
    function GetOr(default: T): T {
      match this
      case Some(v) => v
      case None => default
    }
  }

  datatype Result<T, E> = Ok(value: T) | Err(error: E)

  /** JavaScript truthiness of an optional string: `undefined`, `null` and "" are falsy. */
  predicate Truthy(o: Option<string>) {
    o.Some? && o.value != ""
  }

  /** The expression `o || fallback` on an optional string. */
  function OrElse(o: Option<string>, fallback: string): (r: string)
    ensures r == fallback || (Truthy(o) && r == o.value)
    ensures fallback != "" ==> r != ""
  {
    if Truthy(o) then o.value else fallback
  }

  // ---------------------------------------------------------------------------
  // ASCII case mapping

  predicate IsLower(c: char) { 'a' <= c <= 'z' }
  predicate IsUpper(c: char) { 'A' <= c <= 'Z' }
  predicate IsLetter(c: char) { IsLower(c) || IsUpper(c) }

  function UpperChar(c: char): (r: char)
    ensures !IsLower(r)
    ensures IsLower(c) ==> IsUpper(r)
    ensures !IsLower(c) ==> r == c
  {
    if IsLower(c) then (c as int - 32) as char else c
  }

  function LowerChar(c: char): (r: char)
    ensures !IsUpper(r)
    ensures IsUpper(c) ==> IsLower(r)
    ensures !IsUpper(c) ==> r == c
  {
    if IsUpper(c) then (c as int + 32) as char else c
  }

  function Upper(s: string): (r: string)
    ensures |r| == |s|
    ensures forall i :: 0 <= i < |s| ==> r[i] == UpperChar(s[i])
  {
    seq(|s|, i requires 0 <= i < |s| => UpperChar(s[i]))
  }

  function Lower(s: string): (r: string)
    ensures |r| == |s|
    ensures forall i :: 0 <= i < |s| ==> r[i] == LowerChar(s[i])
  {
    seq(|s|, i requires 0 <= i < |s| => LowerChar(s[i]))
  }

  /** Upper-casing twice is upper-casing once, so two strings that agree once upper-cased stay equal. */
  lemma UpperIdempotent(s: string)
    ensures Upper(Upper(s)) == Upper(s)
  {
  }

  /** Upper-casing ignores an earlier lower-casing. */
  lemma UpperLower(s: string)
    ensures Upper(Lower(s)) == Upper(s)
  {
  }

  // ---------------------------------------------------------------------------
  // `String.prototype.split` and `Array.prototype.join` with a one-character separator

  /** The pieces of `s` between occurrences of `sep`; like JavaScript, "" splits into [""]. */
  function Split(s: string, sep: char): (parts: seq<string>)
    ensures |parts| >= 1
    ensures forall k :: 0 <= k < |parts| ==> sep !in parts[k]
    decreases |s|
  {
    if s == [] then [""]
    else
      var rest := Split(s[1..], sep);
      if s[0] == sep then [""] + rest
      else [[s[0]] + rest[0]] + rest[1..]
  }

  function Join(parts: seq<string>, sep: char): (s: string)
    decreases |parts|
  {
    if |parts| == 0 then ""
    else if |parts| == 1 then parts[0]
    else parts[0] + [sep] + Join(parts[1..], sep)
  }

  /** Joining the pieces of a split with the same separator gives back the original string. */
  lemma {:induction false} JoinSplit(s: string, sep: char)
    ensures Join(Split(s, sep), sep) == s
    decreases |s|
  {
    if s != [] {
      var rest := Split(s[1..], sep);
      JoinSplit(s[1..], sep);
      if s[0] == sep {
        assert Split(s, sep) == [""] + rest;
        assert s == [s[0]] + s[1..];
      } else {
        assert Split(s, sep) == [[s[0]] + rest[0]] + rest[1..];
        if |rest| == 1 {
          assert Join(rest, sep) == rest[0];
        } else {
          assert Join(rest, sep) == rest[0] + [sep] + Join(rest[1..], sep);
          assert rest[1..][1..] == rest[2..];
        }
        assert s == [s[0]] + s[1..];
      }
    }
  }

  /** Splitting a join of separator-free pieces recovers the pieces: the join is unambiguous. */
  lemma {:induction false} SplitJoin(parts: seq<string>, sep: char)
    requires |parts| >= 1
    requires forall k :: 0 <= k < |parts| ==> sep !in parts[k]
    ensures Split(Join(parts, sep), sep) == parts
    decreases |parts|
  {
    if |parts| == 1 {
      SplitFree(parts[0], sep);
    } else {
      var tail := Join(parts[1..], sep);
      SplitJoin(parts[1..], sep);
      SplitPrefix(parts[0], [sep] + tail, sep);
      assert parts[0] + [sep] + tail == parts[0] + ([sep] + tail);
      assert ([sep] + tail)[1..] == tail;
      assert Split([sep] + tail, sep) == [""] + parts[1..];
      assert parts[0] + "" == parts[0];
      assert ([""] + parts[1..])[1..] == parts[1..];
      assert [parts[0]] + parts[1..] == parts;
    }
  }

  /** A string without the separator splits into itself alone. */
  lemma {:induction false} SplitFree(s: string, sep: char)
    requires sep !in s
    ensures Split(s, sep) == [s]
    decreases |s|
  {
    if s != [] {
      assert sep !in s[1..];
      SplitFree(s[1..], sep);
      assert s == [s[0]] + s[1..];
    }
  }

  /** Prepending separator-free text `p` glues it onto the first piece of the split. */
  lemma {:induction false} SplitPrefix(p: string, t: string, sep: char)
    requires sep !in p
    ensures Split(p + t, sep) == [p + Split(t, sep)[0]] + Split(t, sep)[1..]
    decreases |p|
  {
    if p != [] {
      assert (p + t)[1..] == p[1..] + t;
      assert sep !in p[1..];
      SplitPrefix(p[1..], t, sep);
      assert [p[0]] + (p[1..] + Split(t, sep)[0]) == p + Split(t, sep)[0];
    } else {
      var q := Split(t, sep);
      assert p + t == t;
      assert p + q[0] == q[0];
      assert [q[0]] + q[1..] == q;
    }
  }

  /** A separator-free field followed by the separator splits off as one piece. */
  lemma SplitField(p: string, t: string, sep: char)
    requires sep !in p
    ensures Split(p + [sep] + t, sep) == [p] + Split(t, sep)
  {
    SplitPrefix(p, [sep] + t, sep);
    assert p + [sep] + t == p + ([sep] + t);
    assert ([sep] + t)[1..] == t;
    assert Split([sep] + t, sep) == [""] + Split(t, sep);
    assert p + "" == p;
  }

  /** `n` separators in a row split off as `n` empty pieces. */
  lemma {:induction false} SplitSeparators(n: nat, t: string, sep: char)
    ensures Split(seq(n, i => sep) + t, sep) == seq(n, i => "") + Split(t, sep)
  {
    if n > 0 {
      SplitSeparators(n - 1, t, sep);
      var s := seq(n, i => sep) + t;
      assert s == [sep] + (seq(n - 1, i => sep) + t);
      assert s[1..] == seq(n - 1, i => sep) + t;
      assert seq(n, i => "") == [""] + seq(n - 1, i => "");
    } else {
      assert seq(n, i => sep) + t == t;
    }
  }

  // ---------------------------------------------------------------------------
  // Decimal rendering, as JavaScript's `String(n)` for integers

  function DigitChar(d: int): (c: char)
    requires 0 <= d < 10
    ensures '0' <= c <= '9'
  {
    ('0' as int + d) as char
  }

  function NatToString(n: nat): (s: string)
    ensures |s| >= 1
    ensures forall i :: 0 <= i < |s| ==> '0' <= s[i] <= '9'
    decreases n
  {
    if n < 10 then [DigitChar(n)] else NatToString(n / 10) + [DigitChar(n % 10)]
  }

  function IntToString(n: int): (s: string)
    ensures |s| >= 1
    ensures (n < 0) == (s[0] == '-')
  {
    if n < 0 then "-" + NatToString(-n) else NatToString(n)
  }

  /** Math.round for an exact quotient `num / den`: the nearest integer, halves rounded up. */
  function RoundDiv(num: int, den: int): (r: int)
    requires den > 0
    ensures 2 * num - den < 2 * den * r <= 2 * num + den
  {
    var q := (2 * num + den) / (2 * den);
    assert (2 * num + den) == q * (2 * den) + (2 * num + den) % (2 * den);
    q
  }

  function Max(a: int, b: int): int { if a >= b then a else b }
  function Min(a: int, b: int): int { if a <= b then a else b }
}
