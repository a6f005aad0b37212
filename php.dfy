/** The PHP primitives the plugin leans on: optional values and errors, ASCII
    string helpers (strtolower, ucfirst, strpos), decimal rendering of whole
    numbers and the rows returned by a `LIMIT size OFFSET offset` query. */
module Php {

  datatype Option<+T> = None | Some(value: T)

  /** An operation that either yields a value or fails with a message
      (a thrown exception or a returned WP_Error). */
  datatype Result<+T> = Ok(value: T) | Err(error: string)

  /** `$m[$k] ?? $d`: the value stored under a key, or a default. */
  function Lookup<K, V>(m: map<K, V>, k: K, d: V): V {
    if k in m then m[k] else d
  }

  function Min(a: int, b: int): int { if a <= b then a else b }

  function Max(a: int, b: int): int { if a <= b then b else a }

  function LowerChar(c: char): char {
    if 'A' <= c <= 'Z' then (c as int + 32) as char else c
  }

  function UpperChar(c: char): char {
    if 'a' <= c <= 'z' then (c as int - 32) as char else c
  }

  /** strtolower: ASCII letters only, as PHP 8 does. */
  function ToLower(s: string): string {
    seq(|s|, i requires 0 <= i < |s| => LowerChar(s[i]))
  }

  /** ucfirst: the first character upper-cased, the rest unchanged. */
  function UcFirst(s: string): string {
    if s == [] then [] else [UpperChar(s[0])] + s[1..]
  }

  /** `strpos($s, $sub) !== false`. */
  predicate Contains(s: string, sub: string)
    decreases |s|
  {
    |sub| <= |s| && (s[..|sub|] == sub || (s != [] && Contains(s[1..], sub)))
  }

  lemma {:induction false} ContainsInfix(a: string, sub: string, b: string)
    ensures Contains(a + sub + b, sub)
    decreases |a|
  {
    var s := a + sub + b;
    if a == [] {
      assert s[..|sub|] == sub;
    } else {
      assert s[1..] == a[1..] + sub + b;
      ContainsInfix(a[1..], sub, b);
    }
  }

  /** A substring found at a known position. */
  lemma ContainsAt(s: string, sub: string, k: nat)
    requires k + |sub| <= |s| && s[k..k + |sub|] == sub
    ensures Contains(s, sub)
  {
    assert s == s[..k] + sub + s[k + |sub|..];
    ContainsInfix(s[..k], sub, s[k + |sub|..]);
  }

  /** Where a contained substring starts. */
  lemma {:induction false} ContainsIndex(s: string, sub: string) returns (k: nat)
    requires Contains(s, sub)
    ensures k + |sub| <= |s| && s[k..k + |sub|] == sub
    decreases |s|
  {
    if s[..|sub|] == sub {
      k := 0;
    } else {
      var k' := ContainsIndex(s[1..], sub);
      k := k' + 1;
      assert s[k..k + |sub|] == s[1..][k'..k' + |sub|];
    }
  }

  /** A substring of a part is a substring of the whole. */
  lemma ContainsWithin(p: string, s: string, q: string, sub: string)
    requires Contains(s, sub)
    ensures Contains(p + s + q, sub)
  {
    var k := ContainsIndex(s, sub);
    var t := p + s + q;
    assert t[|p| + k..|p| + k + |sub|] == s[k..k + |sub|];
    ContainsAt(t, sub, |p| + k);
  }

  function DigitChar(d: nat): char
    requires d < 10
  {
    ('0' as int + d) as char
  }

  /** The decimal digits of a whole number, as `sprintf('%s', ...)` prints a
      whole-valued float. */
  function NatToString(n: nat): (r: string)
    ensures |r| >= 1
    ensures forall i :: 0 <= i < |r| ==> '0' <= r[i] <= '9'
  {
    if n < 10 then [DigitChar(n)] else NatToString(n / 10) + [DigitChar(n % 10)]
  }

  /** The rows of a paginated query with `LIMIT size OFFSET offset`. A limit
      of zero returns no rows; a negative limit or offset is a malformed query,
      on which the database wrapper returns no rows either. */
  function Page<T>(rows: seq<T>, offset: int, size: int): (p: seq<T>)
    ensures |p| <= |rows|
    ensures p != [] <==> 0 <= offset < |rows| && size > 0
    ensures p != [] ==> |p| == Min(size, |rows| - offset)
  {
    if offset < 0 || size <= 0 || offset >= |rows| then []
    else rows[offset..Min(offset + size, |rows|)]
  }

  /** A non-empty page is the slice of the rows that starts at the offset. */
  lemma PageIsSlice<T>(rows: seq<T>, offset: int, size: int)
    requires Page(rows, offset, size) != []
    ensures Page(rows, offset, size) == rows[offset..offset + |Page(rows, offset, size)|]
  {
  }
}
