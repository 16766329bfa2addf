/** The Python `str` operations the transport and the chat server rely on. */
module PyText {

  /** Python's `str.isspace()` for a single character. */
  predicate IsSpace(c: char) {
    var n := c as int;
    n == 0x20 || 0x09 <= n <= 0x0D || 0x1C <= n <= 0x1F || n == 0x85 || n == 0xA0
    || n == 0x1680 || 0x2000 <= n <= 0x200A || n == 0x2028 || n == 0x2029
    || n == 0x202F || n == 0x205F || n == 0x3000
  }

  /** `s.lstrip()`: drops the leading whitespace and nothing else. */
  function TrimStart(s: string): (r: string)
    ensures |r| <= |s| && r == s[|s| - |r|..]
    ensures forall i :: 0 <= i < |s| - |r| ==> IsSpace(s[i])
    ensures r == [] || !IsSpace(r[0])
  {
    if s != [] && IsSpace(s[0]) then TrimStart(s[1..]) else s
  }

  /** `s.rstrip()`: drops the trailing whitespace and nothing else. */
  function TrimEnd(s: string): (r: string)
    ensures |r| <= |s| && r == s[..|r|]
    ensures forall i :: |r| <= i < |s| ==> IsSpace(s[i])
    ensures r == [] || !IsSpace(r[|r| - 1])
  {
    if s != [] && IsSpace(s[|s| - 1]) then TrimEnd(s[..|s| - 1]) else s
  }

  /** No whitespace at either end. */
  predicate Unpadded(s: string) {
    s == [] || (!IsSpace(s[0]) && !IsSpace(s[|s| - 1]))
  }

  /** Everything of `s` before `i` and from `j` on is whitespace. */
  predicate PaddedOutside(s: string, i: int, j: int) {
    && 0 <= i <= j <= |s|
    && (forall k :: 0 <= k < i ==> IsSpace(s[k]))
    && (forall k :: j <= k < |s| ==> IsSpace(s[k]))
  }

  /** `s.strip()`: the part of `s` between its leading and its trailing whitespace. */
  function Strip(s: string): (r: string)
    ensures |r| <= |s|
    ensures Unpadded(r)
    ensures exists i, j :: PaddedOutside(s, i, j) && r == s[i..j]
  {
    StripRange(s, TrimStart(s), TrimEnd(TrimStart(s)));
    TrimEnd(TrimStart(s))
  }

  /** A prefix `r` of a suffix `t` of `s` is a slice of `s`, and what `t` has after `r` ends `s`. */
  lemma PrefixOfSuffix(s: string, t: string, r: string)
    requires |t| <= |s| && t == s[|s| - |t|..]
    requires |r| <= |t| && r == t[..|r|]
    requires forall k :: |r| <= k < |t| ==> IsSpace(t[k])
    ensures r == s[|s| - |t|..|s| - |t| + |r|]
    ensures forall k :: |s| - |t| + |r| <= k < |s| ==> IsSpace(s[k])
  {
    var i := |s| - |t|;
    forall k | i + |r| <= k < |s| ensures IsSpace(s[k]) {
      assert s[k] == t[k - i];
    }
  }

  /** Trimming both ends keeps the slice from the first non-space to just after the last. */
  lemma StripRange(s: string, t: string, r: string)
    requires t == TrimStart(s) && r == TrimEnd(t)
    ensures PaddedOutside(s, |s| - |t|, |s| - |t| + |r|)
    ensures r == s[|s| - |t|..|s| - |t| + |r|]
  {
    PrefixOfSuffix(s, t, r);
  }

  /** Only one unpadded slice has whitespace all around it, and it is what `strip()` returns. */
  lemma StripUnique(s: string, i: int, j: int)
    requires PaddedOutside(s, i, j) && Unpadded(s[i..j])
    ensures Strip(s) == s[i..j]
  {
    var r := Strip(s);
    var a, b :| PaddedOutside(s, a, b) && r == s[a..b];
    if i < j {
      assert s[i..j][0] == s[i] && s[i..j][|s[i..j]| - 1] == s[j - 1];
      assert a <= i < b;
      assert s[a..b][0] == s[a] && s[a..b][|s[a..b]| - 1] == s[b - 1];
      assert i == a && j == b;
    }
  }

  /** A string with no whitespace at either end is left alone by `strip()`. */
  lemma StripUnpadded(s: string)
    requires Unpadded(s)
    ensures Strip(s) == s
  {
    StripUnique(s, 0, |s|);
    assert s[0..|s|] == s;
  }

  function LowerChar(c: char): (r: char)
    ensures 'A' <= c <= 'Z' ==> 'a' <= r <= 'z' && r as int == c as int + 32
    ensures !('A' <= c <= 'Z') ==> r == c
  {
    if 'A' <= c <= 'Z' then (c as int + 32) as char else c
  }

  /** `s.lower()`, restricted to the ASCII letters. */
  function Lower(s: string): (r: string)
    ensures |r| == |s|
    ensures forall i :: 0 <= i < |s| ==> r[i] == LowerChar(s[i])
  {
    if s == [] then [] else [LowerChar(s[0])] + Lower(s[1..])
  }

  /** `sub` sits in `s` starting at index `i`. */
  predicate OccursAt(s: string, sub: string, i: int) {
    0 <= i <= |s| - |sub| && s[i..i + |sub|] == sub
  }

  /** Python's `sub in s` for strings. */
  function Contains(s: string, sub: string): (r: bool)
    ensures r <==> exists i :: OccursAt(s, sub, i)
  {
    if |sub| > |s| then
      assert forall i :: !OccursAt(s, sub, i);
      false
    else if s[..|sub|] == sub then
      assert OccursAt(s, sub, 0);
      true
    else
      var r := Contains(s[1..], sub);
      assert forall i :: 1 <= i && OccursAt(s, sub, i) ==> OccursAt(s[1..], sub, i - 1);
      assert forall j :: OccursAt(s[1..], sub, j) ==> OccursAt(s, sub, j + 1);
      assert !OccursAt(s, sub, 0);
      r
  }

  function DigitChar(d: nat): char
    requires d < 10
  {
    "0123456789"[d]
  }

  function Digits(n: nat): (r: string)
    ensures r != [] && forall i :: 0 <= i < |r| ==> '0' <= r[i] <= '9'
    decreases n
  {
    if n < 10 then [DigitChar(n)] else Digits(n / 10) + [DigitChar(n % 10)]
  }

  /** `str(i)` for a Python `int`. */
  function IntToString(i: int): (r: string)
    ensures r != []
    ensures i < 0 <==> r[0] == '-'
  {
    if i < 0 then "-" + Digits(-i) else Digits(i)
  }
}
