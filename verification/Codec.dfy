/** The two encodings inside a subscription ID: percent-encoding of a path segment
    (section 2.1 of RFC 3986) and unpadded base64url (section 5 of RFC 4648). */
module Codec {
  import opened Strings

  predicate IsByte(c: char) {
    (c as int) < 256
  }

  ghost predicate IsBytes(s: string) {
    forall i :: 0 <= i < |s| ==> IsByte(s[i])
  }

  predicate IsLetter(c: char) {
    'a' <= c <= 'z' || 'A' <= c <= 'Z'
  }

  predicate IsDigit(c: char) {
    '0' <= c <= '9'
  }

  /** The characters `url.PathEscape` leaves alone. */
  predicate KeptInPath(c: char) {
    IsLetter(c) || IsDigit(c) || c in "-_.~$&+=:@"
  }

  function HexDigit(n: nat): (c: char)
    requires n < 16
    ensures IsDigit(c) || 'A' <= c <= 'F'
  {
    if n < 10 then ('0' as int + n) as char else ('A' as int + n - 10) as char
  }

  function EscapeByte(c: char): string {
    if KeptInPath(c) then [c] else ['%', HexDigit(c as int / 16 % 16), HexDigit(c as int % 16)]
  }

  function PathEscape(s: string): string {
    if s == "" then "" else EscapeByte(s[0]) + PathEscape(s[1..])
  }

  lemma EscapeByteHasNoComma(c: char)
    ensures ',' !in EscapeByte(c)
  {
  }

  lemma {:induction false} EscapedHasNoComma(s: string)
    ensures ',' !in PathEscape(s)
  {
    if s != "" {
      EscapeByteHasNoComma(s[0]);
      EscapedHasNoComma(s[1..]);
    }
  }

  lemma HexDigitDecides(m: nat, n: nat)
    requires m < 16 && n < 16 && HexDigit(m) == HexDigit(n)
    ensures m == n
  {
  }

  lemma HexDecides(c: char, d: char)
    requires IsByte(c) && IsByte(d)
    requires HexDigit(c as int / 16 % 16) == HexDigit(d as int / 16 % 16) && HexDigit(c as int % 16) == HexDigit(d as int % 16)
    ensures c == d
  {
    hide HexDigit;
    HexDigitDecides(c as int / 16 % 16, d as int / 16 % 16);
    HexDigitDecides(c as int % 16, d as int % 16);
  }

  lemma PercentIsEscaped()
    ensures !KeptInPath('%')
  {
  }

  /** The first byte can be read off an escaped string. */
  lemma EscapeByteDecides(c: char, d: char, x: string, y: string)
    requires IsByte(c) && IsByte(d) && EscapeByte(c) + x == EscapeByte(d) + y
    ensures c == d && x == y
  {
    hide KeptInPath, HexDigit, IsByte;
    PercentIsEscaped();
    var l, r := EscapeByte(c) + x, EscapeByte(d) + y;
    assert l[0] == EscapeByte(c)[0] && r[0] == EscapeByte(d)[0];
    if !KeptInPath(c) {
      assert l[1] == EscapeByte(c)[1] && r[1] == EscapeByte(d)[1];
      assert l[2] == EscapeByte(c)[2] && r[2] == EscapeByte(d)[2];
      HexDecides(c, d);
    }
    assert l[|EscapeByte(c)|..] == x;
    assert r[|EscapeByte(d)|..] == y;
  }

  lemma {:induction false} PathEscapeInjective(s: string, t: string)
    requires IsBytes(s) && IsBytes(t) && PathEscape(s) == PathEscape(t)
    ensures s == t
  {
    if s != "" && t != "" {
      EscapeByteDecides(s[0], t[0], PathEscape(s[1..]), PathEscape(t[1..]));
      PathEscapeInjective(s[1..], t[1..]);
      assert s == [s[0]] + s[1..] && t == [t[0]] + t[1..];
    }
  }

  // ---- base64url without padding ----

  function Symbol(n: nat): (c: char)
    requires n < 64
    ensures c != '/' && (IsLetter(c) || IsDigit(c) || c == '-' || c == '_')
  {
    if n < 26 then ('A' as int + n) as char
    else if n < 52 then ('a' as int + n - 26) as char
    else if n < 62 then ('0' as int + n - 52) as char
    else if n == 62 then '-' else '_'
  }

  lemma SymbolInjective(m: nat, n: nat)
    requires m < 64 && n < 64 && Symbol(m) == Symbol(n)
    ensures m == n
  {
  }

  /** Up to three bytes as 24 bits, missing bytes read as zero. */
  function Chunk(s: string): (a: (nat, nat, nat, nat))
    ensures a.0 < 64 && a.1 < 64 && a.2 < 64 && a.3 < 64
  {
    var x, y, z := ByteAt(s, 0), ByteAt(s, 1), ByteAt(s, 2);
    (x / 4, x % 4 * 16 + y / 16, y % 16 * 4 + z / 64, z % 64)
  }

  function Base64(s: string): string {
    if s == "" then ""
    else
      var q := Chunk(s);
      if |s| == 1 then [Symbol(q.0), Symbol(q.1)]
      else if |s| == 2 then [Symbol(q.0), Symbol(q.1), Symbol(q.2)]
      else [Symbol(q.0), Symbol(q.1), Symbol(q.2), Symbol(q.3)] + Base64(s[3..])
  }

  lemma {:induction false} Base64HasNoSlash(s: string)
    ensures '/' !in Base64(s)
  {
    if |s| > 2 {
      Base64HasNoSlash(s[3..]);
    }
  }

  function ByteAt(s: string, i: nat): nat {
    if i < |s| then s[i] as int % 256 else 0
  }

  lemma ByteAtIs(s: string, i: nat)
    requires IsBytes(s) && i < |s|
    ensures ByteAt(s, i) == s[i] as int
  {
    assert IsByte(s[i]);
  }

  /** Three bytes can be read back from four groups of six bits. */
  lemma GroupsDecide(x: nat, y: nat, z: nat, x': nat, y': nat, z': nat)
    requires x / 4 == x' / 4 && x % 4 * 16 + y / 16 == x' % 4 * 16 + y' / 16
    requires y % 16 * 4 + z / 64 == y' % 16 * 4 + z' / 64 && z % 64 == z' % 64
    requires y < 256 && y' < 256 && z < 256 && z' < 256
    ensures x == x' && y == y' && z == z'
  {
    assert y / 16 < 16 && y' / 16 < 16 && z / 64 < 4 && z' / 64 < 4;
    assert x % 4 == x' % 4 && y / 16 == y' / 16;
    assert y % 16 == y' % 16 && z / 64 == z' / 64;
  }

  lemma ChunkInjective(s: string, t: string)
    requires IsBytes(s) && IsBytes(t) && Chunk(s) == Chunk(t)
    ensures |s| > 0 && |t| > 0 ==> s[0] == t[0]
    ensures |s| > 1 && |t| > 1 ==> s[1] == t[1]
    ensures |s| > 2 && |t| > 2 ==> s[2] == t[2]
  {
    GroupsDecide(ByteAt(s, 0), ByteAt(s, 1), ByteAt(s, 2), ByteAt(t, 0), ByteAt(t, 1), ByteAt(t, 2));
    forall i: nat | i < |s| && i < |t| && i < 3 ensures s[i] == t[i] {
      ByteAtIs(s, i);
      ByteAtIs(t, i);
    }
  }

  /** How many symbols encode n bytes. */
  lemma {:induction false} Base64Length(s: string)
    ensures |Base64(s)| == |s| / 3 * 4 + (if |s| % 3 == 0 then 0 else |s| % 3 + 1)
  {
    if |s| > 2 {
      Base64Length(s[3..]);
    }
  }

  lemma {:induction false} Base64Injective(s: string, t: string)
    requires IsBytes(s) && IsBytes(t) && Base64(s) == Base64(t)
    ensures s == t
  {
    hide Chunk, Symbol;
    Base64Length(s);
    Base64Length(t);
    assert |s| == |t|;
    if |s| > 2 {
      SameHead(s, t);
      Base64Injective(s[3..], t[3..]);
      assert s == [s[0], s[1], s[2]] + s[3..] && t == [t[0], t[1], t[2]] + t[3..];
    } else if |s| > 0 {
      SameEnd(s, t);
    }
  }

  lemma SameHead(s: string, t: string)
    requires IsBytes(s) && IsBytes(t) && |s| > 2 && |t| > 2 && Base64(s) == Base64(t)
    ensures s[0] == t[0] && s[1] == t[1] && s[2] == t[2] && Base64(s[3..]) == Base64(t[3..])
  {
    hide Chunk, Symbol;
    var a, b := Chunk(s), Chunk(t);
    var l, r := Base64(s), Base64(t);
    assert l[0] == r[0] && l[1] == r[1] && l[2] == r[2] && l[3] == r[3] && l[4..] == r[4..];
    SymbolInjective(a.0, b.0);
    SymbolInjective(a.1, b.1);
    SymbolInjective(a.2, b.2);
    SymbolInjective(a.3, b.3);
    ChunkInjective(s, t);
  }

  lemma ShortChunk(s: string)
    requires 0 < |s| < 3
    ensures Chunk(s).3 == 0 && (|s| == 1 ==> Chunk(s).2 == 0)
  {
  }

  lemma SameEnd(s: string, t: string)
    requires IsBytes(s) && IsBytes(t) && 0 < |s| == |t| < 3 && Base64(s) == Base64(t)
    ensures s == t
  {
    hide Chunk, Symbol;
    var a, b := Chunk(s), Chunk(t);
    var l, r := Base64(s), Base64(t);
    assert l[0] == r[0] && l[1] == r[1];
    SymbolInjective(a.0, b.0);
    SymbolInjective(a.1, b.1);
    if |s| == 2 {
      assert l[2] == r[2];
      SymbolInjective(a.2, b.2);
    }
    ShortChunk(s);
    ShortChunk(t);
    ChunkInjective(s, t);
    assert |s| == 1 ==> s == [s[0]] && t == [t[0]];
    assert |s| == 2 ==> s == [s[0], s[1]] && t == [t[0], t[1]];
  }

  /** The symbols are those of table 2 of RFC 4648, in order. */
  lemma SymbolSpelled(n: nat)
    requires n < 64
    ensures n < 26 ==> Symbol(n) == "ABCDEFGHIJKLMNOPQRSTUVWXYZ"[n]
    ensures 26 <= n < 52 ==> Symbol(n) == "abcdefghijklmnopqrstuvwxyz"[n - 26]
    ensures 52 <= n < 62 ==> Symbol(n) == "0123456789"[n - 52]
    ensures n >= 62 ==> Symbol(n) == "-_"[n - 62]
  {
  }

  /** Three bytes, read as one number in base 256, are the four symbols that spell it in
      base 64; the rest follows. */
  lemma ThreeBytesEncode(s: string, a: nat, b: nat, c: nat, d: nat)
    requires |s| >= 3 && IsBytes(s) && a < 64 && b < 64 && c < 64 && d < 64
    requires (s[0] as int * 256 + s[1] as int) * 256 + s[2] as int == ((a * 64 + b) * 64 + c) * 64 + d
    ensures Base64(s) == [Symbol(a), Symbol(b), Symbol(c), Symbol(d)] + Base64(s[3..])
  {
    hide Symbol, Chunk;
    ChunkSpells(s, a, b, c, d);
  }

  lemma ChunkSpells(s: string, a: nat, b: nat, c: nat, d: nat)
    requires |s| >= 3 && IsBytes(s) && a < 64 && b < 64 && c < 64 && d < 64
    requires (s[0] as int * 256 + s[1] as int) * 256 + s[2] as int == ((a * 64 + b) * 64 + c) * 64 + d
    ensures Chunk(s) == (a, b, c, d)
  {
    hide ByteAt;
    ByteAtIs(s, 0);
    ByteAtIs(s, 1);
    ByteAtIs(s, 2);
    SameDigits(s[0] as int, s[1] as int, s[2] as int, a, b, c, d);
  }

  lemma SameDigits(x: nat, y: nat, z: nat, a: nat, b: nat, c: nat, d: nat)
    requires x < 256 && y < 256 && z < 256 && a < 64 && b < 64 && c < 64 && d < 64
    requires (x * 256 + y) * 256 + z == ((a * 64 + b) * 64 + c) * 64 + d
    ensures a == x / 4 && b == x % 4 * 16 + y / 16 && c == y % 16 * 4 + z / 64 && d == z % 64
  {
  }

  /** Two bytes left over are three symbols, one byte is two: the missing bits are zero, and
      nothing pads the end. */
  lemma LastBytesEncode(s: string, a: nat, b: nat, c: nat)
    requires IsBytes(s) && a < 64 && b < 64 && c < 64
    ensures |s| == 2 && (s[0] as int * 256 + s[1] as int) * 4 == (a * 64 + b) * 64 + c ==> Base64(s) == [Symbol(a), Symbol(b), Symbol(c)]
    ensures |s| == 1 && s[0] as int * 16 == a * 64 + b ==> Base64(s) == [Symbol(a), Symbol(b)]
    ensures |s| == 0 ==> Base64(s) == ""
  {
    hide Symbol;
    if |s| == 2 && (s[0] as int * 256 + s[1] as int) * 4 == (a * 64 + b) * 64 + c {
      ByteAtIs(s, 0);
      ByteAtIs(s, 1);
      SameDigits(s[0] as int, s[1] as int, 0, a, b, c, 0);
    }
    if |s| == 1 && s[0] as int * 16 == a * 64 + b {
      ByteAtIs(s, 0);
      SameDigits(s[0] as int, 0, 0, a, b, 0, 0);
    }
  }

  /** A byte that may not stand in a path is written as its two hexadecimal digits. */
  lemma EscapedSpelled(c: char, high: nat, low: nat)
    requires high < 16 && low < 16 && c as int == high * 16 + low && !KeptInPath(c)
    ensures EscapeByte(c) == ['%', "0123456789ABCDEF"[high], "0123456789ABCDEF"[low]]
  {
    hide HexDigit, KeptInPath;
    HexSpelled(high);
    HexSpelled(low);
    assert c as int / 16 % 16 == high && c as int % 16 == low;
  }

  lemma HexSpelled(n: nat)
    requires n < 16
    ensures HexDigit(n) == "0123456789ABCDEF"[n]
  {
  }
}
