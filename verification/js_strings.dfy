/**
 * The JavaScript string operations the frontend relies on: the `\s` character
 * class, `trim`, `toLowerCase`, `includes`, `replace` with a string pattern,
 * `split` on one character, `join`, and decimal rendering of a number.
 */
module JsStrings {
  import opened Wrappers

  /** ECMAScript WhiteSpace and LineTerminator code points: what `\s` matches and `trim` removes. */
  predicate IsSpace(c: char) {
    c == '\t' || c == '\n' || c == '\U{000B}' || c == '\U{000C}' || c == '\r' || c == ' '
    || c == '\U{00A0}' || c == '\U{1680}' || ('\U{2000}' <= c <= '\U{200A}') || c == '\U{2028}' || c == '\U{2029}'
    || c == '\U{202F}' || c == '\U{205F}' || c == '\U{3000}' || c == '\U{FEFF}'
  }

  /** No character of `s` is whitespace. */
  predicate NoSpace(s: string) {
    forall i :: 0 <= i < |s| ==> !IsSpace(s[i])
  }

  /** A string is free of whitespace when its first character and the rest are. */
  lemma NoSpaceCons(c: char, s: string)
    ensures NoSpace([c] + s) <==> !IsSpace(c) && NoSpace(s)
  {
    var t := [c] + s;
    assert t[0] == c && t[1..] == s;
    assert forall i :: 1 <= i < |t| ==> t[i] == s[i - 1];
  }

  /** Every character of `s` is whitespace (also true of ""). */
  predicate AllSpace(s: string) {
    forall i :: 0 <= i < |s| ==> IsSpace(s[i])
  }

  /** `s.trimStart()`. */
  function TrimStart(s: string): (r: string)
    ensures |r| <= |s| && r == s[|s| - |r|..]
  {
    if s != [] && IsSpace(s[0]) then TrimStart(s[1..]) else s
  }

  /** What `trimStart` removes is whitespace, and what it keeps does not start with any. */
  lemma {:induction false} TrimStartSpec(s: string)
    ensures var r := TrimStart(s); (r == [] || !IsSpace(r[0])) && AllSpace(s[..|s| - |r|])
  {
    if s != [] && IsSpace(s[0]) {
      TrimStartSpec(s[1..]);
      var r := TrimStart(s);
      var a := s[..|s| - |r|];
      var b := s[1..][..|s| - 1 - |r|];
      forall i | 0 <= i < |a| ensures IsSpace(a[i]) {
        if i > 0 {
          assert a[i] == b[i - 1];
        }
      }
    }
  }

  /** `s.trimEnd()`. */
  function TrimEnd(s: string): (r: string)
    ensures |r| <= |s| && r == s[..|r|]
  {
    if s != [] && IsSpace(s[|s| - 1]) then TrimEnd(s[..|s| - 1]) else s
  }

  /** What `trimEnd` removes is whitespace, and what it keeps does not end with any. */
  lemma {:induction false} TrimEndSpec(s: string)
    ensures var r := TrimEnd(s); (r == [] || !IsSpace(r[|r| - 1])) && AllSpace(s[|r|..])
  {
    if s != [] && IsSpace(s[|s| - 1]) {
      var t := s[..|s| - 1];
      TrimEndSpec(t);
      var r := TrimEnd(s);
      var a := s[|r|..];
      var b := t[|r|..];
      forall i | 0 <= i < |a| ensures IsSpace(a[i]) {
        if i < |b| {
          assert a[i] == b[i];
        }
      }
    }
  }

  /** `s.trim()`. */
  function Trim(s: string): string {
    TrimEnd(TrimStart(s))
  }

  /** `!s.trim()`: the string is empty or whitespace only (see `BlankIffTrimEmpty`). */
  predicate IsBlank(s: string) {
    AllSpace(s)
  }

  /** The trimmed text sits inside the original, after the leading whitespace. */
  lemma TrimOccurs(s: string)
    ensures OccursAt(s, Trim(s), |s| - |TrimStart(s)|)
  {
    var ts := TrimStart(s);
    var te := TrimEnd(ts);
    var k := |s| - |ts|;
    assert ts == s[k..] && te == ts[..|te|];
    PrefixOfSuffixOccurs(s, te, k);
  }

  lemma PrefixOfSuffixOccurs(s: string, t: string, k: nat)
    requires k <= |s| && |t| <= |s| - k && t == s[k..][..|t|]
    ensures OccursAt(s, t, k)
  {
    assert s[k..k + |t|] == s[k..][..|t|];
  }

  /** Trimming the start of an all-whitespace string leaves nothing. */
  lemma {:induction false} TrimStartAllSpace(s: string)
    requires AllSpace(s)
    ensures TrimStart(s) == []
  {
    if s != [] {
      TrimStartAllSpace(s[1..]);
    }
  }

  /** `s.trim()` is empty exactly when every character of `s` is whitespace. */
  lemma BlankIffTrimEmpty(s: string)
    ensures Trim(s) == "" <==> IsBlank(s)
  {
    if AllSpace(s) {
      TrimStartAllSpace(s);
    }
    if Trim(s) == "" {
      TrimEmptyIsAllSpace(s);
    }
  }

  lemma TrimEmptyIsAllSpace(s: string)
    requires Trim(s) == ""
    ensures AllSpace(s)
  {
    var t := TrimStart(s);
    TrimStartSpec(s);
    TrimEndSpec(t);
    assert TrimEnd(t) == [] && t[0..] == t;
    assert AllSpace(t);
    assert t == [];
    assert s[..|s|] == s;
  }

  /** Trimming a trimmed string changes nothing. */
  lemma TrimIdempotent(s: string)
    ensures Trim(Trim(s)) == Trim(s)
  {
    var t := Trim(s);
    var u := TrimStart(s);
    TrimStartSpec(s);
    TrimEndSpec(u);
    if t != [] {
      assert t[0] == u[0];
      assert TrimStart(t) == t;
      assert !IsSpace(t[|t| - 1]);
    }
  }

  /** `c.toLowerCase()` for the ASCII letters; every other character is kept. */
  function LowerChar(c: char): char {
    if 'A' <= c <= 'Z' then (c as int + 32) as char else c
  }

  /** `s.toLowerCase()`, over the ASCII letters. */
  function Lower(s: string): (r: string)
    ensures |r| == |s|
    ensures forall i :: 0 <= i < |s| ==> r[i] == LowerChar(s[i])
  {
    seq(|s|, i requires 0 <= i < |s| => LowerChar(s[i]))
  }

  /** `sub` occurs in `s` starting at position `i`. */
  predicate OccursAt(s: string, sub: string, i: nat) {
    i + |sub| <= |s| && s[i..i + |sub|] == sub
  }

  /** `s.includes(sub)`. */
  predicate Includes(s: string, sub: string)
    decreases |s|
  {
    sub <= s || (s != [] && Includes(s[1..], sub))
  }

  /** An occurrence in the tail of `s` is an occurrence in `s`, one place later. */
  lemma OccursAtTail(s: string, sub: string, i: nat)
    requires s != []
    ensures OccursAt(s[1..], sub, i) <==> OccursAt(s, sub, i + 1)
  {
    if i + 1 + |sub| <= |s| {
      assert s[1..][i..i + |sub|] == s[i + 1..i + 1 + |sub|];
    }
  }

  /** `includes` holds exactly when `sub` occurs at some position of `s`. */
  lemma {:induction false} IncludesIffOccurs(s: string, sub: string)
    ensures Includes(s, sub) <==> exists i: nat :: OccursAt(s, sub, i)
    decreases |s|
  {
    if sub <= s {
      assert OccursAt(s, sub, 0);
    } else if s != [] {
      IncludesIffOccurs(s[1..], sub);
      if Includes(s[1..], sub) {
        var i: nat :| OccursAt(s[1..], sub, i);
        OccursAtTail(s, sub, i);
      }
      if exists i: nat :: OccursAt(s, sub, i) {
        var i: nat :| OccursAt(s, sub, i);
        assert i != 0;
        OccursAtTail(s, sub, i - 1);
      }
    } else {
      assert forall i: nat :: !OccursAt(s, sub, i);
    }
  }

  /** An occurrence of `u` inside an occurrence of `t` is an occurrence of `u`. */
  lemma IncludesInfix(s: string, t: string, u: string, k: nat)
    requires Includes(s, t) && OccursAt(t, u, k)
    ensures Includes(s, u)
  {
    IncludesIffOccurs(s, t);
    var i: nat :| OccursAt(s, t, i);
    assert t == s[i..i + |t|];
    forall j | 0 <= j < |u| ensures s[i + k + j] == u[j] {
      assert u[j] == t[k + j];
    }
    assert s[i + k..i + k + |u|] == u;
    assert OccursAt(s, u, i + k);
    IncludesIffOccurs(s, u);
  }

  /** Lower-casing keeps occurrences where they are. */
  lemma LowerOccurs(s: string, t: string, k: nat)
    requires OccursAt(s, t, k)
    ensures OccursAt(Lower(s), Lower(t), k)
  {
    assert Lower(s)[k..k + |t|] == Lower(t);
  }

  /** `s.indexOf(pat)`, with `None` for -1. */
  function IndexOf(s: string, pat: string): (r: Option<nat>)
    ensures r.Some? ==> OccursAt(s, pat, r.value)
    ensures r.Some? ==> forall j: nat :: j < r.value ==> !OccursAt(s, pat, j)
    ensures r.None? ==> forall j: nat :: !OccursAt(s, pat, j)
    decreases |s|
  {
    if pat <= s then Some(0)
    else if s == [] then None
    else match IndexOf(s[1..], pat)
      case None =>
        assert forall j: nat :: !OccursAt(s, pat, j) by {
          forall j: nat ensures !OccursAt(s, pat, j) {
            if j > 0 { OccursAtTail(s, pat, j - 1); }
          }
        }
        None
      case Some(k) =>
        OccursAtTail(s, pat, k);
        assert forall j: nat :: j < k + 1 ==> !OccursAt(s, pat, j) by {
          forall j: nat | j < k + 1 ensures !OccursAt(s, pat, j) {
            if j > 0 { OccursAtTail(s, pat, j - 1); }
          }
        }
        Some(k + 1)
  }

  /** `s.replace(pat, rep)` with a string pattern: only the first occurrence is replaced. */
  function ReplaceFirst(s: string, pat: string, rep: string): string {
    match IndexOf(s, pat)
    case None => s
    case Some(i) => s[..i] + rep + s[i + |pat|..]
  }

  /** Without an occurrence `replace` changes nothing; with one, putting the pattern back restores `s`. */
  lemma ReplaceFirstSplices(s: string, pat: string, rep: string)
    ensures IndexOf(s, pat).None? ==> ReplaceFirst(s, pat, rep) == s
    ensures IndexOf(s, pat).Some? ==>
      var i := IndexOf(s, pat).value;
      var r := ReplaceFirst(s, pat, rep);
      |r| == |s| - |pat| + |rep| && r[..i] + pat + r[i + |rep|..] == s
  {
    if IndexOf(s, pat).Some? {
      var i := IndexOf(s, pat).value;
      var a, b := s[..i], s[i + |pat|..];
      assert s[i..i + |pat|] == pat;
      assert s == a + pat + b;
      SpliceBack(a, pat, rep, b);
    }
  }

  /** Cutting `a + rep + b` around `rep` and putting `mid` in its place gives `a + mid + b`. */
  lemma SpliceBack(a: string, mid: string, rep: string, b: string)
    ensures var r := a + rep + b;
      |r| == |a| + |rep| + |b| && r[..|a|] + mid + r[|a| + |rep|..] == a + mid + b
  {
    var r := a + rep + b;
    assert r[..|a|] == a;
    assert r[|a| + |rep|..] == b;
  }

  /** `s.split(sep)` for a one-character separator. */
  function Split(s: string, sep: char): (parts: seq<string>)
    ensures |parts| >= 1
    ensures forall k :: 0 <= k < |parts| ==> sep !in parts[k]
  {
    if s == [] then [""]
    else
      var rest := Split(s[1..], sep);
      if s[0] == sep then [""] + rest
      else [[s[0]] + rest[0]] + rest[1..]
  }

  /** `parts.join(sep)`. */
  function Join(parts: seq<string>, sep: char): string {
    if parts == [] then ""
    else if |parts| == 1 then parts[0]
    else parts[0] + [sep] + Join(parts[1..], sep)
  }

  /** Joining the pieces of a split with the same separator gives the string back. */
  lemma {:induction false} JoinSplit(s: string, sep: char)
    ensures Join(Split(s, sep), sep) == s
  {
    if s != [] {
      var rest := Split(s[1..], sep);
      JoinSplit(s[1..], sep);
      if s[0] != sep {
        assert Split(s, sep)[1..] == rest[1..];
        if |rest| == 1 {
          assert Join(Split(s, sep), sep) == [s[0]] + rest[0];
        } else {
          assert Join(rest, sep) == rest[0] + [sep] + Join(rest[1..], sep);
        }
      }
    }
  }

  /** `s.split(sep)[0]`: the text before the first separator, or all of `s`. */
  lemma {:induction false} SplitHead(s: string, sep: char)
    ensures Split(s, sep)[0] <= s
    ensures sep in s ==> |Split(s, sep)[0]| < |s| && s[|Split(s, sep)[0]|] == sep
    ensures sep !in s ==> Split(s, sep)[0] == s
  {
    if s != [] {
      SplitHead(s[1..], sep);
      if s[0] != sep {
        assert sep in s <==> sep in s[1..];
      }
    }
  }

  /** The decimal text of a natural number, as template literals render it. */
  function NatText(n: nat): (r: string)
    ensures |r| >= 1
    ensures forall i :: 0 <= i < |r| ==> '0' <= r[i] <= '9'
  {
    if n < 10 then [Digit(n)] else NatText(n / 10) + [Digit(n % 10)]
  }

  function Digit(d: nat): (c: char)
    requires d < 10
    ensures '0' <= c <= '9'
  {
    ['0', '1', '2', '3', '4', '5', '6', '7', '8', '9'][d]
  }

  /** The characters `encodeURIComponent` leaves as they are. */
  predicate Unreserved(c: char) {
    ('A' <= c <= 'Z') || ('a' <= c <= 'z') || ('0' <= c <= '9')
    || c == '-' || c == '_' || c == '.' || c == '!' || c == '~' || c == '*' || c == '\'' || c == '(' || c == ')'
  }

  /** A character that may appear in an encoded component. */
  predicate UriChar(c: char) {
    Unreserved(c) || c == '%'
  }

  function HexDigit(d: nat): (c: char)
    requires d < 16
    ensures Unreserved(c)
  {
    ['0', '1', '2', '3', '4', '5', '6', '7', '8', '9', 'A', 'B', 'C', 'D', 'E', 'F'][d]
  }

  /** `%XX` for one byte. */
  function Percent(b: nat): (r: string)
    requires b < 256
    ensures |r| == 3 && forall i :: 0 <= i < 3 ==> UriChar(r[i])
  {
    ['%', HexDigit(b / 16), HexDigit(b % 16)]
  }

  /** The UTF-8 bytes of one character. */
  function Utf8(c: char): (bytes: seq<nat>)
    ensures 1 <= |bytes| <= 4 && forall i :: 0 <= i < |bytes| ==> bytes[i] < 256
  {
    var n := c as int;
    if n < 0x80 then [n]
    else if n < 0x800 then [0xC0 + n / 64, 0x80 + n % 64]
    else if n < 0x10000 then [0xE0 + n / 4096, 0x80 + (n / 64) % 64, 0x80 + n % 64]
    else [0xF0 + n / 262144, 0x80 + (n / 4096) % 64, 0x80 + (n / 64) % 64, 0x80 + n % 64]
  }

  function PercentAll(bytes: seq<nat>): (r: string)
    requires forall i :: 0 <= i < |bytes| ==> bytes[i] < 256
    ensures |r| == 3 * |bytes| && forall i :: 0 <= i < |r| ==> UriChar(r[i])
  {
    if bytes == [] then [] else Percent(bytes[0]) + PercentAll(bytes[1..])
  }

  /** The `k`-th byte is written at positions `3k .. 3k + 2`. */
  lemma {:induction false} PercentAllAt(bytes: seq<nat>, k: nat)
    requires forall i :: 0 <= i < |bytes| ==> bytes[i] < 256
    requires k < |bytes|
    ensures PercentAll(bytes)[3 * k .. 3 * k + 3] == Percent(bytes[k])
  {
    var head := Percent(bytes[0]);
    var tail := PercentAll(bytes[1..]);
    assert PercentAll(bytes) == head + tail;
    if k == 0 {
      SlicePrefix(head, tail);
    } else {
      PercentAllAt(bytes[1..], k - 1);
      SliceAfterTriple(head, tail, k);
    }
  }

  lemma SlicePrefix(head: string, tail: string)
    requires |head| == 3
    ensures (head + tail)[0 .. 3] == head
  {
  }

  lemma SliceAfterTriple(head: string, tail: string, k: nat)
    requires |head| == 3 && 1 <= k && 3 * k <= |tail|
    ensures (head + tail)[3 * k .. 3 * k + 3] == tail[3 * k - 3 .. 3 * k]
  {
  }

  /** One character encoded: itself when unreserved, otherwise `%XX` per UTF-8 byte. */
  function EncodeChar(c: char): (r: string)
    ensures Unreserved(c) ==> r == [c]
    ensures !Unreserved(c) ==> |r| == 3 * |Utf8(c)|
    ensures forall i :: 0 <= i < |r| ==> UriChar(r[i])
  {
    if Unreserved(c) then [c] else PercentAll(Utf8(c))
  }

  /** A reserved character becomes, byte by byte, the `%XX` text of its UTF-8 encoding. */
  lemma EncodeCharBytes(c: char, k: nat)
    requires !Unreserved(c) && k < |Utf8(c)|
    ensures EncodeChar(c)[3 * k .. 3 * k + 3] == Percent(Utf8(c)[k])
    ensures EncodeChar(c)[3 * k] == '%'
  {
    var b := Utf8(c);
    var r := EncodeChar(c);
    assert r == PercentAll(b);
    PercentAllAt(b, k);
    assert r[3 * k] == r[3 * k .. 3 * k + 3][0];
  }

  /** `encodeURIComponent(s)`: unreserved characters kept, every other one as its percent-encoded UTF-8 bytes. */
  function EncodeUriComponent(s: string): (r: string)
    ensures |r| >= |s|
    ensures forall i :: 0 <= i < |r| ==> UriChar(r[i])
  {
    if s == [] then [] else EncodeChar(s[0]) + EncodeUriComponent(s[1..])
  }

  /** The encoding works character by character: encoding a concatenation concatenates the encodings. */
  lemma {:induction false} EncodeConcat(a: string, b: string)
    ensures EncodeUriComponent(a + b) == EncodeUriComponent(a) + EncodeUriComponent(b)
  {
    if a != [] {
      var ab := a + b;
      assert ab[0] == a[0];
      assert ab[1..] == a[1..] + b;
      var e := EncodeChar(a[0]);
      calc {
        EncodeUriComponent(ab);
        e + EncodeUriComponent(a[1..] + b);
        { EncodeConcat(a[1..], b); }
        e + (EncodeUriComponent(a[1..]) + EncodeUriComponent(b));
        (e + EncodeUriComponent(a[1..])) + EncodeUriComponent(b);
      }
    } else {
      assert a + b == b;
    }
  }

  /** The characters an email carries besides letters: '@' is "%40", '+' is "%2B" and a space "%20". */
  lemma EncodeEmailCharacters()
    ensures EncodeUriComponent("@") == "%40"
    ensures EncodeUriComponent("+") == "%2B"
    ensures EncodeUriComponent(" ") == "%20"
  {
    EncodeSingle('@');
    EncodeSingle('+');
    EncodeSingle(' ');
    assert Utf8('@') == [64] && Utf8('+') == [43] && Utf8(' ') == [32];
    assert EncodeChar('@') == Percent(64) == "%40";
    assert EncodeChar('+') == Percent(43) == "%2B";
    assert EncodeChar(' ') == Percent(32) == "%20";
  }

  lemma EncodeSingle(c: char)
    ensures EncodeUriComponent([c]) == EncodeChar(c)
  {
    assert [c][1..] == [];
  }

  /** Text made only of unreserved characters is encoded as itself. */
  lemma {:induction false} EncodeUnreservedIsIdentity(s: string)
    requires forall i :: 0 <= i < |s| ==> Unreserved(s[i])
    ensures EncodeUriComponent(s) == s
  {
    if s != [] {
      EncodeUnreservedIsIdentity(s[1..]);
    }
  }
}
