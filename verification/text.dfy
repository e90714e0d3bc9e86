/** The string primitives the application leans on: `trim`, `toLowerCase`,
    `includes` and `join` of JavaScript strings and arrays. */
module Text {

  /** True when `needle` occurs in `hay` starting at index `i`. */
  ghost predicate OccursAt(hay: string, needle: string, i: int) {
    0 <= i && i + |needle| <= |hay| && hay[i..i + |needle|] == needle
  }

  /** Every character of `s` is whitespace. */
  ghost predicate AllWhitespace(s: string) {
    forall k :: 0 <= k < |s| ==> IsWhitespace(s[k])
  }

  // ---------------------------------------------------------------------
  // trim
  // ---------------------------------------------------------------------

  /** The characters `String.prototype.trim` strips: the ECMAScript
      WhiteSpace set (tab, vertical tab, form feed, the byte-order mark and
      every space separator) and the LineTerminator set. */
  predicate IsWhitespace(c: char)
    ensures IsWhitespace(c) ==> !IsUpperAscii(c) && !('a' <= c <= 'z') && !('0' <= c <= '9')
  {
    || c == '\t' || c == '\n' || c == '\U{000B}' || c == '\U{000C}' || c == '\r'
    || c == ' ' || c == '\U{00A0}' || c == '\U{1680}'
    || ('\U{2000}' <= c <= '\U{200A}')
    || c == '\U{2028}' || c == '\U{2029}' || c == '\U{202F}' || c == '\U{205F}'
    || c == '\U{3000}' || c == '\U{FEFF}'
  }

  /** Scans forward from `i` over whitespace: the index of the first
      non-whitespace character at or after `i`, or `|s|`. */
  function SkipForward(s: string, i: nat): (j: nat)
    requires i <= |s|
    ensures i <= j <= |s|
    ensures forall k :: i <= k < j ==> IsWhitespace(s[k])
    ensures j < |s| ==> !IsWhitespace(s[j])
    decreases |s| - i
  {
    if i < |s| && IsWhitespace(s[i]) then SkipForward(s, i + 1) else i
  }

  /** Scans backward from `j`, not below `lo`, over whitespace: the index
      just past the last non-whitespace character before `j`, or `lo`. */
  function SkipBackward(s: string, lo: nat, j: nat): (i: nat)
    requires lo <= j <= |s|
    ensures lo <= i <= j
    ensures forall k :: i <= k < j ==> IsWhitespace(s[k])
    ensures i > lo ==> !IsWhitespace(s[i - 1])
    decreases j
  {
    if j > lo && IsWhitespace(s[j - 1]) then SkipBackward(s, lo, j - 1) else j
  }

  /** `String.prototype.trim`: the infix between the leading and the
      trailing whitespace. */
  function Trim(s: string): (r: string)
    ensures |r| <= |s|
    ensures r == [] || (!IsWhitespace(r[0]) && !IsWhitespace(r[|r| - 1]))
  {
    var a := SkipForward(s, 0);
    var b := SkipBackward(s, a, |s|);
    s[a..b]
  }

  /** `Trim` is characterised by its result: whatever splits into
      whitespace, a middle part that neither starts nor ends with
      whitespace, and whitespace, trims to that middle part. */
  lemma TrimOfPadded(p: string, m: string, q: string)
    requires AllWhitespace(p) && AllWhitespace(q)
    requires m == [] || (!IsWhitespace(m[0]) && !IsWhitespace(m[|m| - 1]))
    ensures Trim(p + m + q) == m
  {
    var s := p + m + q;
    var a := SkipForward(s, 0);
    var b := SkipBackward(s, a, |s|);
    assert forall k :: 0 <= k < |p| ==> s[k] == p[k];
    assert forall k :: |p| + |m| <= k < |s| ==> s[k] == q[k - |p| - |m|];
    if m == [] {
      assert a == |s|;
      assert s[a..b] == [];
    } else {
      assert s[|p|] == m[0];
      assert a == |p|;
      assert s[|p| + |m| - 1] == m[|m| - 1];
      assert b == |p| + |m|;
      assert s[a..b] == m;
    }
  }

  /** Every string splits into leading whitespace, its trim, and trailing
      whitespace. */
  lemma TrimSplit(s: string) returns (p: string, q: string)
    ensures AllWhitespace(p) && AllWhitespace(q)
    ensures s == p + Trim(s) + q
  {
    var a := SkipForward(s, 0);
    var b := SkipBackward(s, a, |s|);
    p, q := s[..a], s[b..];
    assert s == s[..a] + s[a..b] + s[b..];
  }

  /** Whitespace on both sides of a whole string is whitespace. */
  lemma AllWhitespaceAppend(a: string, b: string)
    requires AllWhitespace(a) && AllWhitespace(b)
    ensures AllWhitespace(a + b)
  {
    forall k | 0 <= k < |a + b| ensures IsWhitespace((a + b)[k]) {
      if k < |a| {
        assert (a + b)[k] == a[k];
      } else {
        assert (a + b)[k] == b[k - |a|];
      }
    }
  }

  /** Moves the edges of a padded middle part into the padding. */
  lemma Regroup(a: string, b: string, c: string, d: string, e: string)
    ensures a + (b + c + d) + e == (a + b) + c + (d + e)
  {
  }

  /** Padding a string with whitespace does not change its trimmed form. */
  lemma TrimIgnoresPadding(pre: string, t: string, post: string)
    requires AllWhitespace(pre) && AllWhitespace(post)
    ensures Trim(pre + t + post) == Trim(t)
  {
    var p, q := TrimSplit(t);
    var m := Trim(t);
    Regroup(pre, p, m, q, post);
    AllWhitespaceAppend(pre, p);
    AllWhitespaceAppend(q, post);
    TrimOfPadded(pre + p, m, q + post);
  }

  /** Trimming a trimmed string changes nothing. */
  lemma TrimIdempotent(s: string)
    ensures Trim(Trim(s)) == Trim(s)
  {
    var m := Trim(s);
    assert [] + m + [] == m;
    TrimOfPadded([], m, []);
  }

  // ---------------------------------------------------------------------
  // toLowerCase
  // ---------------------------------------------------------------------

  predicate IsUpperAscii(c: char) {
    'A' <= c <= 'Z'
  }

  /** Lower-cases one character (ASCII letters only). */
  function LowerChar(c: char): (r: char)
    ensures IsUpperAscii(c) ==> r as int == c as int + 32
    ensures !IsUpperAscii(c) ==> r == c
    ensures !IsUpperAscii(r)
  {
    if IsUpperAscii(c) then (c as int + 32) as char else c
  }

  /** Lower-casing neither creates nor removes whitespace. */
  lemma LowerCharWhitespace(c: char)
    ensures IsWhitespace(LowerChar(c)) <==> IsWhitespace(c)
  {
    if IsUpperAscii(c) {
      assert !IsWhitespace(c);
      assert 'a' <= LowerChar(c) <= 'z';
    }
  }

  /** `String.prototype.toLowerCase`, character by character. */
  function ToLower(s: string): (r: string)
    ensures |r| == |s|
    ensures forall i :: 0 <= i < |s| ==> r[i] == LowerChar(s[i])
    ensures forall i :: 0 <= i < |r| ==> !IsUpperAscii(r[i])
  {
    seq(|s|, i requires 0 <= i < |s| => LowerChar(s[i]))
  }

  /** Lower-casing is idempotent and leaves no upper-case ASCII letter. */
  lemma ToLowerIdempotent(s: string)
    ensures ToLower(ToLower(s)) == ToLower(s)
    ensures forall i :: 0 <= i < |s| ==> !IsUpperAscii(ToLower(s)[i])
  {
  }

  /** Lower-casing distributes over concatenation. */
  lemma ToLowerAppend(a: string, b: string)
    ensures ToLower(a + b) == ToLower(a) + ToLower(b)
  {
  }

  /** Lower-casing commutes with taking a slice. */
  lemma ToLowerSlice(s: string, i: int, j: int)
    requires 0 <= i <= j <= |s|
    ensures ToLower(s)[i..j] == ToLower(s[i..j])
  {
  }

  /** Lower-casing never creates or destroys whitespace, so it commutes with
      trimming. */
  lemma TrimToLowerCommute(s: string)
    ensures Trim(ToLower(s)) == ToLower(Trim(s))
  {
    var p, q := TrimSplit(s);
    var m := Trim(s);
    ToLowerAppend(p + m, q);
    ToLowerAppend(p, m);
    forall k | 0 <= k < |p| ensures IsWhitespace(ToLower(p)[k]) {
      LowerCharWhitespace(p[k]);
    }
    forall k | 0 <= k < |q| ensures IsWhitespace(ToLower(q)[k]) {
      LowerCharWhitespace(q[k]);
    }
    if m != [] {
      LowerCharWhitespace(m[0]);
      LowerCharWhitespace(m[|m| - 1]);
    }
    TrimOfPadded(ToLower(p), ToLower(m), ToLower(q));
  }

  // ---------------------------------------------------------------------
  // includes
  // ---------------------------------------------------------------------

  /** `String.prototype.includes`: tries every start position from `i` on,
      left to right. */
  function IncludesFrom(hay: string, needle: string, i: nat): (b: bool)
    ensures b ==> i + |needle| <= |hay|
    ensures i + |needle| <= |hay| && hay[i..i + |needle|] == needle ==> b
    decreases |hay| - i
  {
    if i + |needle| > |hay| then false
    else if hay[i..i + |needle|] == needle then true
    else IncludesFrom(hay, needle, i + 1)
  }

  /** `hay.includes(needle)`: the scan from the first position. */
  function Includes(hay: string, needle: string): (b: bool)
    ensures b ==> |needle| <= |hay|
    ensures needle == [] ==> b
    ensures |needle| <= |hay| && hay[..|needle|] == needle ==> b
  {
    IncludesFrom(hay, needle, 0)
  }

  /** The scan from `i` finds `needle` exactly when it occurs at or after
      `i`. */
  lemma {:induction false} IncludesFromIffOccurs(hay: string, needle: string, i: nat)
    ensures IncludesFrom(hay, needle, i) <==> exists k :: i <= k && OccursAt(hay, needle, k)
    decreases |hay| - i
  {
    if i + |needle| > |hay| {
    } else if hay[i..i + |needle|] == needle {
      assert OccursAt(hay, needle, i);
    } else {
      IncludesFromIffOccurs(hay, needle, i + 1);
      assert !OccursAt(hay, needle, i);
    }
  }

  /** The scan finds `needle` exactly when it occurs somewhere in `hay`. */
  lemma IncludesIffOccurs(hay: string, needle: string)
    ensures Includes(hay, needle) <==> exists i :: OccursAt(hay, needle, i)
  {
    IncludesFromIffOccurs(hay, needle, 0);
  }

  /** The empty query is found in every string. */
  lemma IncludesEmpty(hay: string)
    ensures Includes(hay, [])
  {
    assert hay[0..0] == [];
  }

  /** Every slice of a string is included in it. */
  lemma IncludesSlice(hay: string, i: int, j: int)
    requires 0 <= i <= j <= |hay|
    ensures Includes(hay, hay[i..j])
  {
    assert OccursAt(hay, hay[i..j], i);
    IncludesIffOccurs(hay, hay[i..j]);
  }

  // ---------------------------------------------------------------------
  // join
  // ---------------------------------------------------------------------

  /** `Array.prototype.join(sep)` on an array of strings. */
  function Join(parts: seq<string>, sep: string): (r: string)
    ensures parts == [] ==> r == []
    ensures |parts| == 1 ==> r == parts[0]
    decreases |parts|
  {
    if |parts| == 0 then []
    else if |parts| == 1 then parts[0]
    else parts[0] + sep + Join(parts[1..], sep)
  }

  /** Where part `i` starts in `Join(parts, sep)`: every earlier part is
      followed by one separator. */
  function Offset(parts: seq<string>, sep: string, i: nat): nat
    requires i <= |parts|
    decreases i
  {
    if i == 0 then 0 else |parts[0]| + |sep| + Offset(parts[1..], sep, i - 1)
  }

  /** The joined string is as long as the parts laid end to end with one
      separator between neighbours. */
  lemma {:induction false} JoinLength(parts: seq<string>, sep: string)
    requires parts != []
    ensures |Join(parts, sep)| == Offset(parts, sep, |parts| - 1) + |parts[|parts| - 1]|
    decreases |parts|
  {
    if |parts| > 1 {
      JoinLength(parts[1..], sep);
    }
  }

  /** A piece of a string placed after a prefix keeps its position. */
  lemma OccursAfter(pre: string, rest: string, needle: string, o: nat)
    requires OccursAt(rest, needle, o)
    ensures OccursAt(pre + rest, needle, |pre| + o)
  {
    assert (pre + rest)[|pre| + o..|pre| + o + |needle|] == rest[o..o + |needle|];
  }

  /** Part `i` sits at its offset in the joined string. */
  lemma {:induction false} JoinPartAt(parts: seq<string>, sep: string, i: nat)
    requires i < |parts|
    ensures OccursAt(Join(parts, sep), parts[i], Offset(parts, sep, i))
    decreases i
  {
    var j := Join(parts, sep);
    if i == 0 {
      if |parts| > 1 {
        assert j[0..|parts[0]|] == parts[0];
      }
    } else {
      var tail := parts[1..];
      JoinPartAt(tail, sep, i - 1);
      assert j == (parts[0] + sep) + Join(tail, sep);
      assert parts[i] == tail[i - 1];
      OccursAfter(parts[0] + sep, Join(tail, sep), tail[i - 1], Offset(tail, sep, i - 1));
    }
  }

  /** A separator follows every part but the last. */
  lemma {:induction false} JoinSeparatorAt(parts: seq<string>, sep: string, i: nat)
    requires i + 1 < |parts|
    ensures OccursAt(Join(parts, sep), sep, Offset(parts, sep, i) + |parts[i]|)
    decreases i
  {
    var j := Join(parts, sep);
    var tail := parts[1..];
    assert j == (parts[0] + sep) + Join(tail, sep);
    if i == 0 {
      assert j[|parts[0]|..|parts[0]| + |sep|] == sep;
    } else {
      JoinSeparatorAt(tail, sep, i - 1);
      assert parts[i] == tail[i - 1];
      OccursAfter(parts[0] + sep, Join(tail, sep), sep, Offset(tail, sep, i - 1) + |tail[i - 1]|);
    }
  }
}
