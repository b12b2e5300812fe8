/**
 * The string primitives the page relies on: ECMAScript's String.prototype.trim,
 * String.prototype.split on a single character, the truthiness of an optional string, and
 * the `data:` URL format.
 */
module Text {
  import opened Wrappers

  /**
   * The code points ECMAScript classes as WhiteSpace or LineTerminator, which is what trim()
   * strips: tab through carriage return, space, no-break space, ogham space mark, the
   * en quad through hair space block, line and paragraph separators, narrow no-break space,
   * medium mathematical space, ideographic space and the byte order mark.
   */
  predicate IsWhitespace(c: char) {
    ('\U{0009}' <= c <= '\U{000D}') || c == ' ' || c == '\U{00A0}' || c == '\U{1680}' ||
    ('\U{2000}' <= c <= '\U{200A}') || c == '\U{2028}' || c == '\U{2029}' || c == '\U{202F}' ||
    c == '\U{205F}' || c == '\U{3000}' || c == '\U{FEFF}'
  }

  predicate AllWhitespace(s: string) {
    forall i :: 0 <= i < |s| ==> IsWhitespace(s[i])
  }

  /** Drops leading whitespace: the result is a suffix of `s`, and only whitespace was dropped. */
  function TrimStart(s: string): (r: string)
    ensures |r| <= |s| && r == s[|s| - |r|..]
    ensures forall k :: 0 <= k < |s| - |r| ==> IsWhitespace(s[k])
    ensures r == [] || !IsWhitespace(r[0])
  {
    if s != [] && IsWhitespace(s[0]) then TrimStart(s[1..]) else s
  }

  /** Drops trailing whitespace: the result is a prefix of `s`, and only whitespace was dropped. */
  function TrimEnd(s: string): (r: string)
    ensures |r| <= |s| && r == s[..|r|]
    ensures forall k :: |r| <= k < |s| ==> IsWhitespace(s[k])
    ensures r == [] || !IsWhitespace(r[|r| - 1])
  {
    if s != [] && IsWhitespace(s[|s| - 1]) then TrimEnd(s[..|s| - 1]) else s
  }

  /**
   * String.prototype.trim: the result is empty exactly when `s` is all whitespace,
   * and otherwise neither starts nor ends with whitespace.
   */
  function Trim(s: string): (r: string)
    ensures |r| <= |s|
    ensures r == [] <==> AllWhitespace(s)
    ensures r == [] || (!IsWhitespace(r[0]) && !IsWhitespace(r[|r| - 1]))
  {
    var t := TrimStart(s);
    assert t != [] ==> t[0] == s[|s| - |t|];
    TrimEnd(t)
  }

  /** `s[i..j]` is what trimming must leave: only whitespace outside it, none at either end of it. */
  predicate TrimBounds(s: string, i: int, j: int) {
    0 <= i <= j <= |s| &&
    (forall k :: 0 <= k < i ==> IsWhitespace(s[k])) &&
    (forall k :: j <= k < |s| ==> IsWhitespace(s[k])) &&
    (i < j ==> !IsWhitespace(s[i]) && !IsWhitespace(s[j - 1]))
  }

  /** Trimming keeps a slice of its input that meets TrimBounds. */
  lemma TrimIsSlice(s: string)
    ensures exists i, j :: TrimBounds(s, i, j) && Trim(s) == s[i..j]
  {
    var t := TrimStart(s);
    var r := TrimEnd(t);
    var i := |s| - |t|;
    BoundsOfHalves(s, i, t, r);
    TrimCharacterized(s, i, i + |r|);
  }

  /** Whitespace dropped before t and after r, with t a suffix of s and r a prefix of t, leaves TrimBounds. */
  lemma BoundsOfHalves(s: string, i: int, t: string, r: string)
    requires 0 <= i <= |s| && t == s[i..] && |r| <= |t| && r == t[..|r|]
    requires forall k :: 0 <= k < i ==> IsWhitespace(s[k])
    requires forall k :: |r| <= k < |t| ==> IsWhitespace(t[k])
    requires r == [] || (!IsWhitespace(r[0]) && !IsWhitespace(r[|r| - 1]))
    ensures TrimBounds(s, i, i + |r|)
  {
    forall k | i + |r| <= k < |s| ensures IsWhitespace(s[k]) {
      assert s[k] == t[k - i];
    }
    assert r != [] ==> s[i] == r[0] && s[i + |r| - 1] == r[|r| - 1];
  }

  /** Leading whitespace up to the first other character is what TrimStart drops. */
  lemma {:induction false} TrimStartFrom(s: string, i: nat)
    requires i <= |s|
    requires forall k :: 0 <= k < i ==> IsWhitespace(s[k])
    requires i < |s| ==> !IsWhitespace(s[i])
    ensures TrimStart(s) == s[i..]
  {
    if i > 0 {
      TrimStartFrom(s[1..], i - 1);
      assert s[1..][i - 1..] == s[i..];
    }
  }

  /** Trailing whitespace back to the last other character is what TrimEnd drops. */
  lemma {:induction false} TrimEndAt(s: string, j: nat)
    requires j <= |s|
    requires forall k :: j <= k < |s| ==> IsWhitespace(s[k])
    requires 0 < j ==> !IsWhitespace(s[j - 1])
    ensures TrimEnd(s) == s[..j]
    decreases |s| - j
  {
    if j < |s| {
      TrimEndAt(s[..|s| - 1], j);
      assert s[..|s| - 1][..j] == s[..j];
    } else {
      assert s[..j] == s;
    }
  }

  /** Inside TrimBounds, trimming the end of the suffix from i leaves s[i..j]. */
  lemma TrimEndWithin(s: string, i: int, j: int)
    requires TrimBounds(s, i, j) && i < j
    ensures TrimEnd(s[i..]) == s[i..j]
  {
    var t := s[i..];
    forall k | j - i <= k < |t| ensures IsWhitespace(t[k]) {
      assert t[k] == s[k + i];
    }
    assert t[j - i - 1] == s[j - 1];
    TrimEndAt(t, j - i);
    assert t[..j - i] == s[i..j];
  }

  /** TrimBounds is an independent definition of trim: every slice meeting it is the trimmed string. */
  lemma TrimCharacterized(s: string, i: int, j: int)
    requires TrimBounds(s, i, j)
    ensures Trim(s) == s[i..j]
  {
    if i == j {
      assert AllWhitespace(s);
    } else {
      TrimStartFrom(s, i);
      TrimEndWithin(s, i, j);
    }
  }

  /** Trimming twice is trimming once. */
  lemma TrimIdempotent(s: string)
    ensures Trim(Trim(s)) == Trim(s)
  {
    var r := Trim(s);
    // Neither end of r is whitespace, so neither half of trimming removes anything.
    assert TrimStart(r) == r;
    assert TrimEnd(r) == r;
  }

  /** Index of the first `c` in `s`, or |s| when there is none. */
  function IndexOf(s: string, c: char): (k: nat)
    ensures k <= |s|
    ensures c !in s[..k]
    ensures k < |s| ==> s[k] == c
  {
    if s == [] || s[0] == c then 0
    else
      var k := 1 + IndexOf(s[1..], c);
      assert s[..k] == [s[0]] + s[1..][..k - 1];
      k
  }

  /**
   * String.prototype.split with a one-character separator: at least one field, no field holds
   * the separator, and there is more than one field exactly when the separator occurs.
   */
  function Split(s: string, sep: char): (r: seq<string>)
    ensures |r| >= 1
    ensures forall i :: 0 <= i < |r| ==> sep !in r[i]
    ensures |r| >= 2 <==> sep in s
    decreases |s|
  {
    var k := IndexOf(s, sep);
    if k == |s| then
      assert s[..k] == s;
      [s]
    else [s[..k]] + Split(s[k + 1..], sep)
  }

  /** Array.prototype.join with a one-character separator. */
  function Join(fields: seq<string>, sep: char): string {
    if |fields| == 0 then ""
    else if |fields| == 1 then fields[0]
    else fields[0] + [sep] + Join(fields[1..], sep)
  }

  /** Joining the fields of a split gives back the string. */
  lemma {:induction false} JoinSplit(s: string, sep: char)
    ensures Join(Split(s, sep), sep) == s
    decreases |s|
  {
    var k := IndexOf(s, sep);
    if k < |s| {
      var rest := s[k + 1..];
      var fields := Split(rest, sep);
      assert Split(s, sep) == [s[..k]] + fields;
      assert ([s[..k]] + fields)[1..] == fields;
      assert Join([s[..k]] + fields, sep) == s[..k] + [sep] + Join(fields, sep);
      JoinSplit(rest, sep);
      assert s == s[..k] + [sep] + rest;
    } else {
      assert Split(s, sep) == [s];
    }
  }

  /** Splitting a join of separator-free fields gives back the fields. */
  lemma {:induction false} SplitJoin(fields: seq<string>, sep: char)
    requires |fields| >= 1
    requires forall i :: 0 <= i < |fields| ==> sep !in fields[i]
    ensures Split(Join(fields, sep), sep) == fields
  {
    var s := Join(fields, sep);
    var f := fields[0];
    if |fields| > 1 {
      var tail := Join(fields[1..], sep);
      assert s == f + ([sep] + tail);
      IndexOfAfter(f, sep, [sep] + tail);
      assert s[..|f|] == f && s[|f| + 1..] == tail;
      assert Split(s, sep) == [f] + Split(tail, sep);
      SplitJoin(fields[1..], sep);
      assert [f] + fields[1..] == fields;
    } else {
      assert s == f + [];
      IndexOfAfter(f, sep, []);
      assert Split(s, sep) == [s];
    }
  }

  /** A separator-free prefix followed by the separator puts the first separator right after it. */
  lemma {:induction false} IndexOfAfter(a: string, c: char, b: string)
    requires c !in a
    requires b == [] || b[0] == c
    ensures IndexOf(a + b, c) == |a|
    decreases |a|
  {
    if a != [] {
      assert (a + b)[0] == a[0] != c;
      assert (a + b)[1..] == a[1..] + b;
      IndexOfAfter(a[1..], c, b);
    }
  }

  /**
   * JavaScript truthiness of a string that may be `null` or `undefined`: those two and the
   * empty string are falsy, every other string is truthy.
   */
  predicate Truthy(s: Option<string>) {
    s.Some? && s.value != ""
  }

  /** The `data:` URL the page builds around base64 text: `data:{mimeType};base64,{data}`. */
  function DataUrl(mimeType: string, data: string): (r: string)
    ensures |r| == 13 + |mimeType| + |data|
    ensures r[..5] == "data:"
    ensures r[5..5 + |mimeType|] == mimeType
    ensures r[5 + |mimeType|..13 + |mimeType|] == ";base64,"
    ensures r[13 + |mimeType|..] == data
  {
    "data:" + mimeType + ";base64," + data
  }
}
