/**
 * The two JavaScript string built-ins the screens rely on: `String.prototype.trim`
 * (the "is the input blank?" guards) and `String.prototype.split` with a one-character
 * separator (stripping the header of an image data URL).
 */
module JsText {
  import opened Wrappers

  /** A code point that `trim` removes: ECMAScript's WhiteSpace and LineTerminator productions. */
  predicate IsJsWhitespace(c: char) {
    var n := c as int;
    n == 0x09 || n == 0x0A || n == 0x0B || n == 0x0C || n == 0x0D || n == 0x20 ||
    n == 0xA0 || n == 0x1680 || (0x2000 <= n <= 0x200A) || n == 0x2028 || n == 0x2029 ||
    n == 0x202F || n == 0x205F || n == 0x3000 || n == 0xFEFF
  }

  predicate AllWhitespace(s: string) {
    forall i :: 0 <= i < |s| ==> IsJsWhitespace(s[i])
  }

  /** Drops leading whitespace: the result is a suffix of `s` that does not start with
      whitespace (`TrimStartDropsWhitespace` shows that what it drops is whitespace). */
  function TrimStart(s: string): (r: string)
    ensures |r| <= |s| && r == s[|s| - |r|..]
    ensures r != [] ==> !IsJsWhitespace(r[0])
  {
    if s != [] && IsJsWhitespace(s[0]) then TrimStart(s[1..]) else s
  }

  /** Drops trailing whitespace: the result is a prefix of `s` that does not end with
      whitespace (`TrimEndDropsWhitespace` shows that what it drops is whitespace). */
  function TrimEnd(s: string): (r: string)
    ensures |r| <= |s| && r == s[..|r|]
    ensures r != [] ==> !IsJsWhitespace(r[|r| - 1])
  {
    if s != [] && IsJsWhitespace(s[|s| - 1]) then TrimEnd(s[..|s| - 1]) else s
  }

  /** `TrimStart` removes only whitespace. */
  lemma {:induction false} TrimStartDropsWhitespace(s: string)
    ensures AllWhitespace(s[..|s| - |TrimStart(s)|])
  {
    if s != [] && IsJsWhitespace(s[0]) {
      TrimStartDropsWhitespace(s[1..]);
      var k := |s| - |TrimStart(s)|;
      assert forall i :: 1 <= i < k ==> s[..k][i] == s[1..][..k - 1][i - 1];
    }
  }

  /** `TrimEnd` removes only whitespace. */
  lemma {:induction false} TrimEndDropsWhitespace(s: string)
    ensures AllWhitespace(s[|TrimEnd(s)|..])
  {
    if s != [] && IsJsWhitespace(s[|s| - 1]) {
      var p := s[..|s| - 1];
      TrimEndDropsWhitespace(p);
      var k := |TrimEnd(s)|;
      assert forall i :: 0 <= i < |p| - k ==> s[k..][i] == p[k..][i];
    }
  }

  /** The contract of `TrimStart` and `TrimStartDropsWhitespace` together determine it: the
      only suffix of `s` that drops nothing but whitespace and does not start with whitespace. */
  lemma {:induction false} TrimStartUnique(s: string, r: string)
    requires |r| <= |s| && r == s[|s| - |r|..]
    requires AllWhitespace(s[..|s| - |r|])
    requires r != [] ==> !IsJsWhitespace(r[0])
    ensures r == TrimStart(s)
  {
    if |r| < |s| {
      var k := |s| - |r|;
      var dropped, rest := s[..k], s[1..][..k - 1];
      assert s[0] == dropped[0];
      assert s[1..][k - 1..] == r;
      assert forall i :: 1 <= i < k ==> rest[i - 1] == dropped[i];
      TrimStartUnique(s[1..], r);
    } else {
      assert r == s;
      if s != [] {
        assert !IsJsWhitespace(s[0]);
      }
    }
  }

  /** Likewise for `TrimEnd`: the only prefix of `s` that drops nothing but whitespace and does
      not end with whitespace. */
  lemma {:induction false} TrimEndUnique(s: string, r: string)
    requires |r| <= |s| && r == s[..|r|]
    requires AllWhitespace(s[|r|..])
    requires r != [] ==> !IsJsWhitespace(r[|r| - 1])
    ensures r == TrimEnd(s)
  {
    if |r| < |s| {
      var p := s[..|s| - 1];
      assert s[|s| - 1] == s[|r|..][|s| - 1 - |r|];
      assert p[..|r|] == r;
      assert forall i :: 0 <= i < |p| - |r| ==> p[|r|..][i] == s[|r|..][i];
      TrimEndUnique(p, r);
    } else {
      assert r == s;
    }
  }

  /** `s.trim()`: no longer than `s`, and neither end is whitespace. */
  function Trim(s: string): (r: string)
    ensures |r| <= |s|
    ensures r != [] ==> !IsJsWhitespace(r[0]) && !IsJsWhitespace(r[|r| - 1])
  {
    var t := TrimStart(s);
    assert TrimEnd(t) != [] ==> TrimEnd(t)[0] == t[0];
    TrimEnd(t)
  }

  /** The guard `!s.trim()`: the trimmed string is empty, hence falsy. The empty string is
      blank, and a blank string starts with whitespace if it starts at all. */
  predicate Blank(s: string)
    ensures s == [] ==> Blank(s)
    ensures Blank(s) && s != [] ==> IsJsWhitespace(s[0])
  {
    TrimEndEmpty(TrimStart(s));
    Trim(s) == []
  }

  /** Only a string of whitespace loses everything to `TrimStart`. */
  lemma {:induction false} TrimStartEmpty(s: string)
    ensures TrimStart(s) == [] <==> AllWhitespace(s)
  {
    if s != [] {
      TrimStartEmpty(s[1..]);
      assert forall i :: 1 <= i < |s| ==> s[1..][i - 1] == s[i];
    }
  }

  /** Only a string of whitespace loses everything to `TrimEnd`. */
  lemma {:induction false} TrimEndEmpty(s: string)
    ensures TrimEnd(s) == [] <==> AllWhitespace(s)
  {
    if s != [] {
      TrimEndEmpty(s[..|s| - 1]);
      assert forall i :: 0 <= i < |s| - 1 ==> s[..|s| - 1][i] == s[i];
    }
  }

  /** `!s.trim()` holds exactly when every character of `s` is whitespace. */
  lemma BlankIffAllWhitespace(s: string)
    ensures Blank(s) <==> AllWhitespace(s)
  {
    TrimStartEmpty(s);
    TrimEndEmpty(TrimStart(s));
  }

  /** Trimming removes only whitespace, from both ends: the result is a contiguous slice of `s`
      whose two ends are not whitespace, and everything cut off before and after it is. */
  lemma TrimIsSlice(s: string)
    ensures exists i, j :: 0 <= i <= j <= |s| && Trim(s) == s[i..j] &&
                           AllWhitespace(s[..i]) && AllWhitespace(s[j..])
    ensures Trim(s) != [] ==> !IsJsWhitespace(Trim(s)[0]) && !IsJsWhitespace(Trim(s)[|Trim(s)| - 1])
  {
    var t := TrimStart(s);
    var r := TrimEnd(t);
    var i := |s| - |t|;
    var j := i + |r|;
    TrimStartDropsWhitespace(s);
    TrimEndDropsWhitespace(t);
    assert r == s[i..j];
    assert t[|r|..] == s[j..];
  }

  /** `s.split(sep)` for a one-character separator: the pieces between separators, never empty. */
  function Split(s: string, sep: char): (parts: seq<string>)
    ensures |parts| >= 1
    ensures forall k :: 0 <= k < |parts| ==> sep !in parts[k]
  {
    if s == [] then [[]]
    else
      var rest := Split(s[1..], sep);
      if s[0] == sep then [[]] + rest
      else [[s[0]] + rest[0]] + rest[1..]
  }

  /** `parts.join(sep)`, the inverse of `Split`. */
  function Join(parts: seq<string>, sep: char): string
    requires |parts| >= 1
  {
    if |parts| == 1 then parts[0] else parts[0] + [sep] + Join(parts[1..], sep)
  }

  /** Joining the pieces of a split with the same separator gives the original string back. */
  lemma {:induction false} JoinSplit(s: string, sep: char)
    ensures Join(Split(s, sep), sep) == s
  {
    if s != [] {
      var rest := Split(s[1..], sep);
      JoinSplit(s[1..], sep);
      if s[0] == sep {
        assert Split(s, sep)[1..] == rest;
      } else {
        var parts := Split(s, sep);
        assert parts[1..] == rest[1..];
        if |rest| == 1 {
          assert parts == [[s[0]] + rest[0]];
        } else {
          assert Join(rest, sep) == rest[0] + [sep] + Join(rest[1..], sep);
        }
        assert s == [s[0]] + s[1..];
      }
    }
  }

  /** Splitting a join of separator-free pieces gives the pieces back. */
  lemma {:induction false} SplitJoin(parts: seq<string>, sep: char)
    requires |parts| >= 1
    requires forall k :: 0 <= k < |parts| ==> sep !in parts[k]
    ensures Split(Join(parts, sep), sep) == parts
  {
    if |parts| == 1 {
      SplitPiece(parts[0], sep);
    } else {
      var rest := Join(parts[1..], sep);
      SplitJoin(parts[1..], sep);
      SplitPrefix(parts[0], [sep] + rest, sep);
      assert ([sep] + rest)[1..] == rest;
      var q := Split([sep] + rest, sep);
      assert q == [[]] + parts[1..];
      assert Join(parts, sep) == parts[0] + ([sep] + rest);
      assert parts[0] + q[0] == parts[0];
      assert q[1..] == parts[1..];
      assert parts == [parts[0]] + parts[1..];
    }
  }

  /** A separator-free string splits into itself. */
  lemma {:induction false} SplitPiece(p: string, sep: char)
    requires sep !in p
    ensures Split(p, sep) == [p]
  {
    if p != [] {
      SplitPiece(p[1..], sep);
      assert p == [p[0]] + p[1..];
    }
  }

  /** A separator-free prefix `p` glues onto the first piece of what follows it. */
  lemma {:induction false} SplitPrefix(p: string, t: string, sep: char)
    requires sep !in p
    ensures Split(p + t, sep) == [p + Split(t, sep)[0]] + Split(t, sep)[1..]
  {
    if p != [] {
      SplitPrefix(p[1..], t, sep);
      assert (p + t)[1..] == p[1..] + t;
      assert [p[0]] + (p[1..] + Split(t, sep)[0]) == p + Split(t, sep)[0];
    } else {
      var q := Split(t, sep);
      assert p + t == t;
      assert p + q[0] == q[0];
      assert q == [q[0]] + q[1..];
    }
  }

  /** The split has more than one piece exactly when the separator occurs. */
  lemma {:induction false} SplitLength(s: string, sep: char)
    ensures |Split(s, sep)| > 1 <==> sep in s
  {
    if s != [] {
      SplitLength(s[1..], sep);
      assert sep in s <==> s[0] == sep || sep in s[1..];
    }
  }

  /** `s.split(sep)[k]`: the k-th piece, or JavaScript's `undefined` past the end. */
  function Field(s: string, sep: char, k: nat): (r: Option<string>)
    ensures r.Some? <==> k < |Split(s, sep)|
    ensures r.Some? ==> r.value == Split(s, sep)[k]
  {
    var parts := Split(s, sep);
    if k < |parts| then Some(parts[k]) else None
  }
}
