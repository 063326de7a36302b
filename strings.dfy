/**
 * The two JavaScript string operations the profile handler applies to the `skills`
 * field: `String.prototype.split` with a one-character separator and
 * `String.prototype.trim`.  Strings are sequences of Unicode scalar values.
 */
module JsStrings {

  /** ECMAScript WhiteSpace and LineTerminator code points: exactly what `trim` strips. */
  const Spaces: set<char> := {
    '\t', '\n', '\U{000B}', '\U{000C}', '\r', ' ', '\U{00A0}', '\U{1680}',
    '\U{2000}', '\U{2001}', '\U{2002}', '\U{2003}', '\U{2004}', '\U{2005}',
    '\U{2006}', '\U{2007}', '\U{2008}', '\U{2009}', '\U{200A}',
    '\U{2028}', '\U{2029}', '\U{202F}', '\U{205F}', '\U{3000}', '\U{FEFF}'
  }

  predicate IsSpace(c: char)
  {
    c in Spaces
  }

  predicate AllSpace(s: string)
  {
    forall i :: 0 <= i < |s| ==> IsSpace(s[i])
  }

  /** The comma `split(",")` cuts at is not white space, so a run of white space holds none. */
  lemma SpaceHasNoComma(s: string)
    requires AllSpace(s)
    ensures ',' !in s
  {
  }

  /** Neither the first nor the last character is white space. */
  predicate Tight(s: string)
  {
    s == [] || (!IsSpace(s[0]) && !IsSpace(s[|s| - 1]))
  }

  /** Drops leading white space. */
  function TrimStart(s: string): (r: string)
    ensures |r| <= |s|
    ensures r == [] || !IsSpace(r[0])
  {
    if s != [] && IsSpace(s[0]) then TrimStart(s[1..]) else s
  }

  /** What TrimStart drops is a white-space prefix: the result is a suffix of its input. */
  lemma {:induction false} TrimStartIsSuffix(s: string)
    ensures var r := TrimStart(s); r == s[|s| - |r|..] && AllSpace(s[..|s| - |r|])
  {
    if s != [] && IsSpace(s[0]) {
      TrimStartIsSuffix(s[1..]);
      var r := TrimStart(s);
      assert s[1..][|s| - 1 - |r|..] == s[|s| - |r|..];
      assert s[..|s| - |r|] == [s[0]] + s[1..][..|s| - 1 - |r|];
    }
  }

  /** Drops trailing white space. */
  function TrimEnd(s: string): (r: string)
    ensures |r| <= |s|
    ensures r == [] || !IsSpace(r[|r| - 1])
  {
    if s != [] && IsSpace(s[|s| - 1]) then TrimEnd(s[..|s| - 1]) else s
  }

  /** What TrimEnd drops is a white-space suffix: the result is a prefix of its input. */
  lemma {:induction false} TrimEndIsPrefix(s: string)
    ensures var r := TrimEnd(s); r == s[..|r|] && AllSpace(s[|r|..])
  {
    if s != [] && IsSpace(s[|s| - 1]) {
      var p := s[..|s| - 1];
      TrimEndIsPrefix(p);
      var r := TrimEnd(s);
      assert p[..|r|] == s[..|r|];
      assert s[|r|..] == p[|r|..] + [s[|s| - 1]];
    }
  }

  /** `s.trim()`: neither end of the result is white space. */
  function Trim(s: string): (r: string)
    ensures Tight(r)
  {
    var t := TrimStart(s);
    TrimEndIsPrefix(t);
    TrimEnd(t)
  }

  /**
   * What `trim` keeps: the slice of `s` between a white-space prefix and a white-space suffix.
   */
  lemma TrimIsSlice(s: string)
    ensures var r, i := Trim(s), |s| - |TrimStart(s)|;
      && i + |r| <= |s| && r == s[i..i + |r|]
      && AllSpace(s[..i]) && AllSpace(s[i + |r|..])
  {
    var t := TrimStart(s);
    var r := TrimEnd(t);
    var i := |s| - |t|;
    TrimStartIsSuffix(s);
    TrimEndIsPrefix(t);
    assert s[i..] == t;
    assert s[i..i + |r|] == t[..|r|];
    assert s[i + |r|..] == t[|r|..];
  }

  lemma {:induction false} TrimStartPadded(pre: string, rest: string)
    requires AllSpace(pre)
    requires rest == [] || !IsSpace(rest[0])
    ensures TrimStart(pre + rest) == rest
  {
    if pre != [] {
      assert (pre + rest)[1..] == pre[1..] + rest;
      TrimStartPadded(pre[1..], rest);
    }
  }

  lemma {:induction false} TrimEndPadded(rest: string, post: string)
    requires AllSpace(post)
    requires rest == [] || !IsSpace(rest[|rest| - 1])
    ensures TrimEnd(rest + post) == rest
  {
    if post != [] {
      var p := post[..|post| - 1];
      assert (rest + post)[..|rest + post| - 1] == rest + p;
      TrimEndPadded(rest, p);
    }
  }

  /**
   * The converse of Trim's contract: white space around a tight string is exactly what
   * `trim` removes, so Trim is determined by that contract.
   */
  lemma TrimOfPadded(pre: string, mid: string, post: string)
    requires AllSpace(pre) && AllSpace(post) && Tight(mid)
    ensures Trim(pre + mid + post) == mid
  {
    if mid == [] {
      assert pre + mid + post == pre + post;
      var all := pre + post;
      assert AllSpace(all) by {
        forall i | 0 <= i < |all| ensures IsSpace(all[i]) {
          if i >= |pre| { assert all[i] == post[i - |pre|]; }
        }
      }
      TrimStartPadded(all, []);
      assert all + [] == all;
    } else {
      assert pre + mid + post == pre + (mid + post);
      TrimStartPadded(pre, mid + post);
      TrimEndPadded(mid, post);
    }
  }

  /** Number of occurrences of `c` in `s`. */
  function Occurrences(s: string, c: char): nat
  {
    if s == [] then 0 else (if s[0] == c then 1 else 0) + Occurrences(s[1..], c)
  }

  /**
   * `s.split(sep)` for a one-character separator: the pieces between separators, in
   * order, empty pieces included (`"a,,b"` gives three pieces and `""` gives one).
   */
  function Split(s: string, sep: char): (r: seq<string>)
    ensures |r| == Occurrences(s, sep) + 1
    ensures forall i :: 0 <= i < |r| ==> sep !in r[i]
  {
    if s == [] then [""]
    else
      var rest := Split(s[1..], sep);
      if s[0] == sep then [""] + rest
      else [[s[0]] + rest[0]] + rest[1..]
  }

  /** `pieces.join(sep)`: the inverse of Split. */
  function Join(pieces: seq<string>, sep: char): string
  {
    if pieces == [] then ""
    else if |pieces| == 1 then pieces[0]
    else pieces[0] + [sep] + Join(pieces[1..], sep)
  }

  /** Splitting loses nothing: joining the pieces back gives the original string, in order. */
  lemma {:induction false} JoinSplit(s: string, sep: char)
    ensures Join(Split(s, sep), sep) == s
  {
    if s != [] {
      var rest := Split(s[1..], sep);
      JoinSplit(s[1..], sep);
      if s[0] == sep {
        assert ([""] + rest)[1..] == rest;
        assert s == [sep] + s[1..];
      } else {
        var r := [[s[0]] + rest[0]] + rest[1..];
        if |rest| == 1 {
          assert s == [s[0]] + s[1..];
        } else {
          assert r[1..] == rest[1..];
          assert Join(rest, sep) == rest[0] + [sep] + Join(rest[1..], sep);
          assert s == [s[0]] + s[1..];
        }
      }
    }
  }

  lemma {:induction false} SplitPrepend(p: string, t: string, sep: char)
    requires sep !in p
    ensures Split(p + t, sep) == [p + Split(t, sep)[0]] + Split(t, sep)[1..]
  {
    if p != [] {
      assert (p + t)[1..] == p[1..] + t;
      SplitPrepend(p[1..], t, sep);
      var st := Split(t, sep);
      var rest := Split(p[1..] + t, sep);
      assert rest[0] == p[1..] + st[0] && rest[1..] == st[1..];
      assert (p + t)[0] == p[0] && p[0] != sep;
      assert Split(p + t, sep) == [[p[0]] + rest[0]] + rest[1..];
      assert [p[0]] + (p[1..] + st[0]) == p + st[0];
    } else {
      assert p + t == t;
      var st := Split(t, sep);
      assert p + st[0] == st[0];
      assert st == [st[0]] + st[1..];
    }
  }

  /** Splitting a join of separator-free pieces gives the pieces back. */
  lemma {:induction false} SplitJoin(pieces: seq<string>, sep: char)
    requires pieces != []
    requires forall i :: 0 <= i < |pieces| ==> sep !in pieces[i]
    ensures Split(Join(pieces, sep), sep) == pieces
  {
    if |pieces| == 1 {
      SplitPrepend(pieces[0], "", sep);
      assert pieces[0] + "" == pieces[0];
    } else {
      var tail := Join(pieces[1..], sep);
      SplitJoin(pieces[1..], sep);
      assert pieces[0] + [sep] + tail == pieces[0] + ([sep] + tail);
      SplitPrepend(pieces[0], [sep] + tail, sep);
      var st := Split([sep] + tail, sep);
      assert ([sep] + tail)[1..] == tail;
      assert st == [""] + pieces[1..];
      assert st[0] == "" && st[1..] == pieces[1..];
      assert pieces[0] + "" == pieces[0];
      assert pieces == [pieces[0]] + pieces[1..];
    }
  }

  /** `pieces.map((p) => p.trim())`. */
  function TrimAll(pieces: seq<string>): (r: seq<string>)
    ensures |r| == |pieces|
  {
    if pieces == [] then [] else [Trim(pieces[0])] + TrimAll(pieces[1..])
  }

  /** The k-th trimmed piece is the k-th piece, trimmed: `map` keeps order and position. */
  lemma {:induction false} TrimAllAt(pieces: seq<string>, k: nat)
    requires k < |pieces|
    ensures TrimAll(pieces)[k] == Trim(pieces[k])
  {
    if k > 0 {
      TrimAllAt(pieces[1..], k - 1);
    }
  }
}
