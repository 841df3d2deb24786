/**
 * String trimming as done by ECMAScript's String.prototype.trim: the
 * WhiteSpace and LineTerminator code points are removed from both ends.
 */
module Text {

  /** The ECMAScript WhiteSpace and LineTerminator code points. */
  predicate IsWhitespace(c: char)
  {
    c == '\t' || c == '\n' || c == '\U{000B}' || c == '\U{000C}' || c == '\r' || c == ' '
    || c == '\U{00A0}' || c == '\U{1680}' || ('\U{2000}' <= c <= '\U{200A}')
    || c == '\U{2028}' || c == '\U{2029}' || c == '\U{202F}' || c == '\U{205F}'
    || c == '\U{3000}' || c == '\U{FEFF}'
  }

  /** Every character of s is whitespace (the empty string included). */
  predicate AllWhitespace(s: string)
  {
    forall k :: 0 <= k < |s| ==> IsWhitespace(s[k])
  }

  /** Drops the leading whitespace: the result is the suffix of s after a whitespace run. */
  function TrimLeft(s: string): (r: string)
    ensures |r| <= |s| && r == s[|s| - |r|..]
    ensures forall k :: 0 <= k < |s| - |r| ==> IsWhitespace(s[k])
    ensures r != [] ==> !IsWhitespace(r[0])
  {
    if s != [] && IsWhitespace(s[0]) then TrimLeft(s[1..]) else s
  }

  /** Drops the trailing whitespace: the result is the prefix of s before a whitespace run. */
  function TrimRight(s: string): (r: string)
    ensures |r| <= |s| && r == s[..|r|]
    ensures forall k :: |r| <= k < |s| ==> IsWhitespace(s[k])
    ensures r != [] ==> !IsWhitespace(r[|r| - 1])
  {
    if s != [] && IsWhitespace(s[|s| - 1]) then TrimRight(s[..|s| - 1]) else s
  }

  /** Neither the first nor the last character of r is whitespace. */
  predicate EndsNotBlank(r: string)
  {
    r != [] ==> !IsWhitespace(r[0]) && !IsWhitespace(r[|r| - 1])
  }

  /** String.prototype.trim. */
  function Trim(s: string): (r: string)
    ensures EndsNotBlank(r)
    ensures r == [] <==> AllWhitespace(s)
  {
    TrimFacts(s, TrimRight(TrimLeft(s)));
    TrimRight(TrimLeft(s))
  }

  /** Trim's contract, for r the result of both trims. */
  lemma TrimFacts(s: string, r: string)
    requires r == TrimRight(TrimLeft(s))
    ensures EndsNotBlank(r)
    ensures r == [] <==> AllWhitespace(s)
  {
    var t := TrimLeft(s);
    if r != [] {
      assert r[0] == t[0] == s[|s| - |t|];
    } else {
      assert t == [];
    }
  }

  /**
   * Trim keeps a middle piece of s and cuts only whitespace from either
   * side of it: nothing inside the text is changed or dropped.
   */
  lemma TrimCutsOnlyWhitespace(s: string)
    ensures exists i, j :: 0 <= i <= j <= |s| && Trim(s) == s[i..j] && AllWhitespace(s[..i]) && AllWhitespace(s[j..])
  {
    var t := TrimLeft(s);
    var r := TrimRight(t);
    var i := |s| - |t|;
    var j := i + |r|;
    TrimLeftCutsBlankPrefix(s);
    TrimRightCutsBlankSuffix(t);
    assert t == s[i..];
    assert t[|r|..] == s[j..];
    assert r == s[i..j];
    assert Trim(s) == s[i..j] && AllWhitespace(s[..i]) && AllWhitespace(s[j..]);
  }

  lemma TrimLeftCutsBlankPrefix(s: string)
    ensures AllWhitespace(s[..|s| - |TrimLeft(s)|])
  {
    var n := |s| - |TrimLeft(s)|;
    forall k | 0 <= k < n ensures IsWhitespace(s[..n][k]) {
      assert s[..n][k] == s[k];
    }
  }

  lemma TrimRightCutsBlankSuffix(t: string)
    ensures AllWhitespace(t[|TrimRight(t)|..])
  {
    var m := |TrimRight(t)|;
    forall k | 0 <= k < |t| - m ensures IsWhitespace(t[m..][k]) {
      assert t[m..][k] == t[m + k];
    }
  }

  /** Leading whitespace does not change what TrimLeft keeps. */
  lemma {:induction false} TrimLeftSkipsPrefix(pre: string, s: string)
    requires AllWhitespace(pre)
    ensures TrimLeft(pre + s) == TrimLeft(s)
  {
    if pre != [] {
      assert (pre + s)[1..] == pre[1..] + s;
      assert AllWhitespace(pre[1..]) by {
        forall k | 0 <= k < |pre| - 1 ensures IsWhitespace(pre[1..][k]) { assert pre[1..][k] == pre[k + 1]; }
      }
      TrimLeftSkipsPrefix(pre[1..], s);
    } else {
      assert pre + s == s;
    }
  }

  /** Trailing whitespace does not change what TrimRight keeps. */
  lemma {:induction false} TrimRightSkipsSuffix(s: string, post: string)
    requires AllWhitespace(post)
    ensures TrimRight(s + post) == TrimRight(s)
  {
    if post != [] {
      var shorter := post[..|post| - 1];
      assert (s + post)[..|s + post| - 1] == s + shorter;
      assert AllWhitespace(shorter) by {
        forall k | 0 <= k < |shorter| ensures IsWhitespace(shorter[k]) { assert shorter[k] == post[k]; }
      }
      TrimRightSkipsSuffix(s, shorter);
    } else {
      assert s + post == s;
    }
  }

  /** A string that is not all whitespace keeps its trailing text when trimmed on the left. */
  lemma {:induction false} TrimLeftKeepsTail(s: string, post: string)
    requires !AllWhitespace(s)
    ensures TrimLeft(s + post) == TrimLeft(s) + post
  {
    assert s != [];
    if IsWhitespace(s[0]) {
      assert (s + post)[1..] == s[1..] + post;
      var k :| 0 <= k < |s| && !IsWhitespace(s[k]);
      assert s[1..][k - 1] == s[k];
      TrimLeftKeepsTail(s[1..], post);
    }
  }

  /** Whitespace padding on either side of a field is invisible after trimming. */
  lemma TrimIgnoresPadding(pre: string, s: string, post: string)
    requires AllWhitespace(pre) && AllWhitespace(post)
    ensures Trim(pre + s + post) == Trim(s)
  {
    if AllWhitespace(s) {
      PaddedBlankIsBlank(pre, s, post);
    } else {
      PaddedTextTrimsToText(pre, s, post);
    }
  }

  /** A blank field stays blank when padded with whitespace. */
  lemma PaddedBlankIsBlank(pre: string, s: string, post: string)
    requires AllWhitespace(pre) && AllWhitespace(s) && AllWhitespace(post)
    ensures AllWhitespace(pre + s + post)
  {
    var t := pre + s + post;
    forall k | 0 <= k < |t| ensures IsWhitespace(t[k]) {
      if k < |pre| {
        assert t[k] == pre[k];
      } else if k < |pre| + |s| {
        assert t[k] == s[k - |pre|];
      } else {
        assert t[k] == post[k - |pre| - |s|];
      }
    }
  }

  /** A field with text in it trims to the same text whatever whitespace pads it. */
  lemma PaddedTextTrimsToText(pre: string, s: string, post: string)
    requires AllWhitespace(pre) && AllWhitespace(post) && !AllWhitespace(s)
    ensures Trim(pre + s + post) == Trim(s)
  {
    var tail := s + post;
    assert pre + s + post == pre + tail;
    TrimLeftSkipsPrefix(pre, tail);
    TrimLeftKeepsTail(s, post);
    var left := TrimLeft(s);
    assert TrimLeft(pre + s + post) == left + post;
    TrimRightSkipsSuffix(left, post);
    assert TrimRight(left + post) == TrimRight(left);
  }

  /** Trimming twice is trimming once. */
  lemma TrimIdempotent(s: string)
    ensures Trim(Trim(s)) == Trim(s)
  {
    var r := Trim(s);
    if r != [] {
      assert TrimLeft(r) == r;
      assert TrimRight(r) == r;
    }
  }
}
