/** JavaScript's String.prototype.trim, as used when a suggestion is recorded. */
module Text {

  /** The characters trim removes: the WhiteSpace and LineTerminator code points of ECMAScript
      (tab, line feed, vertical tab, form feed, carriage return, space, no-break space, the
      Unicode space separators, line and paragraph separator, and the byte order mark). */
  predicate IsSpace(c: char) {
    c == '\t' || c == '\n' || c == '\U{000B}' || c == '\U{000C}' || c == '\r' || c == ' '
    || c == '\U{00A0}' || c == '\U{1680}' || ('\U{2000}' <= c <= '\U{200A}')
    || c == '\U{2028}' || c == '\U{2029}' || c == '\U{202F}' || c == '\U{205F}'
    || c == '\U{3000}' || c == '\U{FEFF}'
  }

  predicate AllSpace(s: string) {
    forall i :: 0 <= i < |s| ==> IsSpace(s[i])
  }

  /** Drops leading white space: the result is a suffix of `s`, everything dropped is space,
      and the result does not start with space. */
  function TrimStart(s: string): (r: string)
    ensures |r| <= |s| && r == s[|s| - |r|..]
    ensures AllSpace(s[..|s| - |r|])
    ensures r == [] || !IsSpace(r[0])
  {
    if s != [] && IsSpace(s[0]) then
      var r := TrimStart(s[1..]);
      assert s[..|s| - |r|] == [s[0]] + s[1..][..|s| - 1 - |r|];
      r
    else s
  }

  /** Drops trailing white space: the result is a prefix of `s`, everything dropped is space,
      and the result does not end with space. */
  function TrimEnd(s: string): (r: string)
    ensures |r| <= |s| && r == s[..|r|]
    ensures AllSpace(s[|r|..])
    ensures r == [] || !IsSpace(r[|r| - 1])
  {
    if s != [] && IsSpace(s[|s| - 1]) then
      var p := s[..|s| - 1];
      var r := TrimEnd(p);
      assert s[..|r|] == p[..|r|];
      assert s[|r|..] == p[|r|..] + [s[|s| - 1]];
      r
    else s
  }

  /** `value.trim()`: a slice of `s` with no white space at either end, obtained by removing
      white space only. */
  function Trim(s: string): (r: string)
    ensures var i := |s| - |TrimStart(s)|;
      i + |r| <= |s| && r == s[i..i + |r|] && AllSpace(s[..i]) && AllSpace(s[i + |r|..])
    ensures r == [] || (!IsSpace(r[0]) && !IsSpace(r[|r| - 1]))
  {
    var t := TrimStart(s);
    var r := TrimEnd(t);
    SliceOfSuffix(s, t, r);
    r
  }

  /** A prefix `r` of a suffix `t` of `s`, followed by white space in `t`, is a slice of `s`
      followed by the same white space. */
  lemma SliceOfSuffix(s: string, t: string, r: string)
    requires |t| <= |s| && t == s[|s| - |t|..]
    requires |r| <= |t| && r == t[..|r|] && AllSpace(t[|r|..])
    ensures var i := |s| - |t|;
      r == s[i..i + |r|] && AllSpace(s[i + |r|..])
  {
    var i := |s| - |t|;
    assert s[i + |r|..] == t[|r|..];
  }

  lemma {:induction false} AllSpaceTrimStart(s: string)
    requires AllSpace(s)
    ensures TrimStart(s) == []
  {
    if s != [] {
      assert AllSpace(s[1..]) by {
        forall k | 0 <= k < |s| - 1 ensures IsSpace(s[1..][k]) {
          assert s[1..][k] == s[k + 1];
        }
      }
      AllSpaceTrimStart(s[1..]);
    }
  }

  /** `value.trim() === ''` holds exactly when every character of `value` is white space. */
  lemma {:induction false} TrimBlankIffAllSpace(s: string)
    ensures Trim(s) == "" <==> AllSpace(s)
  {
    if AllSpace(s) {
      AllSpaceTrimStart(s);
    }
    if Trim(s) == "" {
      var i := |s| - |TrimStart(s)|;
      forall k | 0 <= k < |s| ensures IsSpace(s[k]) {
        if k < i {
          assert s[..i][k] == s[k];
        } else {
          assert s[i..][k - i] == s[k];
        }
      }
    }
  }

  /** Trimming a trimmed value changes nothing. */
  lemma {:induction false} TrimIdempotent(s: string)
    ensures Trim(Trim(s)) == Trim(s)
  {
    var r := Trim(s);
    assert TrimStart(r) == r;
    assert TrimEnd(r) == r;
  }

  lemma {:induction false} TrimStartPadded(pad: string, x: string)
    requires AllSpace(pad) && (x == [] || !IsSpace(x[0]))
    ensures TrimStart(pad + x) == x
  {
    if pad != [] {
      assert (pad + x)[1..] == pad[1..] + x;
      assert AllSpace(pad[1..]) by {
        forall k | 0 <= k < |pad| - 1 ensures IsSpace(pad[1..][k]) {
          assert pad[1..][k] == pad[k + 1];
        }
      }
      TrimStartPadded(pad[1..], x);
    }
  }

  lemma {:induction false} TrimEndPadded(x: string, pad: string)
    requires AllSpace(pad) && (x == [] || !IsSpace(x[|x| - 1]))
    ensures TrimEnd(x + pad) == x
  {
    if pad != [] {
      var init := pad[..|pad| - 1];
      assert (x + pad)[..|x + pad| - 1] == x + init;
      assert AllSpace(init) by {
        forall k | 0 <= k < |init| ensures IsSpace(init[k]) {
          assert init[k] == pad[k];
        }
      }
      TrimEndPadded(x, init);
    } else {
      assert x + pad == x;
    }
  }

  /** Trimming a value that has no white space at its ends, with any white space before and
      any white space after it, gives the value back. */
  lemma TrimPadded(left: string, v: string, right: string)
    requires AllSpace(left) && AllSpace(right) && v != [] && !IsSpace(v[0]) && !IsSpace(v[|v| - 1])
    ensures Trim(left + v + right) == v
  {
    assert left + v + right == left + (v + right);
    TrimStartPadded(left, v + right);
    TrimEndPadded(v, right);
  }
}
