/**
 * Whitespace trimming as done by Go's `strings.TrimSpace`, which the title
 * builders use. Strings are sequences of Unicode code points; a space is
 * whatever Go's `unicode.IsSpace` accepts.
 */
module Strings {

  /**
   * Go's `unicode.IsSpace`: in Latin-1 the tab, newline, vertical tab, form
   * feed, carriage return, space, NEL and no-break space; beyond it the rest
   * of Unicode's White_Space.
   */
  predicate IsSpace(c: char)
  {
    if c <= '\U{FF}' then
      c == ' ' || ('\t' <= c <= '\r') || c == '\U{85}' || c == '\U{A0}'
    else
      || c == '\U{1680}' || ('\U{2000}' <= c <= '\U{200A}')
      || c == '\U{2028}' || c == '\U{2029}' || c == '\U{202F}' || c == '\U{205F}' || c == '\U{3000}'
  }

  predicate AllSpace(s: string)
  {
    forall i :: 0 <= i < |s| ==> IsSpace(s[i])
  }

  /** Neither end of `s` is a space. */
  predicate IsTrimmed(s: string)
  {
    s == [] || (!IsSpace(s[0]) && !IsSpace(s[|s| - 1]))
  }

  /** Drops the leading spaces: the result is the suffix that starts at the first non-space. */
  function TrimLeft(s: string): (r: string)
    ensures |r| <= |s| && r == s[|s| - |r|..]
    ensures AllSpace(s[..|s| - |r|])
    ensures r == [] || !IsSpace(r[0])
  {
    if s != [] && IsSpace(s[0]) then TrimLeft(s[1..]) else s
  }

  /** Drops the trailing spaces: the result is the prefix that ends at the last non-space. */
  function TrimRight(s: string): (r: string)
    ensures |r| <= |s| && r == s[..|r|]
    ensures AllSpace(s[|r|..])
    ensures r == [] || !IsSpace(r[|r| - 1])
  {
    if s != [] && IsSpace(s[|s| - 1]) then TrimRight(s[..|s| - 1]) else s
  }

  /**
   * `strings.TrimSpace`: neither end of the result is a space, and it is
   * empty exactly when `s` is all spaces.
   */
  function TrimSpace(s: string): (r: string)
    ensures IsTrimmed(r)
    ensures r == [] <==> AllSpace(s)
  {
    var l := TrimLeft(s);
    var r := TrimRight(l);
    assert r != [] ==> r[0] == l[0];
    assert r == [] ==> AllSpace(s) by {
      if r == [] {
        assert l == [];
        assert s[..|s|] == s;
      }
    }
    r
  }

  /**
   * What `TrimSpace` leaves is the stretch of `s` between its leading spaces
   * (`k` of them) and its trailing ones.
   */
  lemma TrimSpaceInfix(s: string) returns (k: nat)
    ensures k + |TrimSpace(s)| <= |s|
    ensures TrimSpace(s) == s[k..k + |TrimSpace(s)|]
    ensures AllSpace(s[..k]) && AllSpace(s[k + |TrimSpace(s)|..])
  {
    var l := TrimLeft(s);
    var r := TrimRight(l);
    k := |s| - |l|;
    assert s[k..k + |r|] == l[..|r|];
    assert s[k + |r|..] == l[|r|..];
  }

  /** Trimming a string that is already trimmed changes nothing. */
  lemma TrimmedIsFixed(s: string)
    requires IsTrimmed(s)
    ensures TrimSpace(s) == s
  {
    assert TrimLeft(s) == s;
    assert TrimRight(s) == s;
  }

  /** Trimming twice is trimming once. */
  lemma TrimSpaceIdempotent(s: string)
    ensures TrimSpace(TrimSpace(s)) == TrimSpace(s)
  {
    TrimmedIsFixed(TrimSpace(s));
  }

  /** Leading spaces make no difference to left trimming. */
  lemma {:induction false} TrimLeftPadding(a: string, s: string)
    requires AllSpace(a)
    ensures TrimLeft(a + s) == TrimLeft(s)
  {
    if a != [] {
      assert (a + s)[1..] == a[1..] + s;
      TrimLeftPadding(a[1..], s);
    } else {
      assert a + s == s;
    }
  }

  /** Trailing spaces make no difference to right trimming. */
  lemma {:induction false} TrimRightPadding(s: string, b: string)
    requires AllSpace(b)
    ensures TrimRight(s + b) == TrimRight(s)
  {
    if b != [] {
      assert (s + b)[..|s + b| - 1] == s + b[..|b| - 1];
      TrimRightPadding(s, b[..|b| - 1]);
    } else {
      assert s + b == s;
    }
  }

  /** When `s` holds a non-space, left trimming never reaches what follows it. */
  lemma {:induction false} TrimLeftAppend(s: string, b: string)
    requires !AllSpace(s)
    ensures TrimLeft(s + b) == TrimLeft(s) + b
  {
    if s != [] && IsSpace(s[0]) {
      assert (s + b)[1..] == s[1..] + b;
      assert !AllSpace(s[1..]) by {
        var i :| 0 <= i < |s| && !IsSpace(s[i]);
        assert s[1..][i - 1] == s[i];
      }
      TrimLeftAppend(s[1..], b);
    }
  }

  /** Spaces added at either end make no difference to `TrimSpace`. */
  lemma TrimSpacePadding(a: string, s: string, b: string)
    requires AllSpace(a) && AllSpace(b)
    ensures TrimSpace(a + s + b) == TrimSpace(s)
  {
    assert a + s + b == a + (s + b);
    TrimLeftPadding(a, s + b);
    if AllSpace(s) {
      assert AllSpace(s + b) by {
        forall i | 0 <= i < |s + b| ensures IsSpace((s + b)[i]) {
          if i < |s| { assert (s + b)[i] == s[i]; } else { assert (s + b)[i] == b[i - |s|]; }
        }
      }
      assert TrimSpace(s + b) == [];
    } else {
      TrimLeftAppend(s, b);
      TrimRightPadding(TrimLeft(s), b);
    }
  }
}
