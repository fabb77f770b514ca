/**
 * The syntax check configparser's basic interpolation applies to every value stored
 * with `set` (`BasicInterpolation.before_set`): once the escapes `%%` and the
 * references `%(name)s` are taken out, no `%` may remain.
 */
module Interpolation {

  /** `value.replace('%%', '')`: escaped percent signs removed, scanning left to right. */
  function DropEscapes(s: string): (r: string)
    ensures |r| <= |s|
    ensures '%' !in s ==> r == s
  {
    if |s| >= 2 && s[0] == '%' && s[1] == '%' then DropEscapes(s[2..])
    else if s == [] then []
    else [s[0]] + DropEscapes(s[1..])
  }

  /** The index of the first `)` in `s` at or after `i`, or `|s|` when there is none. */
  function CloseParen(s: string, i: nat): (k: nat)
    requires i <= |s|
    ensures i <= k <= |s|
    ensures k < |s| ==> s[k] == ')'
    ensures forall j :: i <= j < k ==> s[j] != ')'
    decreases |s| - i
  {
    if i == |s| || s[i] == ')' then i else CloseParen(s, i + 1)
  }

  /** `s` starts with a match of `%\(([^)]+)\)s` that is `m` characters long. */
  predicate IsReference(s: string, m: nat)
  {
    5 <= m <= |s| && s[0] == '%' && s[1] == '(' && s[m - 2] == ')' && s[m - 1] == 's' &&
    forall j :: 2 <= j < m - 2 ==> s[j] != ')'
  }

  /** The length of the reference `%(name)s` at the start of `s`, or 0 when none starts there. */
  function ReferenceAt(s: string): (n: nat)
    ensures n != 0 ==> IsReference(s, n)
    ensures forall m :: IsReference(s, m) ==> m == n
  {
    if |s| >= 2 && s[0] == '%' && s[1] == '(' then
      var k := CloseParen(s, 2);
      if k > 2 && k + 1 < |s| && s[k + 1] == 's' then k + 2 else 0
    else 0
  }

  /** `_KEYCRE.sub('', value)`: every reference `%(name)s` removed, scanning left to right. */
  function DropReferences(s: string): (r: string)
    ensures |r| <= |s|
    ensures '%' !in s ==> r == s
    decreases |s|
  {
    if s == [] then []
    else
      var n := ReferenceAt(s);
      if n > 0 then DropReferences(s[n..]) else [s[0]] + DropReferences(s[1..])
  }

  /** `before_set` accepts `value` rather than raising `ValueError`. */
  predicate SetAccepts(value: string)
  {
    '%' !in DropReferences(DropEscapes(value))
  }

  /** A character other than `%` is kept by the escape removal. */
  lemma DropEscapesCons(c: char, u: string)
    requires c != '%'
    ensures DropEscapes([c] + u) == [c] + DropEscapes(u)
  {
    assert ([c] + u)[1..] == u;
  }

  /** A text without `%` passes through the escape removal untouched, and so does what follows it. */
  lemma {:induction false} DropEscapesPlainPrefix(a: string, t: string)
    requires '%' !in a
    ensures DropEscapes(a + t) == a + DropEscapes(t)
  {
    if a == [] {
      assert a + t == t;
    } else {
      var c, rest := a[0], a[1..];
      assert c in a;
      assert a == [c] + rest;
      calc {
        DropEscapes(a + t);
        { assert a + t == [c] + (rest + t); }
        DropEscapes([c] + (rest + t));
        { DropEscapesCons(c, rest + t); }
        [c] + DropEscapes(rest + t);
        { DropEscapesPlainPrefix(rest, t); }
        [c] + (rest + DropEscapes(t));
        a + DropEscapes(t);
      }
    }
  }

  /** A character other than `%` is kept by the reference removal. */
  lemma DropReferencesCons(c: char, u: string)
    requires c != '%'
    ensures DropReferences([c] + u) == [c] + DropReferences(u)
  {
    assert ReferenceAt([c] + u) == 0;
    assert ([c] + u)[1..] == u;
  }

  /** A text without `%` passes through the reference removal untouched, and so does what follows it. */
  lemma {:induction false} DropReferencesPlainPrefix(a: string, t: string)
    requires '%' !in a
    ensures DropReferences(a + t) == a + DropReferences(t)
  {
    if a == [] {
      assert a + t == t;
    } else {
      var c, rest := a[0], a[1..];
      assert c in a;
      assert a == [c] + rest;
      calc {
        DropReferences(a + t);
        { assert a + t == [c] + (rest + t); }
        DropReferences([c] + (rest + t));
        { DropReferencesCons(c, rest + t); }
        [c] + DropReferences(rest + t);
        { DropReferencesPlainPrefix(rest, t); }
        [c] + (rest + DropReferences(t));
        a + DropReferences(t);
      }
    }
  }

  /** A value without `%` is accepted. */
  lemma PlainAccepted(value: string)
    requires '%' !in value
    ensures SetAccepts(value)
  {
  }

  /** An escaped percent sign `%%` between plain text is accepted. */
  lemma EscapeAccepted(a: string, b: string)
    requires '%' !in a && '%' !in b
    ensures SetAccepts(a + "%%" + b)
  {
    DropEscapesPlainPrefix(a, "%%" + b);
    assert ("%%" + b)[2..] == b;
    assert DropEscapes(a + "%%" + b) == a + b by {
      assert a + "%%" + b == a + ("%%" + b);
    }
  }

  /**
   * A percent sign that starts neither an escape nor a reference is rejected: the
   * first `%` in the value, followed by something other than `%` or `(`.
   */
  lemma LonePercentRejected(a: string, b: string)
    requires '%' !in a
    requires b == [] || (b[0] != '%' && b[0] != '(')
    ensures !SetAccepts(a + "%" + b)
  {
    var s := a + "%" + b;
    assert s == a + ("%" + b);
    DropEscapesPlainPrefix(a, "%" + b);
    var e := DropEscapes(b);
    assert DropEscapes("%" + b) == "%" + e by {
      assert ("%" + b)[1..] == b;
    }
    assert e == [] || e[0] == b[0] by {
      if b != [] {
        assert |b| < 2 || b[0] != '%';
      }
    }
    DropReferencesPlainPrefix(a, "%" + e);
    assert ReferenceAt("%" + e) == 0;
    assert ("%" + e)[1..] == e;
    assert DropReferences("%" + e) == "%" + DropReferences(e);
    assert DropReferences(DropEscapes(s)) == a + ("%" + DropReferences(e));
    assert (a + ("%" + DropReferences(e)))[|a|] == '%';
  }
}
