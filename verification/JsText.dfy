/** The few JavaScript string operations the model needs. */
module JsText {

  /** White space and line terminators, as `String.prototype.trim` removes them. */
  predicate IsSpace(c: char) {
    var n := c as int;
    || 9 <= n <= 13 || n == 32 || n == 0xA0 || n == 0x1680 || 0x2000 <= n <= 0x200A
    || n == 0x2028 || n == 0x2029 || n == 0x202F || n == 0x205F || n == 0x3000 || n == 0xFEFF
  }

  function TrimStart(s: string): string {
    if s != "" && IsSpace(s[0]) then TrimStart(s[1..]) else s
  }

  function TrimEnd(s: string): string {
    if s != "" && IsSpace(s[|s| - 1]) then TrimEnd(s[..|s| - 1]) else s
  }

  function Trim(s: string): string { TrimEnd(TrimStart(s)) }

  /** The code points of white space and line terminators. */
  const WHITE: set<int> := {
    0x09, 0x0A, 0x0B, 0x0C, 0x0D, 0x20, 0xA0, 0x1680, 0x2000, 0x2001, 0x2002, 0x2003, 0x2004, 0x2005, 0x2006, 0x2007,
    0x2008, 0x2009, 0x200A, 0x2028, 0x2029, 0x202F, 0x205F, 0x3000, 0xFEFF}

  predicate White(c: char) { c as int in WHITE }

  lemma SpaceIsWhite(c: char)
    ensures IsSpace(c) <==> White(c)
  {
  }

  /** `core` is what is left of the text between white space at its ends. */
  predicate CoreAt(s: string, core: string, a: nat, b: nat) {
    && a <= b <= |s| && s[a..b] == core
    && (forall k :: 0 <= k < |s| && !(a <= k < b) ==> White(s[k]))
    && (core == "" || (!White(core[0]) && !White(core[|core| - 1])))
  }

  ghost predicate CoreOf(s: string, core: string) { exists a: nat, b: nat :: CoreAt(s, core, a, b) }

  lemma {:induction false} TrimStartIs(s: string) returns (a: nat)
    ensures a <= |s| && TrimStart(s) == s[a..] && (forall k :: 0 <= k < a ==> White(s[k]))
    ensures a < |s| ==> !White(s[a])
  {
    hide White;
    if s != "" { SpaceIsWhite(s[0]); }
    if s != "" && IsSpace(s[0]) {
      a := TrimStartIs(s[1..]);
      assert s[1..][a..] == s[a + 1..];
      assert forall k :: 0 < k <= a ==> s[k] == s[1..][k - 1];
      a := a + 1;
    } else {
      a := 0;
    }
  }

  lemma {:induction false} TrimEndIs(s: string) returns (b: nat)
    ensures b <= |s| && TrimEnd(s) == s[..b] && (forall k :: b <= k < |s| ==> White(s[k]))
    ensures b > 0 ==> !White(s[b - 1])
  {
    hide White;
    var n := |s| - 1;
    if s != "" { SpaceIsWhite(s[n]); }
    if s != "" && IsSpace(s[n]) {
      b := TrimEndIs(s[..n]);
      assert s[..n][..b] == s[..b];
    } else {
      b := |s|;
      assert s[..b] == s;
    }
  }

  /** Trimming leaves the core of a text. */
  lemma TrimMeans(s: string)
    ensures CoreOf(s, Trim(s))
  {
    hide White;
    var a := TrimStartIs(s);
    var t := s[a..];
    var b := TrimEndIs(t);
    assert t[..b] == s[a..a + b];
    assert forall k :: b <= k < |t| ==> s[a + k] == t[k];
    assert forall k :: a + b <= k < |s| ==> s[k] == t[k - a];
    assert CoreAt(s, Trim(s), a, a + b);
  }

  /** There is only one core. */
  lemma CoreIsUnique(s: string, x: string, y: string)
    requires CoreOf(s, x) && CoreOf(s, y)
    ensures x == y
  {
    hide White;
    var a: nat, b: nat :| CoreAt(s, x, a, b);
    var c: nat, d: nat :| CoreAt(s, y, c, d);
    if x != "" {
      assert x[0] == s[a] && x[|x| - 1] == s[b - 1];
    }
    if y != "" {
      assert y[0] == s[c] && y[|y| - 1] == s[d - 1];
    }
  }

  predicate Includes(s: string, part: string) {
    part <= s || (s != "" && Includes(s[1..], part))
  }
}
