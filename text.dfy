/** The string operations the servers rely on: `toLowerCase`, `includes`,
    `replace` with a string pattern, JavaScript truthiness of optional strings,
    and the decimal rendering of `Date.now()`. */
module Text {
  import opened Wrappers

  /** `toLowerCase` on one character, for the ASCII letters A-Z. */
  function LowerChar(c: char): char {
    if 'A' <= c <= 'Z' then (c as int + 32) as char else c
  }

  /** `s.toLowerCase()`: each upper-case ASCII letter becomes its lower-case
      letter, and nothing else changes. */
  function Lower(s: string): (r: string)
    ensures |r| == |s|
    ensures forall i :: 0 <= i < |r| ==> !('A' <= r[i] <= 'Z')
    ensures forall i :: 0 <= i < |s| && 'A' <= s[i] <= 'Z' ==> r[i] as int == s[i] as int + 32
    ensures forall i :: 0 <= i < |r| && !('A' <= s[i] <= 'Z') ==> r[i] == s[i]
  {
    seq(|s|, i requires 0 <= i < |s| => LowerChar(s[i]))
  }

  /** Lower-casing twice is lower-casing once. */
  lemma LowerIdempotent(s: string)
    ensures Lower(Lower(s)) == Lower(s)
  {
    var once := Lower(s);
    forall i | 0 <= i < |s|
      ensures Lower(once)[i] == once[i]
    {
      assert !('A' <= once[i] <= 'Z');
    }
  }

  /** `hay.includes(needle)`: some suffix of `hay` starts with `needle`. */
  predicate Contains(hay: string, needle: string)
    decreases |hay|
  {
    needle <= hay || (|hay| > 0 && Contains(hay[1..], needle))
  }

  /** `needle` occurs in `hay` at offset `i`. */
  predicate OccursAt(hay: string, needle: string, i: int) {
    0 <= i <= |hay| - |needle| && hay[i..i + |needle|] == needle
  }

  /** `Contains` agrees with the definition by position: `needle` occurs at some offset. */
  lemma {:induction false} ContainsAt(hay: string, needle: string)
    ensures Contains(hay, needle) <==> exists i :: OccursAt(hay, needle, i)
    decreases |hay|
  {
    if needle <= hay {
      assert OccursAt(hay, needle, 0);
    } else if |hay| == 0 {
    } else {
      ContainsAt(hay[1..], needle);
      if Contains(hay[1..], needle) {
        var i :| OccursAt(hay[1..], needle, i);
        assert hay[1..][i..i + |needle|] == hay[i + 1..i + 1 + |needle|];
        assert OccursAt(hay, needle, i + 1);
      }
      if exists i :: OccursAt(hay, needle, i) {
        var i :| OccursAt(hay, needle, i);
        assert i != 0 by {
          assert OccursAt(hay, needle, 0) ==> needle <= hay;
        }
        assert hay[1..][i - 1..i - 1 + |needle|] == hay[i..i + |needle|];
        assert OccursAt(hay[1..], needle, i - 1);
      }
    }
  }

  /** Only something no longer than the haystack can occur in it. */
  lemma {:induction false} ContainsLength(hay: string, needle: string)
    requires Contains(hay, needle)
    ensures |needle| <= |hay|
    decreases |hay|
  {
    if !(needle <= hay) {
      ContainsLength(hay[1..], needle);
    }
  }

  /** `needle` occurs in `hay` at offset `i`, and at no earlier offset. */
  predicate FirstAt(hay: string, needle: string, i: int) {
    OccursAt(hay, needle, i) && forall j :: 0 <= j < i ==> !OccursAt(hay, needle, j)
  }

  /** Every occurrence has a first occurrence at or before it. */
  lemma {:induction false} EarliestFrom(hay: string, needle: string, i: int)
    requires OccursAt(hay, needle, i)
    ensures exists k :: 0 <= k <= i && FirstAt(hay, needle, k)
    decreases i
  {
    if forall j :: 0 <= j < i ==> !OccursAt(hay, needle, j) {
      assert FirstAt(hay, needle, i);
    } else {
      var j :| 0 <= j < i && OccursAt(hay, needle, j);
      EarliestFrom(hay, needle, j);
    }
  }

  /** A contained string has a first occurrence, which `ReplaceFirst` replaces. */
  lemma ContainsFirst(hay: string, needle: string)
    requires Contains(hay, needle)
    ensures exists k :: FirstAt(hay, needle, k)
  {
    ContainsAt(hay, needle);
    var i :| OccursAt(hay, needle, i);
    EarliestFrom(hay, needle, i);
  }

  /** Past a first character that does not start an occurrence, the first
      occurrence is one position further into the string. */
  lemma FirstAtTail(s: string, pat: string)
    requires !(pat <= s)
    ensures forall i :: FirstAt(s, pat, i) ==> 1 <= i && FirstAt(s[1..], pat, i - 1)
  {
    forall i | FirstAt(s, pat, i)
      ensures 1 <= i && FirstAt(s[1..], pat, i - 1)
    {
      assert s[1..][i - 1..i - 1 + |pat|] == s[i..i + |pat|];
      forall j | 0 <= j < i - 1
        ensures !OccursAt(s[1..], pat, j)
      {
        assert !OccursAt(s, pat, j + 1);
        if j <= |s[1..]| - |pat| {
          assert s[1..][j..j + |pat|] == s[j + 1..j + 1 + |pat|];
        }
      }
    }
  }

  /** Putting the first character back in front of a replaced tail. */
  lemma ConsSplice(s: string, pat: string, rep: string, i: int, t: string)
    requires 1 <= i && i + |pat| <= |s|
    requires t == s[1..][..i - 1] + rep + s[1..][i - 1 + |pat|..]
    ensures [s[0]] + t == s[..i] + rep + s[i + |pat|..]
  {
    assert [s[0]] + s[1..][..i - 1] == s[..i];
    assert s[1..][i - 1 + |pat|..] == s[i + |pat|..];
  }

  /** `s.replace(pat, rep)` with a string pattern: the FIRST occurrence of `pat`
      is replaced by `rep`; a string without the pattern is returned as it is. */
  function ReplaceFirst(s: string, pat: string, rep: string): (r: string)
    ensures !Contains(s, pat) ==> r == s
    ensures Contains(s, pat) ==> |r| == |s| - |pat| + |rep|
    ensures forall i :: FirstAt(s, pat, i) ==> r == s[..i] + rep + s[i + |pat|..]
    decreases |s|
  {
    if pat <= s then
      assert OccursAt(s, pat, 0) by { assert s[0..|pat|] == pat; }
      assert s[..0] + rep + s[0 + |pat|..] == rep + s[|pat|..];
      rep + s[|pat|..]
    else if s == [] then s
    else
      var t := ReplaceFirst(s[1..], pat, rep);
      FirstAtTail(s, pat);
      assert forall i :: FirstAt(s, pat, i) ==> [s[0]] + t == s[..i] + rep + s[i + |pat|..] by {
        forall i | FirstAt(s, pat, i)
          ensures [s[0]] + t == s[..i] + rep + s[i + |pat|..]
        {
          ConsSplice(s, pat, rep, i, t);
        }
      }
      [s[0]] + t
  }

  /** When no occurrence of the pattern starts inside `x`, the occurrence replaced
      is the one right after `x`, and `y` is kept as it is even when it holds the
      pattern again. */
  lemma ReplaceFirstAfter(x: string, pat: string, y: string, rep: string)
    requires forall j :: 0 <= j < |x| ==> !OccursAt(x + pat + y, pat, j)
    ensures ReplaceFirst(x + pat + y, pat, rep) == x + rep + y
  {
    var s := x + pat + y;
    assert s[|x|..|x| + |pat|] == pat;
    assert FirstAt(s, pat, |x|);
    assert s[..|x|] == x && s[|x| + |pat|..] == y;
  }

  /** Removing a pattern that ends the string and occurs nowhere earlier leaves
      what came before it. */
  lemma ReplaceFirstSuffix(x: string, pat: string)
    requires forall j :: 0 <= j < |x| ==> !OccursAt(x + pat, pat, j)
    ensures ReplaceFirst(x + pat, pat, "") == x
  {
    assert x + pat + "" == x + pat;
    ReplaceFirstAfter(x, pat, "", "");
    assert x + "" + "" == x;
  }

  /** No occurrence starts inside `x` when the pattern's first character is not in `x`. */
  lemma FirstCharAbsent(x: string, pat: string, y: string)
    requires |pat| > 0 && pat[0] !in x
    ensures forall j :: 0 <= j < |x| ==> !OccursAt(x + pat + y, pat, j)
  {
    var s := x + pat + y;
    forall j | 0 <= j < |x|
      ensures !OccursAt(s, pat, j)
    {
      assert s[j] == x[j] != pat[0];
      if j + |pat| <= |s| {
        assert s[j..j + |pat|][0] == s[j];
      }
    }
  }

  /** JavaScript truthiness of an optional string: present and not empty. */
  predicate Truthy(o: Option<string>) {
    o.Some? && o.value != ""
  }

  /** `o || fallback` for an optional string. */
  function OrElse(o: Option<string>, fallback: string): (r: string)
    ensures Truthy(o) ==> r == o.value
    ensures !Truthy(o) ==> r == fallback
  {
    if Truthy(o) then o.value else fallback
  }

  /** One decimal digit. */
  function DigitChar(d: nat): char
    requires d < 10
  {
    ('0' as int + d) as char
  }

  /** The decimal rendering of a natural number, as a template literal renders `Date.now()`. */
  function Decimal(n: nat): (r: string)
    ensures |r| >= 1
    ensures n >= 10 ==> |r| >= 2
    ensures forall i :: 0 <= i < |r| ==> '0' <= r[i] <= '9'
    decreases n
  {
    if n < 10 then [DigitChar(n)] else Decimal(n / 10) + [DigitChar(n % 10)]
  }

  /** Distinct numbers render differently. */
  lemma {:induction false} DecimalInjective(a: nat, b: nat)
    requires Decimal(a) == Decimal(b)
    ensures a == b
    decreases a
  {
    var da, db := Decimal(a), Decimal(b);
    if a < 10 && b < 10 {
      assert da[0] == DigitChar(a) && db[0] == DigitChar(b);
    } else if a >= 10 && b >= 10 {
      assert da[|da| - 1] == DigitChar(a % 10) && db[|db| - 1] == DigitChar(b % 10);
      assert da[..|da| - 1] == Decimal(a / 10);
      assert db[..|db| - 1] == Decimal(b / 10);
      DecimalInjective(a / 10, b / 10);
    }
  }
}
