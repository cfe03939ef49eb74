/** The few JavaScript string built-ins the core relies on (`trim`, `toLowerCase`,
    `includes`, `Array.prototype.join`), written out over `seq<char>`. */
module JsString {

  /** The characters `String.prototype.trim` removes: ECMAScript WhiteSpace
      (tab, vertical tab, form feed, space, no-break space, byte-order mark and the
      Unicode space separators) and LineTerminator (LF, CR, LS, PS). */
  const WhitespaceChars: set<char> := {
    '\t', '\n', '\U{000B}', '\U{000C}', '\r', ' ', '\U{00A0}', '\U{1680}',
    '\U{2000}', '\U{2001}', '\U{2002}', '\U{2003}', '\U{2004}', '\U{2005}',
    '\U{2006}', '\U{2007}', '\U{2008}', '\U{2009}', '\U{200A}',
    '\U{2028}', '\U{2029}', '\U{202F}', '\U{205F}', '\U{3000}', '\U{FEFF}'
  }

  predicate IsWhitespace(c: char) {
    c in WhitespaceChars
  }

  /** `trimStart`: drops leading whitespace. */
  function TrimStart(s: string): string {
    if |s| > 0 && IsWhitespace(s[0]) then TrimStart(s[1..]) else s
  }

  /** `trimEnd`: drops trailing whitespace. */
  function TrimEnd(s: string): string {
    if |s| > 0 && IsWhitespace(s[|s| - 1]) then TrimEnd(s[..|s| - 1]) else s
  }

  /** `trim`: no longer than `s`, and neither starting nor ending with whitespace. */
  function Trim(s: string): (t: string)
    ensures |t| <= |s|
    ensures t == [] || (!IsWhitespace(t[0]) && !IsWhitespace(t[|t| - 1]))
  {
    TrimStartSpec(s);
    TrimEndSpec(TrimStart(s));
    TrimEnd(TrimStart(s))
  }

  /** `trimStart` keeps a suffix of `s`, everything it drops is whitespace, and what it
      keeps does not start with whitespace. */
  lemma {:induction false} TrimStartSpec(s: string)
    ensures |TrimStart(s)| <= |s| && TrimStart(s) == s[|s| - |TrimStart(s)|..]
    ensures forall i | 0 <= i < |s| - |TrimStart(s)| :: IsWhitespace(s[i])
    ensures TrimStart(s) == [] || !IsWhitespace(TrimStart(s)[0])
    decreases |s|
  {
    if |s| > 0 && IsWhitespace(s[0]) {
      TrimStartSpec(s[1..]);
    }
  }

  /** `trimEnd` keeps a prefix of `s`, everything it drops is whitespace, and what it
      keeps does not end with whitespace. */
  lemma {:induction false} TrimEndSpec(s: string)
    ensures |TrimEnd(s)| <= |s| && TrimEnd(s) == s[..|TrimEnd(s)|]
    ensures forall i | |TrimEnd(s)| <= i < |s| :: IsWhitespace(s[i])
    ensures TrimEnd(s) == [] || !IsWhitespace(TrimEnd(s)[|TrimEnd(s)| - 1])
    decreases |s|
  {
    if |s| > 0 && IsWhitespace(s[|s| - 1]) {
      TrimEndSpec(s[..|s| - 1]);
    }
  }

  /** Every character of `s` is whitespace (so the empty string is blank). */
  predicate IsBlank(s: string)
    decreases |s|
  {
    |s| == 0 || (IsWhitespace(s[0]) && IsBlank(s[1..]))
  }

  /** `!s.trim()`: the trimmed string is empty exactly when `s` is blank. */
  lemma {:induction false} TrimEmptyIffBlank(s: string)
    ensures Trim(s) == [] <==> IsBlank(s)
  {
    AllWhitespaceIffBlank(s);
    TrimStartSpec(s);
    var t := TrimStart(s);
    TrimEndSpec(t);
    if t != [] {
      assert s[|s| - |t|] == t[0];
    }
  }

  /** A string is blank exactly when each of its characters is whitespace. */
  lemma {:induction false} AllWhitespaceIffBlank(s: string)
    ensures IsBlank(s) <==> forall i | 0 <= i < |s| :: IsWhitespace(s[i])
    decreases |s|
  {
    if |s| > 0 {
      AllWhitespaceIffBlank(s[1..]);
      assert forall i | 1 <= i < |s| :: s[i] == s[1..][i - 1];
    }
  }

  /** `toLowerCase` on the ASCII letters; every other character is kept. */
  function LowerChar(c: char): char {
    if 'A' <= c <= 'Z' then (c as int + 32) as char else c
  }

  /** `toLowerCase`: same length, each ASCII capital replaced by its small letter, every
      other character kept. */
  function Lower(s: string): (r: string)
    ensures |r| == |s|
    ensures forall i | 0 <= i < |r| :: !('A' <= r[i] <= 'Z')
    ensures forall i | 0 <= i < |s| && !('A' <= s[i] <= 'Z') :: r[i] == s[i]
    ensures forall i | 0 <= i < |s| && 'A' <= s[i] <= 'Z' ::
      r[i] == "abcdefghijklmnopqrstuvwxyz"[s[i] as int - 'A' as int]
  {
    seq(|s|, i requires 0 <= i < |s| => LowerChar(s[i]))
  }

  lemma LowerAppend(a: string, b: string)
    ensures Lower(a + b) == Lower(a) + Lower(b)
  {
  }

  predicate StartsWith(s: string, p: string) {
    |p| <= |s| && s[..|p|] == p
  }

  /** `s.includes(p)`, scanning from the left. The empty string is included everywhere,
      a prefix is found, and nothing longer than `s` is. */
  predicate Includes(s: string, p: string)
    ensures p == [] ==> Includes(s, p)
    ensures StartsWith(s, p) ==> Includes(s, p)
    ensures Includes(s, p) ==> |p| <= |s|
    decreases |s|
  {
    StartsWith(s, p) || (|s| > 0 && Includes(s[1..], p))
  }

  /** `p` occurs in `s` at index `i`. */
  ghost predicate OccursAt(s: string, p: string, i: int) {
    0 <= i && i + |p| <= |s| && s[i..i + |p|] == p
  }

  /** The scan finds `p` exactly when `p` occurs somewhere in `s`. */
  lemma {:induction false} IncludesIff(s: string, p: string)
    ensures Includes(s, p) <==> exists i :: OccursAt(s, p, i)
    decreases |s|
  {
    if StartsWith(s, p) {
      assert OccursAt(s, p, 0);
    } else if |s| == 0 {
      assert forall i :: !OccursAt(s, p, i);
    } else {
      IncludesIff(s[1..], p);
      if Includes(s[1..], p) {
        var i :| OccursAt(s[1..], p, i);
        assert s[1..][i..i + |p|] == s[i + 1..i + 1 + |p|];
        assert OccursAt(s, p, i + 1);
      } else {
        forall i | OccursAt(s, p, i) ensures false {
          assert i != 0;
          assert s[1..][i - 1..i - 1 + |p|] == s[i..i + |p|];
          assert OccursAt(s[1..], p, i - 1);
        }
      }
    }
  }

  /** When no occurrence of `p` starts inside the prefix `a`, searching `a + b` is
      searching `b`. */
  lemma {:induction false} IncludesAfterPrefix(a: string, b: string, p: string)
    requires forall i | 0 <= i < |a| :: !StartsWith((a + b)[i..], p)
    ensures Includes(a + b, p) == Includes(b, p)
    decreases |a|
  {
    if |a| > 0 {
      assert !StartsWith(a + b, p) by { assert (a + b)[0..] == a + b; }
      assert (a + b)[1..] == a[1..] + b;
      forall i | 0 <= i < |a[1..]| ensures !StartsWith((a[1..] + b)[i..], p) {
        assert (a[1..] + b)[i..] == (a + b)[i + 1..];
      }
      IncludesAfterPrefix(a[1..], b, p);
    } else {
      assert a + b == b;
    }
  }

  /** Sum of the lengths of the strings in `xs`. */
  function TotalLength(xs: seq<string>): nat {
    if xs == [] then 0 else |xs[0]| + TotalLength(xs[1..])
  }

  /** `xs.join(sep)`: the elements in order with `sep` between neighbours. The result
      holds every element's characters and one separator per gap. */
  function Join(xs: seq<string>, sep: string): (r: string)
    ensures |xs| == 0 ==> r == []
    ensures |xs| > 0 ==> |r| == TotalLength(xs) + (|xs| - 1) * |sep|
    ensures |xs| > 0 ==> StartsWith(r, xs[0])
  {
    if |xs| == 0 then []
    else if |xs| == 1 then xs[0]
    else xs[0] + sep + Join(xs[1..], sep)
  }

  /** Appending an element to a non-empty list appends a separator and that element. */
  lemma {:induction false} JoinSnoc(xs: seq<string>, x: string, sep: string)
    requires |xs| > 0
    ensures Join(xs + [x], sep) == Join(xs, sep) + sep + x
    decreases |xs|
  {
    if |xs| == 1 {
      assert xs + [x] == [xs[0], x];
      assert [xs[0], x][1..] == [x];
    } else {
      assert (xs + [x])[1..] == xs[1..] + [x];
      JoinSnoc(xs[1..], x, sep);
    }
  }
}
