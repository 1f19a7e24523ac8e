/**
 * Character classes and string primitives the source takes from Python:
 * `str.strip`, the regular expression `\s+`, `str.lower`, the `in` test on
 * strings and `str.isdigit`. Whitespace, digits and case are the ASCII ones.
 */
module Strings {
  import Seqs

  /**
   * Whitespace as `str.strip` and the regular expression `\s` see it among
   * the ASCII characters: space, tab to carriage return, and the four
   * separators 0x1C to 0x1F.
   */
  predicate IsSpace(c: char)
  {
    c == ' ' || '\t' <= c <= '\r' || 28 <= c as int <= 31
  }

  predicate IsDigit(c: char)
  {
    '0' <= c <= '9'
  }

  /** The characters of `s` that are not whitespace, in order. */
  function NonSpace(s: string): string
    decreases |s|
  {
    if s == [] then [] else (if IsSpace(s[0]) then [] else [s[0]]) + NonSpace(s[1..])
  }

  /** The only whitespace character in `s` is the plain space. */
  ghost predicate OnlyBlanks(s: string)
  {
    forall i :: 0 <= i < |s| && IsSpace(s[i]) ==> s[i] == ' '
  }

  /** No two whitespace characters are adjacent in `s`. */
  ghost predicate NoDoubleSpace(s: string)
  {
    forall i, j :: 0 <= i && j == i + 1 && j < |s| ==> !IsSpace(s[i]) || !IsSpace(s[j])
  }

  /** The number of whitespace characters `s` starts with. */
  function LeadingBlanks(s: string): (n: nat)
    ensures n <= |s|
    ensures forall i :: 0 <= i < n ==> IsSpace(s[i])
    ensures n < |s| ==> !IsSpace(s[n])
    decreases |s|
  {
    if s != [] && IsSpace(s[0]) then
      var m := LeadingBlanks(s[1..]);
      assert forall i :: 1 <= i < m + 1 ==> s[i] == s[1..][i - 1];
      m + 1
    else 0
  }

  /** Whitespace alone has no non-whitespace characters. */
  lemma {:induction false} BlanksOnly(s: string)
    requires forall i :: 0 <= i < |s| ==> IsSpace(s[i])
    ensures NonSpace(s) == []
    decreases |s|
  {
    if s != [] {
      assert forall i :: 0 <= i < |s[1..]| ==> s[1..][i] == s[i + 1];
      BlanksOnly(s[1..]);
    }
  }

  /** `s` without its leading whitespace. */
  function TrimLeft(s: string): (r: string)
    ensures r == [] || !IsSpace(r[0])
    ensures |r| <= |s| && forall i :: 0 <= i < |r| ==> r[i] == s[|s| - |r| + i]
    ensures forall i :: 0 <= i < |s| - |r| ==> IsSpace(s[i])
    ensures NonSpace(r) == NonSpace(s)
  {
    var n := LeadingBlanks(s);
    assert s == s[..n] + s[n..];
    NonSpaceAppend(s[..n], s[n..]);
    BlanksOnly(s[..n]);
    s[n..]
  }

  /** `s` without its trailing whitespace. */
  function TrimRight(s: string): (r: string)
    ensures |r| <= |s| && forall i :: 0 <= i < |r| ==> r[i] == s[i]
    ensures r == [] || !IsSpace(r[|r| - 1])
    ensures forall i :: |r| <= i < |s| ==> IsSpace(s[i])
    ensures NonSpace(r) == NonSpace(s)
    decreases |s|
  {
    if s != [] && IsSpace(s[|s| - 1]) then
      var t := s[..|s| - 1];
      NonSpaceAppend(t, [s[|s| - 1]]);
      assert s == t + [s[|s| - 1]];
      assert NonSpace([s[|s| - 1]]) == [];
      var r := TrimRight(t);
      assert forall i :: 0 <= i < |r| ==> r[i] == s[i] by {
        forall i | 0 <= i < |r| ensures r[i] == s[i] {
          assert r[i] == t[i];
        }
      }
      assert forall i :: |r| <= i < |s| ==> IsSpace(s[i]) by {
        forall i | |r| <= i < |s| ensures IsSpace(s[i]) {
          if i < |t| {
            assert s[i] == t[i];
          }
        }
      }
      r
    else s
  }

  /** Python's `str.strip()`. */
  function Strip(s: string): (r: string)
    ensures r == [] || (!IsSpace(r[0]) && !IsSpace(r[|r| - 1]))
    ensures NonSpace(r) == NonSpace(s)
    ensures r == [] <==> NonSpace(s) == []
  {
    var r := TrimRight(TrimLeft(s));
    assert r != [] ==> NonSpace(r) == [r[0]] + NonSpace(r[1..]);
    r
  }

  /** Python's `re.sub(r"\s+", " ", s)`: every maximal whitespace run becomes one space. */
  function Collapse(s: string): (r: string)
    ensures r == [] <==> s == []
    ensures r != [] ==> IsSpace(r[0]) == IsSpace(s[0]) && IsSpace(r[|r| - 1]) == IsSpace(s[|s| - 1])
    ensures OnlyBlanks(r) && NoDoubleSpace(r)
    ensures NonSpace(r) == NonSpace(s)
    decreases |s|
  {
    if s == [] then []
    else if IsSpace(s[0]) then
      var t := TrimLeft(s);
      assert |t| < |s|;
      var c := Collapse(t);
      assert c != [] ==> t != [] && t[|t| - 1] == s[|s| - 1];
      assert c == [] ==> IsSpace(s[|s| - 1]);
      ConsBlank(' ', c);
      " " + c
    else
      var t := s[1..];
      var c := Collapse(t);
      assert c != [] ==> s[|s| - 1] == t[|t| - 1];
      assert NonSpace(s) == [s[0]] + NonSpace(t);
      ConsBlank(s[0], c);
      [s[0]] + c
  }

  /** Putting a character in front of single-spaced text keeps it single-spaced when no space meets a space. */
  lemma {:induction false} ConsBlank(x: char, c: string)
    requires OnlyBlanks(c) && NoDoubleSpace(c)
    requires IsSpace(x) ==> x == ' ' && (c == [] || !IsSpace(c[0]))
    ensures OnlyBlanks([x] + c) && NoDoubleSpace([x] + c)
    ensures NonSpace([x] + c) == (if IsSpace(x) then [] else [x]) + NonSpace(c)
  {
    var r := [x] + c;
    assert r[1..] == c;
    forall i | 0 <= i < |r| && IsSpace(r[i]) ensures r[i] == ' ' {
      if i > 0 {
        assert r[i] == c[i - 1];
      }
    }
    forall i, j | 0 <= i && j == i + 1 && j < |r| ensures !IsSpace(r[i]) || !IsSpace(r[j]) {
      if i > 0 {
        assert r[i] == c[i - 1] && r[j] == c[j - 1];
      }
    }
  }

  /** Python's `str.lower()` on ASCII letters. */
  function Lower(s: string): (r: string)
    ensures |r| == |s|
  {
    seq(|s|, i requires 0 <= i < |s| => if 'A' <= s[i] <= 'Z' then (s[i] as int + 32) as char else s[i])
  }

  predicate OccursAt(s: string, sub: string, i: int)
  {
    0 <= i && i + |sub| <= |s| && s[i..i + |sub|] == sub
  }

  /** Python's `sub in s`: `sub` starts at some position of `s`. */
  predicate Contains(s: string, sub: string)
    decreases |s|
  {
    sub <= s || (s != [] && Contains(s[1..], sub))
  }

  /** Python's `any(ch.isdigit() for ch in s)`. */
  predicate HasDigit(s: string)
    decreases |s|
  {
    s != [] && (IsDigit(s[0]) || HasDigit(s[1..]))
  }

  lemma {:induction false} NonSpaceAppend(a: string, b: string)
    ensures NonSpace(a + b) == NonSpace(a) + NonSpace(b)
    decreases |a|
  {
    if a != [] {
      assert (a + b)[0] == a[0];
      assert (a + b)[1..] == a[1..] + b;
      NonSpaceAppend(a[1..], b);
    } else {
      assert a + b == b;
    }
  }

  /** Text with no whitespace at either end is left alone by `Strip`. */
  lemma {:induction false} StripTrimmed(s: string)
    requires s == [] || (!IsSpace(s[0]) && !IsSpace(s[|s| - 1]))
    ensures Strip(s) == s
  {
  }

  /** Text whose only whitespace is single spaces is left alone by `Collapse`. */
  lemma {:induction false} CollapseSingleSpaced(s: string)
    requires OnlyBlanks(s) && NoDoubleSpace(s)
    ensures Collapse(s) == s
    decreases |s|
  {
    if s != [] {
      var t := s[1..];
      assert s == [s[0]] + t;
      forall i | 0 <= i < |t| && IsSpace(t[i]) ensures t[i] == ' ' {
        assert t[i] == s[i + 1];
      }
      forall i, j | 0 <= i && j == i + 1 && j < |t| ensures !IsSpace(t[i]) || !IsSpace(t[j]) {
        assert t[i] == s[i + 1] && t[j] == s[j + 1];
      }
      CollapseSingleSpaced(t);
      if IsSpace(s[0]) {
        assert s[0] == ' ';
        assert t == [] || !IsSpace(t[0]) by {
          if t != [] {
            assert t[0] == s[1];
          }
        }
        assert TrimLeft(t) == t;
        assert TrimLeft(s) == t;
      }
    }
  }

  /** Leading whitespace is skipped one character at a time. */
  lemma {:induction false} TrimLeftTail(s: string)
    requires s != [] && IsSpace(s[0])
    ensures TrimLeft(s) == TrimLeft(s[1..])
  {
    var n := LeadingBlanks(s[1..]);
    assert LeadingBlanks(s) == n + 1;
    assert s[n + 1..] == s[1..][n..];
  }

  /** Whitespace alone trims to nothing. */
  lemma TrimLeftBlanks(w: string)
    requires forall i :: 0 <= i < |w| ==> IsSpace(w[i])
    ensures TrimLeft(w) == []
  {
  }

  /** Trimming the left of `x + z` stops inside `x` when `x` ends with a non-space. */
  lemma {:induction false} TrimLeftKeep(x: string, z: string)
    requires x != [] && !IsSpace(x[|x| - 1])
    ensures TrimLeft(x + z) == TrimLeft(x) + z
    decreases |x|
  {
    if IsSpace(x[0]) {
      assert |x| > 1;
      assert (x + z)[0] == x[0];
      assert (x + z)[1..] == x[1..] + z;
      TrimLeftTail(x + z);
      TrimLeftTail(x);
      TrimLeftKeep(x[1..], z);
    } else {
      assert (x + z)[0] == x[0];
      assert LeadingBlanks(x + z) == 0 && LeadingBlanks(x) == 0;
    }
  }

  /** A whitespace run followed by text that starts with a non-space collapses to one space before it. */
  lemma {:induction false} CollapseRun(w: string, y: string)
    requires w != [] && forall i :: 0 <= i < |w| ==> IsSpace(w[i])
    requires y == [] || !IsSpace(y[0])
    ensures Collapse(w + y) == " " + Collapse(y)
  {
    assert (w + y)[0] == w[0];
    TrimLeftBlanks(w);
    if y == [] {
      assert w + y == w;
    } else {
      TrimLeftConcat(w, y);
    }
    assert TrimLeft(w + y) == y;
  }

  lemma Regroup(a: string, b: string, c: string, d: string)
    ensures a + (b + c + d) == (a + b) + c + d
  {
  }

  /** `Collapse` on text starting with whitespace: one space, then the rest after the run. */
  lemma CollapseSpaceHead(s: string)
    requires s != [] && IsSpace(s[0])
    ensures Collapse(s) == " " + Collapse(TrimLeft(s))
  {
  }

  /** `Collapse` on text starting with a non-space: that character, then the rest. */
  lemma CollapseCharHead(s: string)
    requires s != [] && !IsSpace(s[0])
    ensures Collapse(s) == [s[0]] + Collapse(s[1..])
  {
  }

  /**
   * A whitespace run between two pieces of text becomes exactly one space,
   * and the text on either side is collapsed on its own.
   */
  lemma {:induction false} CollapseSplit(x: string, w: string, y: string)
    requires x != [] && !IsSpace(x[|x| - 1])
    requires w != [] && forall i :: 0 <= i < |w| ==> IsSpace(w[i])
    requires y == [] || !IsSpace(y[0])
    ensures Collapse(x + w + y) == Collapse(x) + " " + Collapse(y)
    decreases |x|, 1
  {
    if IsSpace(x[0]) {
      CollapseSplitSpace(x, w, y);
    } else if |x| == 1 {
      CollapseSplitLast(x, w, y);
    } else {
      CollapseSplit(x[1..], w, y);
      CollapseSplitChar(x, w, y);
    }
  }

  /** The head and the tail of a three-piece concatenation whose first piece is not empty. */
  lemma ConcatHead(x: string, w: string, y: string)
    requires x != []
    ensures (x + w + y)[0] == x[0] && (x + w + y)[1..] == x[1..] + w + y
  {
  }

  /** A single non-space character is its own collapsed form. */
  lemma CollapseChar(c: char)
    requires !IsSpace(c)
    ensures Collapse([c]) == [c]
  {
    assert [c][1..] == [];
  }

  /** The case of `CollapseSplit` where `x` is one non-space character. */
  lemma {:induction false} CollapseSplitLast(x: string, w: string, y: string)
    requires |x| == 1 && !IsSpace(x[0])
    requires w != [] && forall i :: 0 <= i < |w| ==> IsSpace(w[i])
    requires y == [] || !IsSpace(y[0])
    ensures Collapse(x + w + y) == Collapse(x) + " " + Collapse(y)
  {
    ConcatHead(x, w, y);
    assert x == [x[0]] && x[1..] == [];
    assert x[1..] + w + y == w + y;
    CollapseCharHead(x + w + y);
    CollapseRun(w, y);
    CollapseChar(x[0]);
    Seqs.Assoc([x[0]], " ", Collapse(y));
  }

  /** The step of `CollapseSplit` over a leading non-space character. */
  lemma {:induction false} CollapseSplitChar(x: string, w: string, y: string)
    requires |x| > 1 && !IsSpace(x[0])
    requires Collapse(x[1..] + w + y) == Collapse(x[1..]) + " " + Collapse(y)
    ensures Collapse(x + w + y) == Collapse(x) + " " + Collapse(y)
  {
    ConcatHead(x, w, y);
    CollapseCharHead(x + w + y);
    CollapseCharHead(x);
    Regroup([x[0]], Collapse(x[1..]), " ", Collapse(y));
  }

  /** The case of `CollapseSplit` where `x` starts with whitespace. */
  lemma {:induction false} CollapseSplitSpace(x: string, w: string, y: string)
    requires x != [] && IsSpace(x[0]) && !IsSpace(x[|x| - 1])
    requires w != [] && forall i :: 0 <= i < |w| ==> IsSpace(w[i])
    requires y == [] || !IsSpace(y[0])
    ensures Collapse(x + w + y) == Collapse(x) + " " + Collapse(y)
    decreases |x|, 0
  {
    var s := x + (w + y);
    assert x + w + y == s;
    assert s[0] == x[0];
    var t := TrimLeft(x);
    TrimLeftKeep(x, w + y);
    assert t != [] && t[|t| - 1] == x[|x| - 1];
    assert t + (w + y) == t + w + y;
    CollapseSpaceHead(s);
    CollapseSplit(t, w, y);
    CollapseSpaceHead(x);
    Regroup(" ", Collapse(t), " ", Collapse(y));
  }

  /** The text before the first '|', as `s.split("|")[0]`. */
  function BeforeBar(s: string): (r: string)
    ensures |r| <= |s| && forall i :: 0 <= i < |r| ==> r[i] == s[i] && r[i] != '|'
    ensures |r| < |s| ==> s[|r|] == '|'
    decreases |s|
  {
    if s == [] || s[0] == '|' then [] else [s[0]] + BeforeBar(s[1..])
  }

  lemma {:induction false} BeforeBarConcat(t: string, u: string)
    requires forall i :: 0 <= i < |t| ==> t[i] != '|'
    ensures BeforeBar(t + "|" + u) == t
    decreases |t|
  {
    if t == [] {
      assert (t + "|" + u)[0] == '|';
    } else {
      assert (t + "|" + u)[0] == t[0];
      assert (t + "|" + u)[1..] == t[1..] + "|" + u;
      BeforeBarConcat(t[1..], u);
    }
  }

  lemma {:induction false} BeforeBarNone(t: string)
    requires forall i :: 0 <= i < |t| ==> t[i] != '|'
    ensures BeforeBar(t) == t
    decreases |t|
  {
    if t != [] {
      BeforeBarNone(t[1..]);
      assert t == [t[0]] + t[1..];
    }
  }

  /** Leading whitespace of `x + y` is that of `x` when `y` starts with a non-space. */
  lemma {:induction false} TrimLeftConcat(x: string, y: string)
    requires y != [] && !IsSpace(y[0])
    ensures TrimLeft(x + y) == TrimLeft(x) + y
    decreases |x|
  {
    if x == [] {
      assert x + y == y;
    } else if IsSpace(x[0]) {
      assert (x + y)[0] == x[0];
      assert (x + y)[1..] == x[1..] + y;
      TrimLeftConcat(x[1..], y);
    } else {
      assert (x + y)[0] == x[0];
    }
  }

  /** Trailing whitespace of `x + y` is that of `y` when `x` ends with a non-space. */
  lemma {:induction false} TrimRightConcat(x: string, y: string)
    requires x != [] && !IsSpace(x[|x| - 1])
    ensures TrimRight(x + y) == x + TrimRight(y)
    decreases |y|
  {
    if y == [] {
      assert x + y == x;
    } else if IsSpace(y[|y| - 1]) {
      assert (x + y)[|x + y| - 1] == y[|y| - 1];
      assert (x + y)[..|x + y| - 1] == x + y[..|y| - 1];
      TrimRightConcat(x, y[..|y| - 1]);
    } else {
      assert (x + y)[|x + y| - 1] == y[|y| - 1];
    }
  }

  /** Stripping removes characters only, so a character absent from `s` is absent from the result. */
  lemma {:induction false} StripOmits(s: string, c: char)
    requires forall i :: 0 <= i < |s| ==> s[i] != c
    ensures forall i :: 0 <= i < |Strip(s)| ==> Strip(s)[i] != c
  {
    var l := TrimLeft(s);
    var r := TrimRight(l);
    assert Strip(s) == r;
    forall i | 0 <= i < |r| ensures r[i] != c {
      assert r[i] == l[i];
      assert l[i] == s[|s| - |l| + i];
    }
  }
}
