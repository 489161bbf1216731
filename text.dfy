/** The three pieces of Python string handling the two scripts rely on:
    `str.split()` with no argument (runs of whitespace separate fields),
    `str.split(sep)` with a one-character separator, and `str(n)` for a
    non-negative integer. */
module Text {

  /** The characters `str.isspace()` holds of in the ASCII range. */
  predicate IsSpace(c: char) {
    c == ' ' || c == '\t' || c == '\n' || c == '\r' || c == '\U{B}' || c == '\U{C}'
    || c == '\U{1C}' || c == '\U{1D}' || c == '\U{1E}' || c == '\U{1F}'
  }

  predicate SpaceFree(w: string) {
    forall i :: 0 <= i < |w| ==> !IsSpace(w[i])
  }

  /** The longest prefix of `s` holding no whitespace. */
  function Word(s: string): (w: string)
    ensures |w| <= |s| && w == s[..|w|]
    ensures SpaceFree(w)
    ensures |w| < |s| ==> IsSpace(s[|w|])
  {
    if |s| == 0 || IsSpace(s[0]) then [] else [s[0]] + Word(s[1..])
  }

  /** `s.split()`: the maximal whitespace-free runs of `s`, in order. */
  function Fields(s: string): (r: seq<string>)
    ensures forall i :: 0 <= i < |r| ==> |r[i]| > 0 && SpaceFree(r[i])
    decreases |s|
  {
    if |s| == 0 then []
    else if IsSpace(s[0]) then Fields(s[1..])
    else
      var w := Word(s);
      [w] + Fields(s[|w|..])
  }

  predicate AllSpace(s: string) {
    forall i :: 0 <= i < |s| ==> IsSpace(s[i])
  }

  /** Words separated by runs of whitespace: `ws[0] + seps[0] + ws[1] + …`. */
  function Spaced(ws: seq<string>, seps: seq<string>): string
    requires |ws| >= 1 && |seps| == |ws| - 1
  {
    if |ws| == 1 then ws[0] else ws[0] + seps[0] + Spaced(ws[1..], seps[1..])
  }

  lemma {:induction false} WordOfPrefix(w: string, t: string)
    requires SpaceFree(w)
    requires t == [] || IsSpace(t[0])
    ensures Word(w + t) == w
  {
    if |w| > 0 {
      assert (w + t)[1..] == w[1..] + t;
      WordOfPrefix(w[1..], t);
    } else {
      assert w + t == t;
    }
  }

  /** Leading whitespace does not change the fields. */
  lemma {:induction false} LeadingSpace(sp: string, t: string)
    requires AllSpace(sp)
    ensures Fields(sp + t) == Fields(t)
  {
    if |sp| > 0 {
      assert (sp + t)[1..] == sp[1..] + t;
      LeadingSpace(sp[1..], t);
    } else {
      assert sp + t == t;
    }
  }

  /** A whitespace character after the text does not change the first word. */
  lemma WordAppendSpace(s: string, c: char)
    requires IsSpace(c)
    ensures Word(s + [c]) == Word(s)
  {
    var w := Word(s);
    var t := s[|w|..] + [c];
    assert s + [c] == w + t;
    WordOfPrefix(w, t);
  }

  /** A whitespace character after the text does not change the fields. */
  lemma {:induction false} TrailingSpace(s: string, c: char)
    requires IsSpace(c)
    ensures Fields(s + [c]) == Fields(s)
    decreases |s|
  {
    if |s| == 0 {
      assert ([] + [c])[1..] == [];
    } else if IsSpace(s[0]) {
      assert (s + [c])[1..] == s[1..] + [c];
      TrailingSpace(s[1..], c);
    } else {
      var w := Word(s);
      WordAppendSpace(s, c);
      assert (s + [c])[|w|..] == s[|w|..] + [c];
      TrailingSpace(s[|w|..], c);
    }
  }

  /** Trailing whitespace, such as the `'\n'` that `readlines()` keeps, does
      not change the fields. */
  lemma {:induction false} TrailingSpaces(s: string, sp: string)
    requires AllSpace(sp)
    ensures Fields(s + sp) == Fields(s)
  {
    if |sp| > 0 {
      var n := |sp| - 1;
      TrailingSpaces(s, sp[..n]);
      assert s + sp == (s + sp[..n]) + [sp[n]];
      TrailingSpace(s + sp[..n], sp[n]);
    } else {
      assert s + sp == s;
    }
  }

  /** Splitting words separated by runs of whitespace gives the words back. */
  lemma {:induction false} FieldsSpaced(ws: seq<string>, seps: seq<string>)
    requires |ws| >= 1 && |seps| == |ws| - 1
    requires forall i :: 0 <= i < |ws| ==> |ws[i]| > 0 && SpaceFree(ws[i])
    requires forall i :: 0 <= i < |seps| ==> |seps[i]| > 0 && AllSpace(seps[i])
    ensures Fields(Spaced(ws, seps)) == ws
  {
    if |ws| == 1 {
      WordOfPrefix(ws[0], []);
      assert ws[0] + [] == ws[0];
      assert Spaced(ws, seps)[|ws[0]|..] == [];
    } else {
      var s := Spaced(ws, seps);
      var rest := Spaced(ws[1..], seps[1..]);
      var t := seps[0] + rest;
      assert s == ws[0] + t;
      assert IsSpace(seps[0][0]);
      WordOfPrefix(ws[0], t);
      assert s[|ws[0]|..] == t;
      LeadingSpace(seps[0], rest);
      FieldsSpaced(ws[1..], seps[1..]);
      assert ws == [ws[0]] + ws[1..];
    }
  }

  /** A line as read from a file: leading whitespace, words separated by runs
      of whitespace, trailing whitespace (the newline). Its fields are the words. */
  lemma FieldsOfLine(lead: string, ws: seq<string>, seps: seq<string>, trail: string)
    requires |ws| >= 1 && |seps| == |ws| - 1
    requires forall i :: 0 <= i < |ws| ==> |ws[i]| > 0 && SpaceFree(ws[i])
    requires forall i :: 0 <= i < |seps| ==> |seps[i]| > 0 && AllSpace(seps[i])
    requires AllSpace(lead) && AllSpace(trail)
    ensures Fields(lead + Spaced(ws, seps) + trail) == ws
  {
    FieldsSpaced(ws, seps);
    TrailingSpaces(Spaced(ws, seps), trail);
    assert lead + Spaced(ws, seps) + trail == lead + (Spaced(ws, seps) + trail);
    LeadingSpace(lead, Spaced(ws, seps) + trail);
  }

  /** `s.split(c)`: the pieces between occurrences of `c`, empty pieces kept. */
  function SplitOn(s: string, c: char): (r: seq<string>)
    ensures |r| >= 1
    ensures forall i :: 0 <= i < |r| ==> c !in r[i]
  {
    if |s| == 0 then [""]
    else
      var rest := SplitOn(s[1..], c);
      if s[0] == c then [""] + rest else [[s[0]] + rest[0]] + rest[1..]
  }

  /** `c.join(ps)` */
  function JoinWith(ps: seq<string>, c: char): string
    requires |ps| >= 1
  {
    if |ps| == 1 then ps[0] else ps[0] + [c] + JoinWith(ps[1..], c)
  }

  /** Splitting and re-joining on the same separator is the identity. */
  lemma {:induction false} JoinSplit(s: string, c: char)
    ensures JoinWith(SplitOn(s, c), c) == s
  {
    if |s| > 0 {
      var rest := SplitOn(s[1..], c);
      JoinSplit(s[1..], c);
      if s[0] != c && |rest| > 1 {
        assert rest == [rest[0]] + rest[1..];
        assert JoinWith(rest, c) == rest[0] + [c] + JoinWith(rest[1..], c);
      }
    }
  }

  /** A string free of the separator is a single piece. */
  lemma {:induction false} SplitWithout(k: string, c: char)
    requires c !in k
    ensures SplitOn(k, c) == [k]
  {
    if |k| > 0 {
      SplitWithout(k[1..], c);
      assert [k[0]] + k[1..] == k;
    }
  }

  /** The last piece of `p + c + k` is `k` when `k` holds no separator. */
  lemma {:induction false} LastPiece(p: string, c: char, k: string)
    requires c !in k
    ensures |SplitOn(p + [c] + k, c)| >= 2
    ensures SplitOn(p + [c] + k, c)[|SplitOn(p + [c] + k, c)| - 1] == k
  {
    var s := p + [c] + k;
    if |p| == 0 {
      assert s == [c] + k && s[1..] == k;
      SplitWithout(k, c);
    } else {
      assert s[1..] == p[1..] + [c] + k;
      LastPiece(p[1..], c, k);
    }
  }

  /** A separator-free first piece is split off whole. */
  lemma {:induction false} SplitAfterPiece(p: string, c: char, rest: string)
    requires c !in p
    ensures SplitOn(p + [c] + rest, c) == [p] + SplitOn(rest, c)
  {
    if |p| == 0 {
      assert p + [c] + rest == [c] + rest;
      assert ([c] + rest)[1..] == rest;
    } else {
      var s := p + [c] + rest;
      assert s[1..] == p[1..] + [c] + rest;
      SplitAfterPiece(p[1..], c, rest);
      assert [p[0]] + p[1..] == p;
    }
  }

  /** Joining separator-free pieces and splitting again gives the pieces back. */
  lemma {:induction false} SplitJoin(ps: seq<string>, c: char)
    requires |ps| >= 1
    requires forall i :: 0 <= i < |ps| ==> c !in ps[i]
    ensures SplitOn(JoinWith(ps, c), c) == ps
  {
    if |ps| == 1 {
      SplitWithout(ps[0], c);
    } else {
      SplitJoin(ps[1..], c);
      SplitAfterPiece(ps[0], c, JoinWith(ps[1..], c));
      assert [ps[0]] + ps[1..] == ps;
    }
  }

  predicate IsDigit(c: char) {
    '0' <= c <= '9'
  }

  function DigitChar(d: nat): (c: char)
    requires d < 10
    ensures IsDigit(c)
  {
    ('0' as int + d) as char
  }

  /** `str(n)` for `n >= 0`: decimal digits, no sign, no leading zero. */
  function NatToString(n: nat): (s: string)
    ensures |s| >= 1
    ensures forall i :: 0 <= i < |s| ==> IsDigit(s[i])
  {
    if n < 10 then [DigitChar(n)] else NatToString(n / 10) + [DigitChar(n % 10)]
  }

  /** `int(s)` for a string of decimal digits. */
  function ParseNat(s: string): nat
    requires forall i :: 0 <= i < |s| ==> IsDigit(s[i])
  {
    if |s| == 0 then 0
    else
      assert IsDigit(s[|s| - 1]);
      ParseNat(s[..|s| - 1]) * 10 + (s[|s| - 1] as int - '0' as int)
  }

  /** Reading back the decimal text of `n` gives `n`. */
  lemma {:induction false} ParseNatToString(n: nat)
    ensures ParseNat(NatToString(n)) == n
  {
    var s := NatToString(n);
    if n >= 10 {
      ParseNatToString(n / 10);
      assert s[..|s| - 1] == NatToString(n / 10);
    }
  }

  /** Distinct numbers print differently. */
  lemma NatToStringInjective(m: nat, n: nat)
    requires m != n
    ensures NatToString(m) != NatToString(n)
  {
    ParseNatToString(m);
    ParseNatToString(n);
  }
}
