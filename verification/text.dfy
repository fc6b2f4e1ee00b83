/** String helpers used by the uploader form: the whitespace test behind
    JavaScript's `String.prototype.trim`, trimming, splitting on a separator
    character, and decimal rendering of small counters in log lines. */
module Text {

  /** The ASCII whitespace characters that `trim` removes: space, tab,
      line feed, vertical tab, form feed and carriage return. */
  predicate IsSpace(c: char) {
    c == ' ' || c == '\t' || c == '\n' || c == '\U{B}' || c == '\U{C}' || c == '\r'
  }

  /** Every character of `s` is whitespace (the empty string included). */
  predicate AllSpace(s: string) {
    forall k :: 0 <= k < |s| ==> IsSpace(s[k])
  }

  /** Number of whitespace characters at the start of `s`. */
  function LeadingSpaces(s: string): (n: nat)
    ensures n <= |s|
    ensures forall k :: 0 <= k < n ==> IsSpace(s[k])
    ensures n == |s| || !IsSpace(s[n])
  {
    if |s| > 0 && IsSpace(s[0]) then 1 + LeadingSpaces(s[1..]) else 0
  }

  /** Length of `s` without its trailing whitespace. */
  function KeptLength(s: string): (n: nat)
    ensures n <= |s|
    ensures forall k :: n <= k < |s| ==> IsSpace(s[k])
    ensures n == 0 || !IsSpace(s[n - 1])
  {
    if |s| > 0 && IsSpace(s[|s| - 1]) then KeptLength(s[..|s| - 1]) else |s|
  }

  /** JavaScript's `s.trim()`: leading whitespace is removed, then trailing
      whitespace. The result is the infix of `s` that starts and ends with a
      non-whitespace character and has only whitespace around it; it is
      empty exactly when `s` is all whitespace. */
  function Trim(s: string): (r: string)
    ensures exists i :: TrimmedAt(s, i, r)
    ensures r == [] || (!IsSpace(r[0]) && !IsSpace(r[|r| - 1]))
    ensures r == [] <==> AllSpace(s)
  {
    var i := LeadingSpaces(s);
    var t := s[i..];
    var r := t[..KeptLength(t)];
    assert TrimmedAt(s, i, r);
    r
  }

  /** `r` sits in `s` at offset `i`, with only whitespace before and after. */
  predicate TrimmedAt(s: string, i: nat, r: string) {
    && i + |r| <= |s|
    && r == s[i..i + |r|]
    && (forall k :: 0 <= k < i ==> IsSpace(s[k]))
    && (forall k :: i + |r| <= k < |s| ==> IsSpace(s[k]))
  }

  /** JavaScript truthiness of `s.trim()` negated: the string is blank. */
  predicate IsBlank(s: string) {
    Trim(s) == []
  }

  /** The pieces joined back together with `sep` between neighbours. */
  function Join(pieces: seq<string>, sep: char): string
    requires |pieces| >= 1
  {
    if |pieces| == 1 then pieces[0] else pieces[0] + [sep] + Join(pieces[1..], sep)
  }

  /** JavaScript's `s.split(sep)` for a one-character separator: the maximal
      separator-free runs of `s`, in order, empty runs included, so there is
      always at least one piece. */
  function Split(s: string, sep: char): (r: seq<string>)
    ensures |r| >= 1
    ensures forall k :: 0 <= k < |r| ==> sep !in r[k]
    ensures |r| == Count(s, sep) + 1
  {
    if s == [] then [[]]
    else
      var rest := Split(s[1..], sep);
      if s[0] == sep then [[]] + rest
      else [[s[0]] + rest[0]] + rest[1..]
  }

  /** Number of occurrences of `c` in `s`. */
  function Count(s: string, c: char): nat {
    if s == [] then 0 else (if s[0] == c then 1 else 0) + Count(s[1..], c)
  }

  /** Joining the pieces of a split gives back the input. */
  lemma {:induction false} JoinSplit(s: string, sep: char)
    ensures Join(Split(s, sep), sep) == s
  {
    if s != [] {
      var rest := Split(s[1..], sep);
      JoinSplit(s[1..], sep);
      if s[0] != sep {
        var p := [s[0]] + rest[0];
        var ps := [p] + rest[1..];
        if |rest| == 1 {
          assert Join(ps, sep) == p;
        } else {
          assert ps[1..] == rest[1..];
          assert Join(ps, sep) == p + [sep] + Join(rest[1..], sep);
          assert Join(rest, sep) == rest[0] + [sep] + Join(rest[1..], sep);
        }
        assert s == [s[0]] + s[1..];
      } else {
        assert ([[]] + rest)[1..] == rest;
        assert s == [sep] + s[1..];
      }
    }
  }

  /** Splitting a separator-free string gives that string alone. */
  lemma {:induction false} SplitNoSep(p: string, sep: char)
    requires sep !in p
    ensures Split(p, sep) == [p]
  {
    if p != [] {
      assert sep !in p[1..];
      SplitNoSep(p[1..], sep);
      assert [p[0]] + p[1..] == p;
    }
  }

  /** Splitting `p + [sep] + t` for a separator-free `p` peels off `p`. */
  lemma {:induction false} SplitFirstPiece(p: string, t: string, sep: char)
    requires sep !in p
    ensures Split(p + [sep] + t, sep) == [p] + Split(t, sep)
  {
    var s := p + [sep] + t;
    if p == [] {
      assert s == [sep] + t;
      assert s[1..] == t;
    } else {
      assert s[1..] == p[1..] + [sep] + t;
      assert sep !in p[1..];
      SplitFirstPiece(p[1..], t, sep);
      assert [p[0]] + p[1..] == p;
    }
  }

  /** Splitting a join of separator-free pieces gives back the pieces: with
      `JoinSplit`, `Split` and `Join` are inverse bijections. */
  lemma {:induction false} SplitJoin(pieces: seq<string>, sep: char)
    requires |pieces| >= 1
    requires forall k :: 0 <= k < |pieces| ==> sep !in pieces[k]
    ensures Split(Join(pieces, sep), sep) == pieces
  {
    if |pieces| == 1 {
      SplitNoSep(pieces[0], sep);
    } else {
      SplitJoin(pieces[1..], sep);
      SplitFirstPiece(pieces[0], Join(pieces[1..], sep), sep);
      assert [pieces[0]] + pieces[1..] == pieces;
    }
  }

  /** The decimal digit character for `d`. */
  function DigitChar(d: nat): (c: char)
    requires d < 10
    ensures '0' <= c <= '9' && c as int - '0' as int == d
  {
    "0123456789"[d]
  }

  /** The number a string of decimal digits denotes, read most significant
      digit first. */
  function DecimalValue(s: string): nat
    requires forall k :: 0 <= k < |s| ==> '0' <= s[k] <= '9'
  {
    if s == [] then 0
    else DecimalValue(s[..|s| - 1]) * 10 + (s[|s| - 1] as int - '0' as int)
  }

  /** Decimal rendering of `n` with no leading zeros, as a template literal
      prints a non-negative integer. */
  function NatToString(n: nat): (r: string)
    ensures 1 <= |r|
    ensures forall k :: 0 <= k < |r| ==> '0' <= r[k] <= '9'
    ensures n < 10 <==> |r| == 1
    ensures n < 10 ==> r == [DigitChar(n)]
    ensures r[0] != '0' || n == 0
    ensures DecimalValue(r) == n
  {
    if n < 10 then [DigitChar(n)]
    else
      var r := NatToString(n / 10) + [DigitChar(n % 10)];
      assert r[..|r| - 1] == NatToString(n / 10);
      r
  }
}
