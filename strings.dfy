/**
 * The parts of JavaScript's string library the app relies on, over ASCII text:
 * printing a whole number in decimal (template literals), ASCII case mapping
 * (`toUpperCase`, `toLowerCase`), `split` on one character and `join`, and the
 * code-unit ordering that `Array.prototype.sort` uses by default.
 */
module Strings {

  // ---------------------------------------------------------------------------
  // Decimal digits
  // ---------------------------------------------------------------------------

  predicate IsDigit(c: char) {
    '0' <= c <= '9'
  }

  predicate AllDigits(s: string) {
    forall i :: 0 <= i < |s| ==> IsDigit(s[i])
  }

  function DigitChar(d: nat): char
    requires d < 10
  {
    ('0' as int + d) as char
  }

  function DigitValue(c: char): nat
    requires IsDigit(c)
  {
    c as int - '0' as int
  }

  /** Decimal rendering of a whole number, as JavaScript prints it: no sign, no leading zero. */
  function NatToString(n: nat): (s: string)
    ensures |s| >= 1 && AllDigits(s)
    ensures n == 0 ==> s == "0"
    ensures n > 0 ==> s[0] != '0'
    decreases n
  {
    if n < 10 then [DigitChar(n)] else NatToString(n / 10) + [DigitChar(n % 10)]
  }

  /** Reading a string of decimal digits back as a number. */
  function ParseNat(s: string): nat
    requires AllDigits(s)
  {
    if s == [] then 0 else 10 * ParseNat(s[..|s| - 1]) + DigitValue(s[|s| - 1])
  }

  /** Printing loses nothing: the number can be read back. */
  lemma {:induction false} ParseNatToString(n: nat)
    ensures ParseNat(NatToString(n)) == n
    decreases n
  {
    if n >= 10 {
      var s := NatToString(n);
      assert s[..|s| - 1] == NatToString(n / 10);
      ParseNatToString(n / 10);
    }
  }

  // ---------------------------------------------------------------------------
  // ASCII case mapping
  // ---------------------------------------------------------------------------

  predicate IsLowerLetter(c: char) {
    'a' <= c <= 'z'
  }

  predicate IsUpperLetter(c: char) {
    'A' <= c <= 'Z'
  }

  function Upper(c: char): char {
    if IsLowerLetter(c) then (c as int - 32) as char else c
  }

  function Lower(c: char): char {
    if IsUpperLetter(c) then (c as int + 32) as char else c
  }

  /** `String.prototype.toLowerCase` on ASCII text. */
  function ToLower(s: string): (r: string)
    ensures |r| == |s|
    ensures forall i :: 0 <= i < |s| ==> r[i] == Lower(s[i])
  {
    if s == [] then [] else [Lower(s[0])] + ToLower(s[1..])
  }

  // ---------------------------------------------------------------------------
  // Replacing, suffixes, split and join
  // ---------------------------------------------------------------------------

  /** `s.replace(/from/g, to)` for a one-character pattern. */
  function ReplaceChar(s: string, from: char, to: char): (r: string)
    ensures |r| == |s|
    ensures forall i :: 0 <= i < |s| ==> r[i] == if s[i] == from then to else s[i]
  {
    if s == [] then [] else [if s[0] == from then to else s[0]] + ReplaceChar(s[1..], from, to)
  }

  predicate EndsWith(s: string, suffix: string) {
    |suffix| <= |s| && s[|s| - |suffix|..] == suffix
  }

  /** `s.replace(/suffix$/, '')`: drops one trailing occurrence of `suffix`. */
  function StripSuffix(s: string, suffix: string): (r: string)
    ensures EndsWith(s, suffix) ==> r + suffix == s
    ensures !EndsWith(s, suffix) ==> r == s
  {
    if EndsWith(s, suffix) then s[..|s| - |suffix|] else s
  }

  /** `s.split(sep)` for a one-character separator: the pieces between separators, empty ones included. */
  function Split(s: string, sep: char): (ws: seq<string>)
    ensures |ws| >= 1
    ensures forall i :: 0 <= i < |ws| ==> sep !in ws[i]
  {
    if s == [] then [""]
    else
      var rest := Split(s[1..], sep);
      if s[0] == sep then [""] + rest else [[s[0]] + rest[0]] + rest[1..]
  }

  /** `ws.join(sep)`. */
  function Join(ws: seq<string>, sep: string): string {
    if ws == [] then "" else if |ws| == 1 then ws[0] else ws[0] + sep + Join(ws[1..], sep)
  }

  lemma {:induction false} JoinPrefixFirst(p: string, w: string, ws: seq<string>, sep: string)
    ensures Join([p + w] + ws, sep) == p + Join([w] + ws, sep)
  {
    var a, b := [p + w] + ws, [w] + ws;
    assert a[1..] == ws == b[1..];
  }

  /** Splitting on a character and joining with it gives back the text. */
  lemma {:induction false} JoinSplit(s: string, sep: char)
    ensures Join(Split(s, sep), [sep]) == s
  {
    if s != [] {
      var rest := Split(s[1..], sep);
      JoinSplit(s[1..], sep);
      if s[0] == sep {
        var ws := [""] + rest;
        assert ws[1..] == rest;
      } else {
        JoinPrefixFirst([s[0]], rest[0], rest[1..], [sep]);
        assert [rest[0]] + rest[1..] == rest;
      }
    }
  }

  // ---------------------------------------------------------------------------
  // Capitalising words
  // ---------------------------------------------------------------------------

  /** `word.charAt(0).toUpperCase() + word.slice(1)`. */
  function CapitalizeFirst(w: string): string {
    if w == [] then [] else [Upper(w[0])] + w[1..]
  }

  function CapitalizeAll(ws: seq<string>): (r: seq<string>)
    ensures |r| == |ws|
  {
    if ws == [] then [] else [CapitalizeFirst(ws[0])] + CapitalizeAll(ws[1..])
  }

  /** `s.split(' ').map(capitalise first letter).join(' ')`. */
  function CapitalizeWords(s: string): string {
    Join(CapitalizeAll(Split(s, ' ')), " ")
  }

  /**
   * The same transformation stated one character at a time: a character is
   * upper-cased exactly when it opens the text (`atStart`) or follows a space.
   */
  function CapitalizedFrom(s: string, atStart: bool): string {
    if s == [] then [] else [if atStart then Upper(s[0]) else s[0]] + CapitalizedFrom(s[1..], s[0] == ' ')
  }

  lemma {:induction false} CapitalizedFromAt(s: string, atStart: bool)
    ensures |CapitalizedFrom(s, atStart)| == |s|
    ensures forall k :: 0 <= k < |s| ==>
      CapitalizedFrom(s, atStart)[k] == if (if k == 0 then atStart else s[k - 1] == ' ') then Upper(s[k]) else s[k]
  {
    if s != [] {
      CapitalizedFromAt(s[1..], s[0] == ' ');
      var r := CapitalizedFrom(s, atStart);
      forall k | 1 <= k < |s|
        ensures r[k] == if s[k - 1] == ' ' then Upper(s[k]) else s[k]
      {
        assert r[k] == CapitalizedFrom(s[1..], s[0] == ' ')[k - 1];
        assert s[1..][k - 1] == s[k];
        if k > 1 {
          assert s[1..][k - 2] == s[k - 1];
        }
      }
    }
  }

  lemma {:induction false} JoinCons(w: string, ws: seq<string>, sep: string)
    requires ws != []
    ensures Join([w] + ws, sep) == w + sep + Join(ws, sep)
  {
    assert ([w] + ws)[1..] == ws;
  }

  /** The inductive step of SplitCapitalize when the text opens with a space. */
  lemma {:induction false} SplitCapitalizeSpace(s: string)
    requires s != [] && s[0] == ' '
    requires Join(CapitalizeAll(Split(s[1..], ' ')), " ") == CapitalizedFrom(s[1..], true)
    ensures Join(CapitalizeAll(Split(s, ' ')), " ") == CapitalizedFrom(s, true)
    ensures Join([Split(s, ' ')[0]] + CapitalizeAll(Split(s, ' ')[1..]), " ") == CapitalizedFrom(s, false)
  {
    var rest := Split(s[1..], ' ');
    var ws := [""] + rest;
    assert Split(s, ' ') == ws;
    assert ws[0] == "" && ws[1..] == rest;
    var caps := CapitalizeAll(rest);
    assert CapitalizeAll(ws) == [""] + caps;
    JoinCons("", caps, " ");
  }

  /** The inductive step of SplitCapitalize when the text opens with a word character. */
  lemma {:induction false} SplitCapitalizeWord(s: string)
    requires s != [] && s[0] != ' '
    requires Join([Split(s[1..], ' ')[0]] + CapitalizeAll(Split(s[1..], ' ')[1..]), " ") == CapitalizedFrom(s[1..], false)
    ensures Join(CapitalizeAll(Split(s, ' ')), " ") == CapitalizedFrom(s, true)
    ensures Join([Split(s, ' ')[0]] + CapitalizeAll(Split(s, ' ')[1..]), " ") == CapitalizedFrom(s, false)
  {
    var rest := Split(s[1..], ' ');
    var w := [s[0]] + rest[0];
    var ws := [w] + rest[1..];
    assert Split(s, ' ') == ws;
    assert ws[0] == w && ws[1..] == rest[1..];
    var caps := CapitalizeAll(rest[1..]);
    assert CapitalizeAll(ws) == [CapitalizeFirst(w)] + caps;
    assert CapitalizeFirst(w) == [Upper(s[0])] + rest[0];
    JoinPrefixFirst([Upper(s[0])], rest[0], caps, " ");
    JoinPrefixFirst([s[0]], rest[0], caps, " ");
  }

  lemma {:induction false} SplitCapitalize(s: string)
    ensures Join(CapitalizeAll(Split(s, ' ')), " ") == CapitalizedFrom(s, true)
    ensures Join([Split(s, ' ')[0]] + CapitalizeAll(Split(s, ' ')[1..]), " ") == CapitalizedFrom(s, false)
  {
    if s != [] {
      SplitCapitalize(s[1..]);
      if s[0] == ' ' {
        SplitCapitalizeSpace(s);
      } else {
        SplitCapitalizeWord(s);
      }
    }
  }

  /** What capitalising every word does to each character. */
  lemma {:induction false} CapitalizeWordsAt(s: string)
    ensures |CapitalizeWords(s)| == |s|
    ensures forall k :: 0 <= k < |s| ==>
      CapitalizeWords(s)[k] == if k == 0 || s[k - 1] == ' ' then Upper(s[k]) else s[k]
  {
    SplitCapitalize(s);
    CapitalizedFromAt(s, true);
  }

  /** A text is the capitalisation of `s` when it agrees with it character by character. */
  lemma {:induction false} CapitalizeWordsFrom(s: string, r: string)
    requires |r| == |s|
    requires forall k :: 0 <= k < |s| ==> r[k] == if k == 0 || s[k - 1] == ' ' then Upper(s[k]) else s[k]
    ensures CapitalizeWords(s) == r
  {
    CapitalizeWordsAt(s);
    forall k | 0 <= k < |s| ensures CapitalizeWords(s)[k] == r[k] {
      if k == 0 || s[k - 1] == ' ' {
        assert CapitalizeWords(s)[k] == Upper(s[k]) == r[k];
      } else {
        assert CapitalizeWords(s)[k] == s[k] == r[k];
      }
    }
  }

  /** Every word of `fast food` gets an upper-case initial. */
  lemma {:induction false} CapitalizeExample()
    ensures CapitalizeWords("fast food") == "Fast Food"
  {
    assert Upper('f') == 'F';
    CapitalizeWordsFrom("fast food", "Fast Food");
  }

  // ---------------------------------------------------------------------------
  // Ordering and sorting (`Array.prototype.sort` with no comparator)
  // ---------------------------------------------------------------------------

  /** Lexicographic order on character codes: a prefix comes first. */
  predicate LexLessEq(a: string, b: string) {
    a == [] || (b != [] && (a[0] < b[0] || (a[0] == b[0] && LexLessEq(a[1..], b[1..]))))
  }

  lemma {:induction false} LexTotal(a: string, b: string)
    ensures LexLessEq(a, b) || LexLessEq(b, a)
  {
    if a != [] && b != [] && a[0] == b[0] {
      LexTotal(a[1..], b[1..]);
    }
  }

  lemma {:induction false} LexAntisymmetric(a: string, b: string)
    requires LexLessEq(a, b) && LexLessEq(b, a)
    ensures a == b
  {
    if a != [] && b != [] {
      LexAntisymmetric(a[1..], b[1..]);
      assert a == [a[0]] + a[1..] && b == [b[0]] + b[1..];
    }
  }

  lemma {:induction false} LexTransitive(a: string, b: string, c: string)
    requires LexLessEq(a, b) && LexLessEq(b, c)
    ensures LexLessEq(a, c)
  {
    if a != [] && b != [] && c != [] && a[0] == b[0] == c[0] {
      LexTransitive(a[1..], b[1..], c[1..]);
    }
  }

  predicate Sorted(s: seq<string>) {
    forall i, j :: 0 <= i < j < |s| ==> LexLessEq(s[i], s[j])
  }

  function InsertSorted(s: seq<string>, x: string): (r: seq<string>)
    requires Sorted(s)
    ensures Sorted(r)
    ensures multiset(r) == multiset(s) + multiset{x}
  {
    if s == [] then [x]
    else if LexLessEq(x, s[0]) then
      BelowHead(s, x);
      SortedCons(x, s);
      [x] + s
    else
      var tail := InsertSorted(s[1..], x);
      LexTotal(x, s[0]);
      HeadBelowTail(s, x, tail);
      SortedCons(s[0], tail);
      assert s == [s[0]] + s[1..];
      [s[0]] + tail
  }

  /** A value ordered before every element of a sorted list can go in front of it. */
  lemma {:induction false} SortedCons(h: string, t: seq<string>)
    requires Sorted(t) && forall j :: 0 <= j < |t| ==> LexLessEq(h, t[j])
    ensures Sorted([h] + t)
  {
    var r := [h] + t;
    forall i, j | 0 <= i < j < |r| ensures LexLessEq(r[i], r[j]) {
      assert r[j] == t[j - 1];
      if i > 0 { assert r[i] == t[i - 1]; }
    }
  }

  /** A value ordered before the head of a sorted list is ordered before all of it. */
  lemma {:induction false} BelowHead(s: seq<string>, x: string)
    requires Sorted(s) && s != [] && LexLessEq(x, s[0])
    ensures forall j :: 0 <= j < |s| ==> LexLessEq(x, s[j])
  {
    forall j | 0 <= j < |s| ensures LexLessEq(x, s[j]) {
      if j > 0 { LexTransitive(x, s[0], s[j]); }
    }
  }

  /** The head of a sorted list is ordered before the rest with one value at or above it inserted. */
  lemma {:induction false} HeadBelowTail(s: seq<string>, x: string, tail: seq<string>)
    requires Sorted(s) && s != [] && LexLessEq(s[0], x)
    requires multiset(tail) == multiset(s[1..]) + multiset{x}
    ensures forall j :: 0 <= j < |tail| ==> LexLessEq(s[0], tail[j])
  {
    forall j | 0 <= j < |tail| ensures LexLessEq(s[0], tail[j]) {
      var y := tail[j];
      assert y in multiset(tail);
      if y != x {
        assert y in multiset(s[1..]);
        var k :| 0 <= k < |s[1..]| && s[1..][k] == y;
        assert s[k + 1] == y;
      }
    }
  }

  /** The sorted arrangement of `s`. */
  function SortStrings(s: seq<string>): (r: seq<string>)
    ensures Sorted(r)
    ensures multiset(r) == multiset(s)
  {
    if s == [] then []
    else
      assert s == s[..|s| - 1] + [s[|s| - 1]];
      InsertSorted(SortStrings(s[..|s| - 1]), s[|s| - 1])
  }
}
