/**
 * The string operations the upload path relies on: Python's `str.strip()`,
 * `str.split(sep)` with an explicit one-character separator, and `int(token)`.
 */
module Text {
  import opened Wrappers

  /** Whitespace as Python's `str.isspace` (and so `str.strip()`) sees it, for the ASCII range. */
  predicate IsSpace(c: char) {
    c == ' ' || 9 <= c as int <= 13 || 28 <= c as int <= 31
  }

  /**
   * The whitespace `int()` ignores around its digits, for the ASCII range:
   * space, tab, line feed, vertical tab, form feed and carriage return, but not
   * the separators `\x1c` to `\x1f` that `str.isspace` also counts.
   */
  predicate IsIntSpace(c: char) {
    c == ' ' || 9 <= c as int <= 13
  }

  /** Which whitespace a strip removes: that of `str.strip()` or that of `int()`. */
  datatype Spaces = StripSpaces | IntSpaces

  predicate IsSpaceOf(kind: Spaces, c: char) {
    if kind == StripSpaces then IsSpace(c) else IsIntSpace(c)
  }

  predicate AllSpace(s: string) {
    forall k :: 0 <= k < |s| ==> IsSpace(s[k])
  }

  /** Length of the longest prefix of `s` whose characters are all whitespace of `kind`. */
  function LeadingSpace(kind: Spaces, s: string): (n: nat)
    ensures n <= |s|
  {
    if |s| > 0 && IsSpaceOf(kind, s[0]) then 1 + LeadingSpace(kind, s[1..]) else 0
  }

  /** LeadingSpace measures a whitespace prefix that cannot be extended. */
  lemma {:induction false} LeadingSpaceMeaning(kind: Spaces, s: string)
    ensures var n := LeadingSpace(kind, s);
      (forall k :: 0 <= k < n ==> IsSpaceOf(kind, s[k])) && (n < |s| ==> !IsSpaceOf(kind, s[n]))
  {
    if |s| > 0 && IsSpaceOf(kind, s[0]) {
      LeadingSpaceMeaning(kind, s[1..]);
    }
  }

  /** Length of the longest suffix of `s` whose characters are all whitespace of `kind`. */
  function TrailingSpace(kind: Spaces, s: string): (n: nat)
    ensures n <= |s|
  {
    if |s| > 0 && IsSpaceOf(kind, s[|s| - 1]) then 1 + TrailingSpace(kind, s[..|s| - 1]) else 0
  }

  /** TrailingSpace measures a whitespace suffix that cannot be extended. */
  lemma {:induction false} TrailingSpaceMeaning(kind: Spaces, s: string)
    ensures var n := TrailingSpace(kind, s);
      (forall k :: |s| - n <= k < |s| ==> IsSpaceOf(kind, s[k])) && (n < |s| ==> !IsSpaceOf(kind, s[|s| - 1 - n]))
  {
    if |s| > 0 && IsSpaceOf(kind, s[|s| - 1]) {
      TrailingSpaceMeaning(kind, s[..|s| - 1]);
    }
  }

  /** Drop the leading and trailing whitespace of `kind`. */
  function StripWith(kind: Spaces, s: string): string {
    var rest := s[LeadingSpace(kind, s)..];
    rest[..|rest| - TrailingSpace(kind, rest)]
  }

  /** Python's `s.strip()`: drop leading and trailing whitespace. */
  function Strip(s: string): string {
    StripWith(StripSpaces, s)
  }

  /** The stripped text is empty only for all-whitespace text, and otherwise has no whitespace at its ends. */
  lemma StripMeaning(s: string)
    ensures var r := Strip(s);
      (r == [] <==> AllSpace(s)) && (r != [] ==> !IsSpace(r[0]) && !IsSpace(r[|r| - 1]))
  {
    var rest := s[LeadingSpace(StripSpaces, s)..];
    LeadingSpaceMeaning(StripSpaces, s);
    TrailingSpaceMeaning(StripSpaces, rest);
    if AllSpace(s) {
      assert rest == [];
    }
  }

  lemma {:induction false} LeadingSpaceAppend(w: string, u: string)
    requires AllSpace(w)
    ensures LeadingSpace(StripSpaces, w + u) == |w| + LeadingSpace(StripSpaces, u)
  {
    if w != [] {
      assert (w + u)[1..] == w[1..] + u;
      LeadingSpaceAppend(w[1..], u);
    } else {
      assert w + u == u;
    }
  }

  lemma {:induction false} TrailingSpaceAppend(u: string, w: string)
    requires AllSpace(w)
    ensures TrailingSpace(StripSpaces, u + w) == |w| + TrailingSpace(StripSpaces, u)
  {
    if w != [] {
      assert (u + w)[..|u + w| - 1] == u + w[..|w| - 1];
      TrailingSpaceAppend(u, w[..|w| - 1]);
    } else {
      assert u + w == u;
    }
  }

  /**
   * Strip removes exactly the whitespace padding: any text whose ends are not
   * whitespace comes back unchanged from any whitespace padding around it.
   */
  lemma StripPadded(w1: string, t: string, w2: string)
    requires AllSpace(w1) && AllSpace(w2)
    requires t == [] || (!IsSpace(t[0]) && !IsSpace(t[|t| - 1]))
    ensures Strip(w1 + t + w2) == t
  {
    var s := w1 + t + w2;
    assert s == w1 + (t + w2);
    LeadingSpaceAppend(w1, t + w2);
    if t == [] {
      assert t + w2 == w2 + [];
      LeadingSpaceAppend(w2, []);
    } else {
      assert (t + w2)[0] == t[0];
      assert s[LeadingSpace(StripSpaces, s)..] == t + w2;
      TrailingSpaceAppend(t, w2);
    }
  }

  /** Number of occurrences of `c` in `s`. */
  function Occurrences(s: string, c: char): nat {
    if |s| == 0 then 0 else (if s[0] == c then 1 else 0) + Occurrences(s[1..], c)
  }

  /**
   * Python's `s.split(sep)` for a one-character separator: the pieces between
   * separators, empty pieces included; the empty string gives one empty piece.
   */
  function Split(s: string, sep: char): (parts: seq<string>)
    ensures |parts| == Occurrences(s, sep) + 1
  {
    if |s| == 0 then [""]
    else
      var rest := Split(s[1..], sep);
      if s[0] == sep then [""] + rest
      else [[s[0]] + rest[0]] + rest[1..]
  }

  /** No piece of a split contains the separator. */
  lemma {:induction false} SplitPiecesFree(s: string, sep: char)
    ensures forall i :: 0 <= i < |Split(s, sep)| ==> sep !in Split(s, sep)[i]
  {
    if |s| > 0 {
      SplitPiecesFree(s[1..], sep);
    }
  }

  /** Python's `sep.join(parts)`. */
  function Join(parts: seq<string>, sep: char): string
    requires |parts| >= 1
  {
    if |parts| == 1 then parts[0] else parts[0] + [sep] + Join(parts[1..], sep)
  }

  /** A character that is not the separator and is in no piece is not in the join. */
  lemma {:induction false} JoinFree(parts: seq<string>, sep: char, c: char)
    requires |parts| >= 1 && c != sep
    requires forall i :: 0 <= i < |parts| ==> c !in parts[i]
    ensures c !in Join(parts, sep)
  {
    if |parts| > 1 {
      JoinFree(parts[1..], sep, c);
    }
  }

  /** A join of non-empty pieces starts as its first piece and ends as its last. */
  lemma {:induction false} JoinEnds(parts: seq<string>, sep: char)
    requires |parts| >= 1 && forall i :: 0 <= i < |parts| ==> parts[i] != []
    ensures var j, last := Join(parts, sep), parts[|parts| - 1];
      |j| > 0 && j[0] == parts[0][0] && j[|j| - 1] == last[|last| - 1]
  {
    if |parts| > 1 {
      var rest := parts[1..];
      assert forall i :: 0 <= i < |rest| ==> rest[i] == parts[i + 1];
      JoinEnds(rest, sep);
      assert Join(parts, sep) == parts[0] + [sep] + Join(rest, sep);
      assert rest[|rest| - 1] == parts[|parts| - 1];
    }
  }

  /** Splitting loses nothing: joining the pieces gives the text back. */
  lemma {:induction false} JoinSplit(s: string, sep: char)
    ensures Join(Split(s, sep), sep) == s
  {
    if |s| > 0 {
      var rest := Split(s[1..], sep);
      JoinSplit(s[1..], sep);
      if s[0] == sep {
        assert ([""] + rest)[1..] == rest;
      } else {
        var parts := [[s[0]] + rest[0]] + rest[1..];
        assert parts[1..] == rest[1..];
        if |rest| == 1 {
          assert Join(parts, sep) == [s[0]] + rest[0];
        } else {
          assert Join(parts, sep) == [s[0]] + rest[0] + [sep] + Join(rest[1..], sep);
        }
      }
    }
  }

  /** Splitting a join of separator-free pieces gives the pieces back. */
  lemma {:induction false} SplitJoin(parts: seq<string>, sep: char)
    requires |parts| >= 1
    requires forall i :: 0 <= i < |parts| ==> sep !in parts[i]
    ensures Split(Join(parts, sep), sep) == parts
  {
    if |parts| == 1 {
      SplitNoSeparator(parts[0], sep);
    } else {
      SplitJoin(parts[1..], sep);
      SplitAround(parts[0], Join(parts[1..], sep), sep);
    }
  }

  lemma {:induction false} SplitNoSeparator(s: string, sep: char)
    requires sep !in s
    ensures Split(s, sep) == [s]
  {
    if |s| > 0 {
      SplitNoSeparator(s[1..], sep);
      assert s[0] != sep;
      assert [s[0]] + s[1..] == s;
    }
  }

  lemma {:induction false} SplitAround(a: string, b: string, sep: char)
    requires sep !in a
    ensures Split(a + [sep] + b, sep) == [a] + Split(b, sep)
  {
    var s := a + [sep] + b;
    if |a| == 0 {
      assert s[1..] == b;
    } else {
      assert s[1..] == a[1..] + [sep] + b;
      SplitAround(a[1..], b, sep);
      assert [a[0]] + a[1..] == a;
    }
  }

  predicate IsDigit(c: char) {
    '0' <= c <= '9'
  }

  /** A non-empty run of decimal digits and the number it denotes, or nothing. */
  function ParseDigits(s: string): Option<nat> {
    if |s| == 0 || !IsDigit(s[|s| - 1]) then None
    else
      var d := s[|s| - 1] as int - '0' as int;
      if |s| == 1 then Some(d)
      else
        match ParseDigits(s[..|s| - 1])
        case None => None
        case Some(v) => Some(10 * v + d)
  }

  /**
   * Python's `int(token)` on the forms it accepts in this model: surrounding
   * space, tab, line feed, vertical tab, form feed or carriage return, an
   * optional `+` or `-`, then ASCII decimal digits. Anything else makes `int`
   * raise, and is `None` here. The interpreter's limit on the number of digits
   * (`sys.int_max_str_digits`) is not modelled: any number of digits is accepted.
   */
  function ParseInt(token: string): Option<int> {
    var s := StripWith(IntSpaces, token);
    if |s| > 0 && (s[0] == '-' || s[0] == '+') then
      match ParseDigits(s[1..])
      case None => None
      case Some(n) => var m: int := n; Some(if s[0] == '-' then -m else m)
    else
      ParseDigits(s)
  }

  /**
   * `int()` skips the ordinary ASCII whitespace around a number but refuses the
   * separator characters `\x1c` to `\x1f`, which `str.strip()` would remove.
   */
  lemma IntSpaceOnly()
    ensures ParseInt(" 5\n") == Some(5)
    ensures ParseInt(['5', 28 as char]) == None
    ensures Strip(['5', 28 as char]) == "5"
  {
    var t := ['5', 28 as char];
    assert LeadingSpace(IntSpaces, t) == 0 && TrailingSpace(IntSpaces, t) == 0;
    assert StripWith(IntSpaces, t) == t;
    assert TrailingSpace(StripSpaces, t) == 1 by {
      assert t[..1] == "5";
    }
    var u := " 5\n";
    assert LeadingSpace(IntSpaces, u) == 1 by {
      assert u[1..] == "5\n";
    }
    assert u[1..] == "5\n";
    assert TrailingSpace(IntSpaces, "5\n") == 1 by {
      assert "5\n"[..1] == "5";
    }
    assert StripWith(IntSpaces, u) == "5";
  }

  function DigitChar(d: nat): (c: char)
    requires d < 10
    ensures IsDigit(c) && c as int - '0' as int == d
  {
    ('0' as int + d) as char
  }

  /** Decimal rendering of a natural number, as Python's `str(n)`. */
  function ShowNat(n: nat): string {
    if n < 10 then [DigitChar(n)] else ShowNat(n / 10) + [DigitChar(n % 10)]
  }

  /** Decimal rendering of an integer, as Python's `str(n)`. */
  function Show(n: int): string {
    if n < 0 then ['-'] + ShowNat(-n) else ShowNat(n)
  }

  lemma {:induction false} ShowNatDigits(n: nat)
    ensures |ShowNat(n)| > 0 && IsDigit(ShowNat(n)[0]) && ParseDigits(ShowNat(n)) == Some(n)
  {
    if n >= 10 {
      ShowNatDigits(n / 10);
      var s := ShowNat(n);
      assert s[..|s| - 1] == ShowNat(n / 10);
    }
  }

  lemma {:induction false} ShowNatChars(n: nat)
    ensures |ShowNat(n)| > 0 && forall k :: 0 <= k < |ShowNat(n)| ==> IsDigit(ShowNat(n)[k])
  {
    if n >= 10 {
      ShowNatChars(n / 10);
    }
  }

  /** A rendered number is digits after an optional minus sign, and ends in a digit. */
  lemma ShowChars(n: int)
    ensures |Show(n)| > 0 && IsDigit(Show(n)[|Show(n)| - 1])
    ensures IsDigit(Show(n)[0]) || Show(n)[0] == '-'
    ensures forall k :: 0 <= k < |Show(n)| ==> IsDigit(Show(n)[k]) || Show(n)[k] == '-'
  {
    if n < 0 {
      ShowNatChars(-n);
    } else {
      ShowNatChars(n);
    }
  }

  /** `int(str(n)) == n`: parsing undoes rendering. */
  lemma ParseShow(n: int)
    ensures ParseInt(Show(n)) == Some(n)
  {
    if n < 0 {
      ParseShowNegative(n);
    } else {
      ParseShowNat(n);
    }
  }

  lemma ParseShowNat(n: nat)
    ensures ParseInt(ShowNat(n)) == Some(n)
  {
    var s := ShowNat(n);
    ShowNatDigits(n);
    assert IsDigit(s[|s| - 1]);
    StripUnpadded(IntSpaces, s);
  }

  lemma ParseShowNegative(n: int)
    requires n < 0
    ensures ParseInt(Show(n)) == Some(n)
  {
    var digits := ShowNat(-n);
    var s := ['-'] + digits;
    ShowNatDigits(-n);
    assert s[1..] == digits;
    assert IsDigit(s[|s| - 1]);
    StripUnpadded(IntSpaces, s);
  }

  /** A text that neither starts nor ends with whitespace of `kind` is left as it is. */
  lemma StripUnpadded(kind: Spaces, s: string)
    requires s == [] || (!IsSpaceOf(kind, s[0]) && !IsSpaceOf(kind, s[|s| - 1]))
    ensures StripWith(kind, s) == s
  {
    assert LeadingSpace(kind, s) == 0;
    assert s[0..] == s;
  }
}
