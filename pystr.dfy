/** The few Python string operations the notifier relies on: `str.title()`
    (on ASCII, where the cased characters are the 52 letters), `str(n)` of a
    non-negative integer, and `sep.join(parts)`. */
module PyStr {

  predicate IsUpper(c: char) { 'A' <= c <= 'Z' }

  predicate IsLower(c: char) { 'a' <= c <= 'z' }

  /** A character that has case; any other character separates words. */
  predicate IsCased(c: char) { IsUpper(c) || IsLower(c) }

  function Upper(c: char): char
  {
    if IsLower(c) then (c as int - 32) as char else c
  }

  function Lower(c: char): char
  {
    if IsUpper(c) then (c as int + 32) as char else c
  }

  /** `str.title()` on `s`, where `afterCased` says whether the character
      just before `s` is cased: a character following a cased one is
      lower-cased, any other is upper-cased. */
  function TitleFrom(s: string, afterCased: bool): (r: string)
    ensures |r| == |s|
  {
    if s == [] then []
    else [if afterCased then Lower(s[0]) else Upper(s[0])] + TitleFrom(s[1..], IsCased(s[0]))
  }

  /** Python's `s.title()`. */
  function Title(s: string): string
  {
    TitleFrom(s, false)
  }

  /** Position by position, `TitleFrom` upper-cases exactly the characters
      that start a word. */
  lemma {:induction false} TitleFromAt(s: string, afterCased: bool, i: nat)
    requires i < |s|
    ensures TitleFrom(s, afterCased)[i] ==
      if (if i == 0 then afterCased else IsCased(s[i - 1])) then Lower(s[i]) else Upper(s[i])
  {
    if i > 0 {
      TitleFromAt(s[1..], IsCased(s[0]), i - 1);
      if i > 1 {
        assert s[1..][i - 2] == s[i - 1];
      }
    }
  }

  /** `Title` keeps the length and upper-cases a character exactly when it
      starts a word (it is first, or follows an uncased character), lower-casing
      every other one. */
  lemma TitleAt(s: string, i: nat)
    requires i < |s|
    ensures |Title(s)| == |s|
    ensures Title(s)[i] == if i > 0 && IsCased(s[i - 1]) then Lower(s[i]) else Upper(s[i])
  {
    TitleFromAt(s, false, i);
  }

  /** Applying `str.title()` twice gives what applying it once gives. */
  lemma {:induction false} TitleFromIdempotent(s: string, afterCased: bool)
    ensures TitleFrom(TitleFrom(s, afterCased), afterCased) == TitleFrom(s, afterCased)
  {
    if s != [] {
      var t := TitleFrom(s, afterCased);
      assert t[0] == if afterCased then Lower(s[0]) else Upper(s[0]);
      assert IsCased(t[0]) == IsCased(s[0]);
      assert t[1..] == TitleFrom(s[1..], IsCased(s[0]));
      TitleFromIdempotent(s[1..], IsCased(s[0]));
    }
  }

  lemma TitleIdempotent(s: string)
    ensures Title(Title(s)) == Title(s)
  {
    TitleFromIdempotent(s, false);
  }

  // Decimal numerals, as `str(n)` writes them

  predicate IsDigit(c: char) { '0' <= c <= '9' }

  predicate IsNumeral(s: string)
  {
    |s| > 0 && forall i :: 0 <= i < |s| ==> IsDigit(s[i])
  }

  function DigitChar(d: nat): (c: char)
    requires d < 10
    ensures IsDigit(c)
  {
    ('0' as int + d) as char
  }

  /** Python's `str(n)` for a non-negative integer: a numeral without
      leading zeros. */
  function Decimal(n: nat): (r: string)
    ensures IsNumeral(r)
    ensures r[0] == '0' ==> n == 0 && r == "0"
    decreases n
  {
    if n < 10 then [DigitChar(n)] else Decimal(n / 10) + [DigitChar(n % 10)]
  }

  /** The number a numeral denotes. */
  function ValueOf(s: string): nat
    requires IsNumeral(s)
  {
    var last := s[|s| - 1] as int - '0' as int;
    if |s| == 1 then last else ValueOf(s[..|s| - 1]) * 10 + last
  }

  /** `str(n)` denotes `n`. */
  lemma {:induction false} DecimalRoundTrip(n: nat)
    ensures ValueOf(Decimal(n)) == n
    decreases n
  {
    if n >= 10 {
      DecimalRoundTrip(n / 10);
      var s := Decimal(n);
      assert s[..|s| - 1] == Decimal(n / 10);
    }
  }

  /** Python's `sep.join(parts)`. */
  function Join(sep: string, parts: seq<string>): string
  {
    if |parts| == 0 then ""
    else if |parts| == 1 then parts[0]
    else Join(sep, parts[..|parts| - 1]) + sep + parts[|parts| - 1]
  }

  /** Python's `s.split(sep)` for a one-character separator: the pieces
      between the separators, of which there is always at least one. */
  function Split(s: string, sep: char): (pieces: seq<string>)
    ensures |pieces| > 0
  {
    if s == [] then [""]
    else
      var before := Split(s[..|s| - 1], sep);
      var c := s[|s| - 1];
      if c == sep then before + [""]
      else before[..|before| - 1] + [before[|before| - 1] + [c]]
  }

  /** One more character: a separator opens a new, empty piece; any other
      character extends the last piece. */
  lemma SplitChar(s: string, sep: char, c: char)
    ensures var b := Split(s, sep);
      Split(s + [c], sep) == if c == sep then b + [""] else b[..|b| - 1] + [b[|b| - 1] + [c]]
  {
    assert (s + [c])[..|s|] == s;
  }

  /** One more character that is not a separator extends the last piece. */
  lemma SplitExtendStep(s: string, sep: char, p: string, c: char)
    requires c != sep
    requires var b := Split(s, sep); Split(s + p, sep) == b[..|b| - 1] + [b[|b| - 1] + p]
    ensures var b := Split(s, sep); Split(s + (p + [c]), sep) == b[..|b| - 1] + [b[|b| - 1] + (p + [c])]
  {
    var b := Split(s, sep);
    var init, last := b[..|b| - 1], b[|b| - 1];
    assert s + (p + [c]) == (s + p) + [c];
    SplitChar(s + p, sep, c);
    var before := Split(s + p, sep);
    assert before[..|before| - 1] == init;
    assert before[|before| - 1] == last + p;
    assert (last + p) + [c] == last + (p + [c]);
  }

  /** Appending a piece without separators extends the last piece. */
  lemma {:induction false} SplitExtend(s: string, sep: char, p: string)
    requires sep !in p
    ensures var b := Split(s, sep);
      Split(s + p, sep) == b[..|b| - 1] + [b[|b| - 1] + p]
    decreases |p|
  {
    if p == [] {
      var b := Split(s, sep);
      var init, last := b[..|b| - 1], b[|b| - 1];
      assert s + p == s;
      assert last + p == last;
      assert init + [last] == b;
    } else {
      var p', c := p[..|p| - 1], p[|p| - 1];
      assert c in p;
      assert p == p' + [c];
      SplitExtend(s, sep, p');
      SplitExtendStep(s, sep, p', c);
    }
  }

  /** Joining one more part adds one more piece, when the split of what was
      joined so far gave back its parts. */
  lemma SplitJoinStep(sep: char, init: seq<string>, last: string)
    requires |init| > 0 && sep !in last
    requires Split(Join([sep], init), sep) == init
    ensures Split(Join([sep], init + [last]), sep) == init + [last]
  {
    var parts := init + [last];
    var j := Join([sep], init);
    assert parts[..|parts| - 1] == init;
    assert Join([sep], parts) == (j + [sep]) + last;
    SplitChar(j, sep, sep);
    SplitExtend(j + [sep], sep, last);
    var pieces := init + [""];
    assert pieces[..|pieces| - 1] == init;
    assert pieces[|pieces| - 1] + last == last;
  }

  /** Splitting what `join` built on the same separator gives back the parts,
      provided no part contains the separator. */
  lemma {:induction false} SplitJoin(sep: char, parts: seq<string>)
    requires |parts| > 0
    requires forall i :: 0 <= i < |parts| ==> sep !in parts[i]
    ensures Split(Join([sep], parts), sep) == parts
    decreases |parts|
  {
    var last := parts[|parts| - 1];
    if |parts| == 1 {
      SplitExtend([], sep, last);
      assert [] + last == last;
    } else {
      var init := parts[..|parts| - 1];
      assert forall i :: 0 <= i < |init| ==> init[i] == parts[i];
      SplitJoin(sep, init);
      SplitJoinStep(sep, init, last);
      assert init + [last] == parts;
    }
  }
}
